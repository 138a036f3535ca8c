/** `Adapter.concat_into_url`: URL parts stripped of surrounding slashes and joined with `/`. */
module Adapter {
  import opened Strs

  /** Every part with its leading and trailing `/` removed. */
  function StripAll(parts: seq<string>): (r: seq<string>)
    ensures |r| == |parts|
    ensures forall i :: 0 <= i < |parts| ==> r[i] == Strip(parts[i], '/')
  {
    seq(|parts|, i requires 0 <= i < |parts| => Strip(parts[i], '/'))
  }

  /** Stripping commutes with appending a part. */
  lemma StripAllAppend(parts: seq<string>, x: string)
    ensures StripAll(parts + [x]) == StripAll(parts) + [Strip(x, '/')]
  {
    var l, r := StripAll(parts + [x]), StripAll(parts) + [Strip(x, '/')];
    forall i | 0 <= i < |l|
      ensures l[i] == r[i]
    {
      if i < |parts| {
        assert (parts + [x])[i] == parts[i];
      }
    }
  }

  /** `"/".join(map(lambda x: str(x).strip("/"), args))`. */
  function ConcatIntoUrl(parts: seq<string>): (r: string)
    ensures |parts| == 0 ==> r == ""
    ensures |parts| == 1 ==> r == Strip(parts[0], '/')
    ensures |parts| >= 1 ==> Strip(parts[0], '/') <= r
  {
    Join(StripAll(parts), '/')
  }

  /** Joining one more part appends the separator and that part. */
  lemma {:induction false} JoinAppend(parts: seq<string>, x: string, sep: char)
    requires |parts| >= 1
    ensures Join(parts + [x], sep) == Join(parts, sep) + [sep] + x
    decreases |parts|
  {
    if |parts| > 1 {
      assert (parts + [x])[1..] == parts[1..] + [x];
      JoinAppend(parts[1..], x, sep);
    }
  }

  /** The join ends with the last part. */
  lemma {:induction false} JoinEndsWithLast(parts: seq<string>, sep: char)
    requires |parts| >= 1
    ensures var j := Join(parts, sep);
      |parts[|parts| - 1]| <= |j| && j[|j| - |parts[|parts| - 1]|..] == parts[|parts| - 1]
    decreases |parts|
  {
    if |parts| > 1 {
      JoinEndsWithLast(parts[1..], sep);
      assert parts[1..][|parts[1..]| - 1] == parts[|parts| - 1];
    }
  }

  /** Adding a part to a URL adds exactly one `/` and the stripped part. */
  lemma ConcatAppend(parts: seq<string>, x: string)
    requires |parts| >= 1
    ensures ConcatIntoUrl(parts + [x]) == ConcatIntoUrl(parts) + "/" + Strip(x, '/')
  {
    StripAllAppend(parts, x);
    JoinAppend(StripAll(parts), Strip(x, '/'), '/');
  }

  /** Two parts: the stripped parts around a single `/`. */
  lemma ConcatTwo(a: string, b: string)
    ensures ConcatIntoUrl([a, b]) == Strip(a, '/') + "/" + Strip(b, '/')
  {
    ConcatAppend([a], b);
    assert [a] + [b] == [a, b];
  }

  /** The separator a join adds before a new part sits between the old last part and the new one. */
  lemma JoinBoundary(ps: seq<string>, y: string, sep: char)
    requires |ps| >= 1 && ps[|ps| - 1] != [] && y != []
    ensures var u := Join(ps, sep);
      var r := Join(ps + [y], sep);
      |u| >= 1 && |r| == |u| + 1 + |y| && u[|u| - 1] == ps[|ps| - 1][|ps[|ps| - 1]| - 1]
      && r[|u|] == sep && r[|u| + 1] == y[0]
  {
    var last := ps[|ps| - 1];
    var u := Join(ps, sep);
    JoinEndsWithLast(ps, sep);
    var tail := u[|u| - |last|..];
    assert tail == last;
    assert u[|u| - 1] == tail[|last| - 1];
    JoinAppend(ps, y, sep);
    var r := u + [sep] + y;
    assert r[|u|] == sep;
    assert r[|u| + 1] == y[0];
  }

  /** Joining a part that does not start with the separator to parts whose last one does not end with it. */
  lemma JoinNoDoubleSeparator(ps: seq<string>, y: string, sep: char)
    requires |ps| >= 1 && ps[|ps| - 1] != [] && ps[|ps| - 1][|ps[|ps| - 1]| - 1] != sep
    requires y != [] && y[0] != sep
    ensures var u := Join(ps, sep);
      var r := Join(ps + [y], sep);
      |u| >= 1 && |r| >= |u| + 2 && u[|u| - 1] != sep && r[|u|] == sep && r[|u| + 1] != sep
  {
    JoinBoundary(ps, y, sep);
  }

  /**
   * Where a non-empty part follows a non-empty part, the `/` between them is the only
   * slash there: the URL so far does not end with `/` and the new part does not start with one.
   */
  lemma NoDoubleSlashAtJoin(parts: seq<string>, x: string)
    requires |parts| >= 1
    requires Strip(parts[|parts| - 1], '/') != "" && Strip(x, '/') != ""
    ensures var u := ConcatIntoUrl(parts);
      var r := ConcatIntoUrl(parts + [x]);
      |u| >= 1 && |r| >= |u| + 2 && u[|u| - 1] != '/' && r[|u|] == '/' && r[|u| + 1] != '/'
  {
    assert StripAll(parts)[|parts| - 1] == Strip(parts[|parts| - 1], '/');
    StripAllAppend(parts, x);
    JoinNoDoubleSeparator(StripAll(parts), Strip(x, '/'), '/');
  }

  /** Parts without slashes at their ends are joined unchanged, interior slashes included. */
  lemma {:induction false} ConcatClean(parts: seq<string>)
    requires forall i :: 0 <= i < |parts| ==> parts[i] == [] || (parts[i][0] != '/' && parts[i][|parts[i]| - 1] != '/')
    ensures ConcatIntoUrl(parts) == Join(parts, '/')
  {
    forall i | 0 <= i < |parts|
      ensures StripAll(parts)[i] == parts[i]
    {
      StripClean(parts[i], '/');
    }
    assert StripAll(parts) == parts;
  }

  /** A clean core keeps nothing of the slashes around it. */
  lemma StripAround(core: string)
    requires core != [] && core[0] != '/' && core[|core| - 1] != '/'
    ensures Strip(core + "/", '/') == core
    ensures Strip("/" + core, '/') == core
    ensures Strip("/" + core + "/", '/') == core
  {
    StripClean(core, '/');
    var t := core + "/";
    assert t[..|t| - 1] == core;
    var u := "/" + core;
    assert u[1..] == core;
    var w := "/" + core + "/";
    assert w[1..] == t;
  }

  /** Clean parts joined as they are. */
  lemma ConcatExamplePlain()
    ensures ConcatIntoUrl(["https://example.com", "api/v1/resource"]) == "https://example.com" + "/" + "api/v1/resource"
  {
    ConcatTwo("https://example.com", "api/v1/resource");
    StripClean("https://example.com", '/');
    StripClean("api/v1/resource", '/');
  }

  /** Slashes at the part boundaries collapse into the single separator. */
  lemma ConcatSlashedParts(a: string, b: string)
    requires a != [] && a[0] != '/' && a[|a| - 1] != '/'
    requires b != [] && b[0] != '/' && b[|b| - 1] != '/'
    ensures ConcatIntoUrl([a + "/", "/" + b + "/"]) == a + "/" + b
  {
    ConcatTwo(a + "/", "/" + b + "/");
    StripAround(a);
    StripAround(b);
  }

  /** The slashed-boundary case with concrete parts. */
  lemma ConcatExampleSlashes()
    ensures ConcatIntoUrl(["https://example.com" + "/", "/" + "api/v1/resource" + "/"]) == "https://example.com" + "/" + "api/v1/resource"
  {
    ConcatSlashedParts("https://example.com", "api/v1/resource");
  }

  /** An empty last part leaves a trailing `/`. */
  lemma ConcatExampleEmptyPath()
    ensures ConcatIntoUrl(["https://example.com", ""]) == "https://example.com/"
  {
    ConcatTwo("https://example.com", "");
    StripClean("https://example.com", '/');
  }
}
