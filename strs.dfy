/** The handful of Python `str` operations the SDK relies on, over `seq<char>`. */
module Strs {

  /** Python's `sub in s` on two strings: `sub` occurs in `s` as a contiguous slice. */
  predicate Contains(s: string, sub: string)
    decreases |s|
  {
    sub <= s || (|s| > 0 && Contains(s[1..], sub))
  }

  /** `Contains` is exactly "occurs at some offset". */
  lemma {:induction false} ContainsAt(s: string, sub: string, i: nat)
    requires i + |sub| <= |s| && s[i..i + |sub|] == sub
    ensures Contains(s, sub)
    decreases i
  {
    if i > 0 {
      assert s[1..][i - 1..i - 1 + |sub|] == s[i..i + |sub|];
      ContainsAt(s[1..], sub, i - 1);
    }
  }

  /** A string always contains its own suffix. */
  lemma ContainsSuffix(s: string, sub: string)
    ensures Contains(s + sub, sub)
  {
    var t := s + sub;
    assert t[|s|..|s| + |sub|] == sub;
    ContainsAt(t, sub, |s|);
  }

  /** Python's `s.split(sep)` for a one-character separator. */
  function Split(s: string, sep: char): (parts: seq<string>)
    ensures |parts| >= 1
    ensures forall i :: 0 <= i < |parts| ==> sep !in parts[i]
    decreases |s|
  {
    if |s| == 0 then [""]
    else
      var rest := Split(s[1..], sep);
      if s[0] == sep then [""] + rest
      else [[s[0]] + rest[0]] + rest[1..]
  }

  /** Python's `sep.join(parts)` for a one-character separator. */
  function Join(parts: seq<string>, sep: char): string
    decreases |parts|
  {
    if |parts| == 0 then ""
    else if |parts| == 1 then parts[0]
    else parts[0] + [sep] + Join(parts[1..], sep)
  }

  /** Joining the parts of a split gives the string back. */
  lemma {:induction false} JoinSplit(s: string, sep: char)
    ensures Join(Split(s, sep), sep) == s
    decreases |s|
  {
    if |s| > 0 {
      var rest := Split(s[1..], sep);
      JoinSplit(s[1..], sep);
      if s[0] == sep {
        assert Split(s, sep) == [""] + rest;
        assert Join([""] + rest, sep) == "" + [sep] + Join(rest, sep);
      } else if |rest| == 1 {
        assert Split(s, sep) == [[s[0]] + rest[0]];
      } else {
        var parts := Split(s, sep);
        assert parts[1..] == rest[1..];
        assert Join(rest, sep) == rest[0] + [sep] + Join(rest[1..], sep);
        assert Join(parts, sep) == [s[0]] + rest[0] + [sep] + Join(rest[1..], sep);
      }
    }
  }

  /** A string without the separator splits into itself alone. */
  lemma {:induction false} SplitNoSep(s: string, sep: char)
    requires sep !in s
    ensures Split(s, sep) == [s]
    decreases |s|
  {
    if |s| > 0 {
      SplitNoSep(s[1..], sep);
      assert [s[0]] + s[1..] == s;
    }
  }

  /** Splitting at one occurrence of the separator splits the two sides independently. */
  lemma {:induction false} SplitAround(a: string, sep: char, b: string)
    ensures Split(a + [sep] + b, sep) == Split(a, sep) + Split(b, sep)
    decreases |a|
  {
    if |a| == 0 {
      var t := a + [sep] + b;
      assert t == [sep] + b;
      assert t[1..] == b;
    } else {
      SplitAround(a[1..], sep, b);
      SplitAroundStep(a[0], a[1..], sep, b);
      assert [a[0]] + a[1..] == a;
    }
  }

  /** Splitting a string that starts with `c`: a new empty part, or `c` prefixed to the first part. */
  lemma SplitCons(c: char, s: string, sep: char)
    ensures Split([c] + s, sep) == if c == sep then [""] + Split(s, sep)
                                   else [[c] + Split(s, sep)[0]] + Split(s, sep)[1..]
  {
    assert ([c] + s)[1..] == s;
  }

  /** The inductive step of `SplitAround`: one more character in front of the left side. */
  lemma SplitAroundStep(c: char, a: string, sep: char, b: string)
    requires Split(a + [sep] + b, sep) == Split(a, sep) + Split(b, sep)
    ensures Split([c] + a + [sep] + b, sep) == Split([c] + a, sep) + Split(b, sep)
  {
    assert [c] + a + [sep] + b == [c] + (a + [sep] + b);
    SplitCons(c, a + [sep] + b, sep);
    SplitCons(c, a, sep);
    SplitConsParts(c, Split(a, sep), Split(b, sep), sep);
  }

  /** The list algebra behind `SplitAroundStep`. */
  lemma SplitConsParts(c: char, ra: seq<string>, rb: seq<string>, sep: char)
    requires |ra| >= 1
    ensures (if c == sep then [""] + (ra + rb) else [[c] + (ra + rb)[0]] + (ra + rb)[1..])
         == (if c == sep then [""] + ra else [[c] + ra[0]] + ra[1..]) + rb
  {
    if c != sep {
      assert (ra + rb)[0] == ra[0];
      assert (ra + rb)[1..] == ra[1..] + rb;
    }
  }

  /** Splitting a join of separator-free parts gives the parts back. */
  lemma {:induction false} SplitJoin(parts: seq<string>, sep: char)
    requires |parts| >= 1
    requires forall i :: 0 <= i < |parts| ==> sep !in parts[i]
    ensures Split(Join(parts, sep), sep) == parts
    decreases |parts|
  {
    SplitNoSep(parts[0], sep);
    if |parts| > 1 {
      SplitJoin(parts[1..], sep);
      SplitAround(parts[0], sep, Join(parts[1..], sep));
      assert [parts[0]] + parts[1..] == parts;
    }
  }

  /** Python's `s.lstrip(c)`: every leading `c` removed. */
  function TrimStart(s: string, c: char): (r: string)
    ensures r == [] || r[0] != c
    decreases |s|
  {
    if |s| > 0 && s[0] == c then TrimStart(s[1..], c) else s
  }

  /** Python's `s.rstrip(c)`: every trailing `c` removed. */
  function TrimEnd(s: string, c: char): (r: string)
    ensures r == [] || r[|r| - 1] != c
    decreases |s|
  {
    if |s| > 0 && s[|s| - 1] == c then TrimEnd(s[..|s| - 1], c) else s
  }

  /** What `lstrip` removes is a run of `c` at the front; what it keeps is the rest, unchanged. */
  lemma {:induction false} TrimStartSuffix(s: string, c: char)
    ensures var r := TrimStart(s, c);
      |r| <= |s| && r == s[|s| - |r|..] && forall k :: 0 <= k < |s| - |r| ==> s[k] == c
    decreases |s|
  {
    if |s| > 0 && s[0] == c {
      TrimStartSuffix(s[1..], c);
    }
  }

  /** What `rstrip` removes is a run of `c` at the end; what it keeps is a prefix. */
  lemma {:induction false} TrimEndPrefix(s: string, c: char)
    ensures var r := TrimEnd(s, c);
      r <= s && forall k :: |r| <= k < |s| ==> s[k] == c
    decreases |s|
  {
    if |s| > 0 && s[|s| - 1] == c {
      TrimEndPrefix(s[..|s| - 1], c);
    }
  }

  /**
   * Python's `s.strip(c)`: leading and trailing `c` removed, the middle untouched. Defined
   * one end character at a time; `StripTrims` shows it is `s.rstrip(c).lstrip(c)`.
   */
  function Strip(s: string, c: char): (r: string)
    ensures r == [] || (r[0] != c && r[|r| - 1] != c)
    ensures |r| <= |s|
    decreases |s|
  {
    if |s| > 0 && s[0] == c then Strip(s[1..], c)
    else if |s| > 0 && s[|s| - 1] == c then Strip(s[..|s| - 1], c)
    else s
  }

  /** `rstrip` of a string with one more character in front. */
  lemma {:induction false} TrimEndCons(x: char, t: string, c: char)
    ensures TrimEnd([x] + t, c) == if x == c && TrimEnd(t, c) == [] then [] else [x] + TrimEnd(t, c)
    decreases |t|
  {
    var s := [x] + t;
    if |t| == 0 {
      assert s[..0] == [];
    } else if t[|t| - 1] == c {
      var t' := t[..|t| - 1];
      assert s[..|s| - 1] == [x] + t';
      TrimEndCons(x, t', c);
    }
  }

  /** `Strip` agrees with `lstrip` after `rstrip`. */
  lemma {:induction false} StripTrims(s: string, c: char)
    ensures Strip(s, c) == TrimStart(TrimEnd(s, c), c)
    decreases |s|
  {
    if |s| > 0 && s[0] == c {
      StripTrims(s[1..], c);
      StripTrimsLeading(s, c);
    } else if |s| > 0 && s[|s| - 1] == c {
      StripTrims(s[..|s| - 1], c);
    }
  }

  /** The step of `StripTrims` for a leading `c`: `rstrip` keeps it unless nothing else is left. */
  lemma StripTrimsLeading(s: string, c: char)
    requires |s| > 0 && s[0] == c
    requires Strip(s[1..], c) == TrimStart(TrimEnd(s[1..], c), c)
    ensures Strip(s, c) == TrimStart(TrimEnd(s, c), c)
  {
    var t := s[1..];
    assert s == [c] + t;
    TrimEndCons(c, t, c);
    TrimStartCons(c, TrimEnd(t, c));
  }

  /** `lstrip` drops a leading `c`. */
  lemma TrimStartCons(c: char, u: string)
    ensures TrimStart([c] + u, c) == TrimStart(u, c)
  {
    assert ([c] + u)[1..] == u;
  }

  /** A string that neither starts nor ends with `c` is left as it is by `Strip`. */
  lemma StripClean(s: string, c: char)
    requires s == [] || (s[0] != c && s[|s| - 1] != c)
    ensures Strip(s, c) == s
  {
  }

  /** Python's `s.removeprefix(p)`. */
  function RemovePrefix(s: string, p: string): (r: string)
    ensures p <= s ==> s == p + r
    ensures !(p <= s) ==> r == s
  {
    if p <= s then s[|p|..] else s
  }

  /** Python's `s.replace(c, "")`: every `c` dropped, every other character kept in order. */
  function RemoveChar(s: string, c: char): (r: string)
    ensures c !in r
    ensures forall d :: d != c ==> multiset(r)[d] == multiset(s)[d]
    decreases |s|
  {
    if |s| == 0 then ""
    else
      var rest := RemoveChar(s[1..], c);
      assert multiset(s) == multiset([s[0]]) + multiset(s[1..]) by {
        assert s == [s[0]] + s[1..];
      }
      (if s[0] == c then "" else [s[0]]) + rest
  }

  /** Removing a character commutes with concatenation. */
  lemma {:induction false} RemoveCharAppend(a: string, b: string, c: char)
    ensures RemoveChar(a + b, c) == RemoveChar(a, c) + RemoveChar(b, c)
    decreases |a|
  {
    if |a| > 0 {
      assert (a + b)[1..] == a[1..] + b;
      RemoveCharAppend(a[1..], b, c);
    } else {
      assert a + b == b;
    }
  }

  /** A string without `c` is unchanged by removing `c`. */
  lemma {:induction false} RemoveCharAbsent(s: string, c: char)
    requires c !in s
    ensures RemoveChar(s, c) == s
    decreases |s|
  {
    if |s| > 0 {
      RemoveCharAbsent(s[1..], c);
    }
  }

  /** Python's `s.replace(from, to)` for two single characters. */
  function ReplaceChar(s: string, from: char, to: char): (r: string)
    ensures |r| == |s|
    ensures forall i :: 0 <= i < |s| ==> r[i] == if s[i] == from then to else s[i]
    decreases |s|
  {
    if |s| == 0 then ""
    else [if s[0] == from then to else s[0]] + ReplaceChar(s[1..], from, to)
  }
}
