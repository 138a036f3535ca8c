/**
 * JSON values as the Python SDK sees them after `json.loads`: objects keep their
 * insertion order (a sequence of key/value pairs), and `JNull` is Python's `None`.
 * Numbers are kept as exact reals; no arithmetic is ever done on them.
 */
module Json {
  import opened Wrappers
  import Strs

  datatype Json =
    | JNull
    | JBool(b: bool)
    | JNum(n: real)
    | JStr(s: string)
    | JArr(items: seq<Json>)
    | JObj(fields: seq<(string, Json)>)

  type Fields = seq<(string, Json)>

  /** The two Python exceptions raised by dictionary and operator misuse. */
  datatype PyError = TypeError | KeyError

  /** Python truthiness: `None`, `False`, zero and empty containers are false. */
  predicate Truthy(j: Json) {
    match j
    case JNull => false
    case JBool(b) => b
    case JNum(n) => n != 0.0
    case JStr(s) => s != ""
    case JArr(xs) => xs != []
    case JObj(fs) => fs != []
  }

  /** `d.get(k)` on an object: the value of the first pair with key `k`. */
  function Get(fs: Fields, k: string): (r: Option<Json>)
    ensures r.Some? <==> exists i :: 0 <= i < |fs| && fs[i].0 == k
    decreases |fs|
  {
    if |fs| == 0 then None
    else if fs[0].0 == k then Some(fs[0].1)
    else Get(fs[1..], k)
  }

  /** `d[k] = v`: replaces the value in place when `k` is present, appends the pair otherwise. */
  function Set(fs: Fields, k: string, v: Json): (r: Fields)
    ensures Get(r, k) == Some(v)
    ensures forall k' :: k' != k ==> Get(r, k') == Get(fs, k')
    ensures |r| == if Get(fs, k).Some? then |fs| else |fs| + 1
    decreases |fs|
  {
    if |fs| == 0 then [(k, v)]
    else if fs[0].0 == k then [(k, v)] + fs[1..]
    else [fs[0]] + Set(fs[1..], k, v)
  }

  /** Appending a pair is seen only by a key that was absent before. */
  lemma {:induction false} GetAppend(fs: Fields, k: string, v: Json, k': string)
    ensures Get(fs + [(k, v)], k') == if Get(fs, k').Some? then Get(fs, k') else if k' == k then Some(v) else None
    decreases |fs|
  {
    if |fs| > 0 {
      assert (fs + [(k, v)])[1..] == fs[1..] + [(k, v)];
      GetAppend(fs[1..], k, v, k');
    }
  }

  /** No key occurs twice: every object Python builds has this shape. */
  predicate DistinctKeys(fs: Fields) {
    forall i, j :: 0 <= i < j < |fs| ==> fs[i].0 != fs[j].0
  }

  /** In an object without repeated keys, every pair is what `Get` finds for its key. */
  lemma {:induction false} GetAt(fs: Fields, i: nat)
    requires DistinctKeys(fs) && i < |fs|
    ensures Get(fs, fs[i].0) == Some(fs[i].1)
    decreases i
  {
    if i > 0 {
      assert DistinctKeys(fs[1..]);
      assert fs[1..][i - 1] == fs[i];
      GetAt(fs[1..], i - 1);
    }
  }

  /** `d.update(other)`: the pairs of `other` are assigned one by one, in order. */
  function Update(fs: Fields, other: Fields): (r: Fields)
    ensures forall k :: Get(other, k).None? ==> Get(r, k) == Get(fs, k)
    ensures forall k :: Get(other, k).Some? ==> Get(r, k).Some?
    ensures DistinctKeys(other) ==> forall k :: Get(other, k).Some? ==> Get(r, k) == Get(other, k)
    decreases |other|
  {
    if |other| == 0 then fs
    else
      var r := Update(Set(fs, other[0].0, other[0].1), other[1..]);
      assert forall k :: Get(other, k) == if other[0].0 == k then Some(other[0].1) else Get(other[1..], k);
      assert DistinctKeys(other) ==> DistinctKeys(other[1..]) && Get(other[1..], other[0].0).None?;
      r
  }

  /** Python's `k in j` for a string `k`: key test on a dict, substring test on a str,
      membership on a list; any other operand raises TypeError. */
  function PyIn(k: string, j: Json): (r: Result<bool, PyError>)
    ensures j.JObj? ==> r == Ok(Get(j.fields, k).Some?)
    ensures j.JStr? ==> r == Ok(Strs.Contains(j.s, k))
    ensures j.JArr? ==> r == Ok(JStr(k) in j.items)
    ensures r.Err? <==> j.JNull? || j.JBool? || j.JNum?
  {
    match j
    case JObj(fs) => Ok(Get(fs, k).Some?)
    case JStr(s) => Ok(Strs.Contains(s, k))
    case JArr(xs) => Ok(JStr(k) in xs)
    case _ => Err(TypeError)
  }

  /** Python's `j[k]` for a string `k`: KeyError on a dict without `k`, TypeError on anything but a dict. */
  function PyIndex(j: Json, k: string): (r: Result<Json, PyError>)
    ensures r.Ok? <==> j.JObj? && Get(j.fields, k).Some?
    ensures r.Ok? ==> Get(j.fields, k) == Some(r.value)
  {
    match j
    case JObj(fs) => (match Get(fs, k) case Some(v) => Ok(v) case None => Err(KeyError))
    case _ => Err(TypeError)
  }

  /**
   * Python's `str()` as far as the model renders it: strings as themselves, the constants
   * and empty containers as Python prints them, other values as a fixed placeholder.
   */
  function PyStr(j: Json): string {
    match j
    case JStr(s) => s
    case JNull => "None"
    case JBool(b) => if b then "True" else "False"
    case JArr(xs) => if |xs| == 0 then "[]" else "<list>"
    case JObj(fs) => if |fs| == 0 then "{}" else "<dict>"
    case JNum(_) => "<number>"
  }

  /** An HTTP response whose body has already been parsed as JSON. */
  datatype Response = Response(status: int, body: Json)
}
