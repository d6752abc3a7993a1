/**
  The JSON values the client reads back from `response.json()`, with the
  three Python operations the client applies to them: truthiness (`if v:`,
  `not v`), `dict.get` and `str()`.
*/
module PyJson {
  import opened Text

  /**
    A decoded JSON value. An object keeps its keys in insertion order, as a
    Python dict does; its keys are taken to be distinct. JSON numbers are
    integers here.
  */
  datatype Json =
    | Null
    | Bool(b: bool)
    | Num(n: int)
    | Str(s: string)
    | Arr(items: seq<Json>)
    | Obj(fields: seq<(string, Json)>)

  /** The key/value pairs of a JSON object (a Python dict). */
  type Fields = seq<(string, Json)>

  /** Python truthiness: None, False, 0, "", [] and {} are false. */
  predicate Truthy(j: Json)
  {
    match j
    case Null => false
    case Bool(b) => b
    case Num(n) => n != 0
    case Str(s) => s != ""
    case Arr(items) => items != []
    case Obj(fields) => fields != []
  }

  /** `k in d`. */
  predicate HasKey(d: Fields, k: string)
  {
    exists i :: 0 <= i < |d| && d[i].0 == k
  }

  /** `d.get(k, default)`: the value bound to `k`, or `default` when `k` is absent. */
  function Lookup(d: Fields, k: string, default: Json): (v: Json)
    ensures !HasKey(d, k) ==> v == default
    ensures HasKey(d, k) ==> exists i :: 0 <= i < |d| && d[i] == (k, v)
  {
    if d == [] then default
    else if d[0].0 == k then d[0].1
    else
      var v := Lookup(d[1..], k, default);
      assert HasKey(d, k) ==> HasKey(d[1..], k) by {
        if HasKey(d, k) {
          var i :| 0 <= i < |d| && d[i].0 == k;
          assert i > 0 && d[1..][i - 1].0 == k;
        }
      }
      assert forall i :: 0 <= i < |d[1..]| ==> d[1..][i] == d[i + 1];
      v
  }

  lemma LookupHead(k: string, v: Json, rest: Fields, default: Json)
    ensures Lookup([(k, v)] + rest, k, default) == v
  {
  }

  lemma LookupSkip(k0: string, v: Json, rest: Fields, k: string, default: Json)
    requires k0 != k
    ensures Lookup([(k0, v)] + rest, k, default) == Lookup(rest, k, default)
  {
    assert ([(k0, v)] + rest)[1..] == rest;
  }

  /** Python's `a or b` on two values. */
  function Or(a: Json, b: Json): (r: Json)
    ensures Truthy(r) <==> Truthy(a) || Truthy(b)
    ensures Truthy(a) ==> r == a
  {
    if Truthy(a) then a else b
  }

  /** Python's `repr()` of a value. */
  function Repr(j: Json): string
  {
    match j
    case Null => "None"
    case Bool(b) => if b then "True" else "False"
    case Num(n) => DecimalString(n)
    case Str(s) => "'" + s + "'"
    case Arr(items) =>
      "[" + Join(seq(|items|, i requires 0 <= i < |items| => Repr(items[i])), ", ") + "]"
    case Obj(fields) =>
      "{" + Join(seq(|fields|, i requires 0 <= i < |fields| => "'" + fields[i].0 + "': " + Repr(fields[i].1)), ", ") + "}"
  }

  /** Python's `str()` of a value, as f-strings and `str(...)` render it. */
  function PyStr(j: Json): string
  {
    if j.Str? then j.s else Repr(j)
  }
}
