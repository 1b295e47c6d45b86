/** A decoded JSON response body, with JavaScript's `?.`, `??` and truthiness over it. */
module Json {

  /**
   * A JSON value. `Null` stands for both `null` and `undefined`: the client only ever
   * inspects such values with `?.` and `??`, which do not tell them apart. Numbers are
   * integers; no response field the client reads is fractional.
   */
  datatype Json =
    | Null
    | Bool(b: bool)
    | Num(n: int)
    | Str(s: string)
    | Arr(items: seq<Json>)
    | Obj(fields: map<string, Json>)

  /** `j?.[key]`: the field of an object, `undefined` for a missing key or a non-object. */
  function Field(j: Json, key: string): (r: Json)
    ensures r != Null ==> j.Obj? && key in j.fields && j.fields[key] == r
    ensures j.Obj? && key in j.fields ==> r == j.fields[key]
  {
    if j.Obj? && key in j.fields then j.fields[key] else Null
  }

  /** `j?.[k0]?.[k1]?...`: a path of field accesses. */
  function Path(j: Json, keys: seq<string>): (r: Json)
    decreases |keys|
    ensures |keys| > 0 && r != Null ==> j.Obj? && keys[0] in j.fields
    ensures j == Null ==> r == Null
    ensures |keys| == 0 ==> r == j
    ensures |keys| == 1 ==> r == Field(j, keys[0])
  {
    if |keys| == 0 then j else Path(Field(j, keys[0]), keys[1..])
  }

  /** `(j?.a)?.b` is `j?.a?.b`: a path can be followed in pieces. */
  lemma {:induction false} PathAppend(j: Json, a: seq<string>, b: seq<string>)
    decreases |a|
    ensures Path(j, a + b) == Path(Path(j, a), b)
  {
    if |a| == 0 {
      assert a + b == b;
    } else {
      assert (a + b)[0] == a[0];
      assert (a + b)[1..] == a[1..] + b;
      PathAppend(Field(j, a[0]), a[1..], b);
    }
  }

  /**
   * `c0 ?? c1 ?? ... ?? fallback`: the first candidate that is neither `null` nor
   * `undefined`, whatever its type, and `fallback` when every candidate is nullish.
   */
  function Coalesce(cands: seq<Json>, fallback: Json): (r: Json)
    ensures forall i :: 0 <= i < |cands| && cands[i] != Null && (forall k :: 0 <= k < i ==> cands[k] == Null)
              ==> r == cands[i]
    ensures (forall i :: 0 <= i < |cands| ==> cands[i] == Null) ==> r == fallback
  {
    if |cands| == 0 then fallback
    else if cands[0] != Null then cands[0]
    else Coalesce(cands[1..], fallback)
  }

  /**
   * JavaScript truthiness: `null`, `undefined`, `false`, `0` and `""` are falsy; every array
   * and object, even an empty one, is truthy.
   */
  function Truthy(j: Json): (r: bool)
    ensures j.Arr? || j.Obj? ==> r
    ensures j.Str? ==> (r <==> |j.s| > 0)
    ensures j.Null? ==> !r
    ensures j.Num? ==> (r <==> j.n != 0)
    ensures j.Bool? ==> r == j.b
  {
    match j
    case Null => false
    case Bool(b) => b
    case Num(n) => n != 0
    case Str(s) => s != ""
    case Arr(_) => true
    case Obj(_) => true
  }
}
