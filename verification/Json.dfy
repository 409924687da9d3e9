/** JSON documents as Python holds them after json.loads. */
module Json {
  import opened Prelude

  /** Objects are maps: Python's dict equality and lookups do not depend on key order.
      Int and Float are kept apart because the source asks isinstance(value, int). */
  datatype Json =
    | Null
    | Bool(b: bool)
    | Int(i: int)
    | Float(r: real)
    | Str(s: string)
    | Arr(items: seq<Json>)
    | Obj(fields: map<string, Json>)

  /** dict.get(key): a missing key reads as None. */
  function Get(fields: map<string, Json>, key: string): Json {
    if key in fields then fields[key] else Null
  }

  function Numeric(j: Json, boolsAreNumbers: bool): Option<real> {
    match j
    case Bool(b) => if boolsAreNumbers then Some(if b then 1.0 else 0.0) else None
    case Int(i) => Some(i as real)
    case Float(r) => Some(r)
    case _ => None
  }

  /** Equality of documents. With boolsAreNumbers it is Python's ==, where True == 1 == 1.0;
      without, it is JSON Schema's equality, where true and 1 differ. */
  predicate Equal(a: Json, b: Json, boolsAreNumbers: bool)
    decreases a
  {
    match a
    case Null => b.Null?
    case Str(s) => b.Str? && s == b.s
    case Arr(xs) =>
      && b.Arr? && |xs| == |b.items|
      && forall i :: 0 <= i < |xs| ==> Equal(xs[i], b.items[i], boolsAreNumbers)
    case Obj(m) =>
      && b.Obj? && m.Keys == b.fields.Keys
      && forall k :: k in m ==> Equal(m[k], b.fields[k], boolsAreNumbers)
    case _ =>
      if Numeric(a, boolsAreNumbers).Some? then Numeric(a, boolsAreNumbers) == Numeric(b, boolsAreNumbers)
      else a == b
  }

  lemma {:induction false} EqualReflexive(a: Json, boolsAreNumbers: bool)
    ensures Equal(a, a, boolsAreNumbers)
    decreases a
  {
    match a
    case Arr(xs) =>
      forall i | 0 <= i < |xs| ensures Equal(xs[i], xs[i], boolsAreNumbers) {
        EqualReflexive(xs[i], boolsAreNumbers);
      }
    case Obj(m) =>
      forall k | k in m ensures Equal(m[k], m[k], boolsAreNumbers) {
        EqualReflexive(m[k], boolsAreNumbers);
      }
    case _ =>
  }

  /** Numbers are equal by value, however written; truth values are the numbers 0 and 1 to Python, and no
      numbers to JSON Schema. */
  lemma NumbersCompare(i: int, r: real, b: bool, boolsAreNumbers: bool)
    ensures Equal(Int(i), Float(r), boolsAreNumbers) <==> i as real == r
    ensures Equal(Float(r), Int(i), boolsAreNumbers) <==> i as real == r
    ensures Equal(Bool(b), Int(i), boolsAreNumbers) <==> boolsAreNumbers && i == (if b then 1 else 0)
    ensures Equal(Int(i), Bool(b), boolsAreNumbers) <==> boolsAreNumbers && i == (if b then 1 else 0)
    ensures Equal(Bool(b), Float(r), boolsAreNumbers) <==> boolsAreNumbers && r == (if b then 1.0 else 0.0)
  {
  }
}
