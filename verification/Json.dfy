/** JSON values as Python holds them, and the equality the shadow code uses. */
module Json {
  /** A number remembers whether it is a float, and zero its sign: `1` and `1.0`, and `0.0` and `-0.0`,
      are equal and not identical. */
  datatype Value = Null | Bool(b: bool) | Number(value: real, float: bool, negativeZero: bool) | Str(s: string)
    | Arr(items: seq<Value>) | Obj(fields: map<string, Value>)

  type Fields = map<string, Value>

  /** Booleans never equal numbers. */
  predicate JsonEqual(a: Value, b: Value) {
    match (a, b)
    case (Null, Null) => true
    case (Bool(x), Bool(y)) => x == y
    case (Number(x, _, _), Number(y, _, _)) => x == y
    case (Str(x), Str(y)) => x == y
    case (Arr(x), Arr(y)) => |x| == |y| && forall i :: 0 <= i < |x| ==> JsonEqual(x[i], y[i])
    case (Obj(x), Obj(y)) => x.Keys == y.Keys && forall k :: k in x ==> JsonEqual(x[k], y[k])
    case _ => false
  }

  predicate FieldsEqual(x: Fields, y: Fields) {
    x.Keys == y.Keys && forall k :: k in x ==> JsonEqual(x[k], y[k])
  }

  lemma {:induction false} JsonEqualReflexive(v: Value)
    ensures JsonEqual(v, v)
  {
    match v
    case Arr(items) =>
      forall i | 0 <= i < |items| ensures JsonEqual(items[i], items[i]) { JsonEqualReflexive(items[i]); }
    case Obj(fields) =>
      forall k | k in fields ensures JsonEqual(fields[k], fields[k]) { JsonEqualReflexive(fields[k]); }
    case _ =>
  }

  /** Every number an integer. */
  predicate Integral(v: Value) {
    match v
    case Number(_, float, negativeZero) => !float && !negativeZero
    case Arr(items) => forall i :: 0 <= i < |items| ==> Integral(items[i])
    case Obj(fields) => forall k :: k in fields ==> Integral(fields[k])
    case _ => true
  }

  /** Among values without floats, equal is identical. */
  lemma {:induction false} EqualIsIdentical(a: Value, b: Value)
    requires JsonEqual(a, b) && Integral(a) && Integral(b)
    ensures a == b
  {
    match a
    case Arr(x) =>
      forall i | 0 <= i < |x| ensures x[i] == b.items[i] { EqualIsIdentical(x[i], b.items[i]); }
    case Obj(x) =>
      forall k | k in x ensures x[k] == b.fields[k] { EqualIsIdentical(x[k], b.fields[k]); }
    case _ =>
  }

  predicate NoNull(v: Value) {
    match v
    case Null => false
    case Arr(items) => forall i :: 0 <= i < |items| ==> NoNull(items[i])
    case Obj(fields) => forall k :: k in fields ==> NoNull(fields[k])
    case _ => true
  }

  /** No null under an array, also not in objects inside it. */
  predicate NoNullInArrays(v: Value) {
    match v
    case Arr(items) => forall i :: 0 <= i < |items| ==> NoNull(items[i])
    case Obj(fields) => forall k :: k in fields ==> NoNullInArrays(fields[k])
    case _ => true
  }

  /** No object outside an array is empty. */
  predicate Full(v: Value) {
    v.Obj? ==> v.fields != map[] && forall k :: k in v.fields ==> Full(v.fields[k])
  }

  /** What a stored object may contain: no null anywhere, no empty object outside arrays. */
  predicate Clean(fields: Fields) {
    forall k :: k in fields ==> NoNull(fields[k]) && Full(fields[k])
  }

  /** At most `n` levels of objects and arrays. */
  predicate Within(v: Value, n: nat) {
    match v
    case Arr(items) => n > 0 && forall i :: 0 <= i < |items| ==> Within(items[i], n - 1)
    case Obj(fields) => n > 0 && forall k :: k in fields ==> Within(fields[k], n - 1)
    case _ => true
  }
}
