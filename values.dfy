/**
 * Dynamic (interface) values as the comparison engine sees them.
 *
 * Every operand of an assertion is a Go `interface{}`: a dynamic type plus a
 * value, or the nil interface. Reflection is replaced by a type tag that each
 * value carries, and the two tiers of `checkEqual` (native `==`, which may be
 * undefined for a shape, then `reflect.DeepEqual`) are functions on values.
 */
module GoValues {
  import opened Wrappers

  /** Integer kinds are distinct Go types even when they hold the same number. */
  datatype IntKind = Int | Int8 | Int16 | Int32 | Int64 | Uint | Uint8 | Uint16 | Uint32 | Uint64

  /** The dynamic type of a non-nil interface value. */
  datatype Type =
    | BoolType
    | IntType(kind: IntKind)
    | StringType
    | SliceType(elem: Type)
    | NamedType(name: string)  // a declared struct type: identical only to itself

  /** An interface value: the nil interface, or a value of some dynamic type. */
  datatype Value =
    | Nil
    | BoolVal(b: bool)
    | IntVal(kind: IntKind, n: int)
    | StrVal(s: string)
    | SliceVal(elem: Type, elems: seq<Value>)
    | StructVal(name: string, fields: seq<Value>)

  /** reflect.Typeof: the dynamic type, or None for the nil interface. */
  function TypeOf(v: Value): Option<Type>
  {
    match v
    case Nil => None
    case BoolVal(_) => Some(BoolType)
    case IntVal(k, _) => Some(IntType(k))
    case StrVal(_) => Some(StringType)
    case SliceVal(t, _) => Some(SliceType(t))
    case StructVal(name, _) => Some(NamedType(name))
  }

  /** The type-identity test `reflect.Typeof(a) == reflect.Typeof(b)`. */
  predicate SameType(a: Value, b: Value)
  {
    TypeOf(a) == TypeOf(b)
  }

  /**
   * Whether native `==` is defined on a value: slices are not comparable, and
   * neither is a struct that holds one.
   */
  predicate Comparable(v: Value)
  {
    match v
    case SliceVal(_, _) => false
    case StructVal(_, fields) => forall i | 0 <= i < |fields| :: Comparable(fields[i])
    case _ => true
  }

  /**
   * Native `a == b` on two interfaces: false when the dynamic types differ,
   * None (a run-time panic) when the shared type is not comparable.
   */
  function FastEqual(a: Value, b: Value): Option<bool>
  {
    if !SameType(a, b) then Some(false)
    else if Comparable(a) && Comparable(b) then Some(a == b)
    else None
  }

  /**
   * reflect.DeepEqual: identical types and element-wise deep equality of
   * slices and struct fields.
   */
  predicate DeepEqual(a: Value, b: Value)
  {
    SameType(a, b) &&
    match a
    case SliceVal(_, xs) =>
      b.SliceVal? && |xs| == |b.elems| && forall i | 0 <= i < |xs| :: DeepEqual(xs[i], b.elems[i])
    case StructVal(_, xs) =>
      b.StructVal? && |xs| == |b.fields| && forall i | 0 <= i < |xs| :: DeepEqual(xs[i], b.fields[i])
    case _ => a == b
  }

  /**
   * checkEqual: the fast comparison where it is defined, otherwise the deep
   * one; an undefined fast comparison never escapes.
   */
  predicate ValuesEqual(a: Value, b: Value)
  {
    match FastEqual(a, b)
    case Some(r) => r
    case None => DeepEqual(a, b)
  }

  /** Deep equality coincides with equality of values. */
  lemma {:induction false} DeepEqualIsIdentity(a: Value, b: Value)
    ensures DeepEqual(a, b) <==> a == b
    decreases a
  {
    match a
    case SliceVal(t, xs) =>
      if b.SliceVal? && |xs| == |b.elems| {
        forall i | 0 <= i < |xs|
          ensures DeepEqual(xs[i], b.elems[i]) <==> xs[i] == b.elems[i]
        {
          DeepEqualIsIdentity(xs[i], b.elems[i]);
        }
        if DeepEqual(a, b) {
          assert xs == b.elems;
        }
      }
    case StructVal(name, xs) =>
      if b.StructVal? && |xs| == |b.fields| {
        forall i | 0 <= i < |xs|
          ensures DeepEqual(xs[i], b.fields[i]) <==> xs[i] == b.fields[i]
        {
          DeepEqualIsIdentity(xs[i], b.fields[i]);
        }
        if DeepEqual(a, b) {
          assert xs == b.fields;
        }
      }
    case _ =>
  }

  /** Wherever native `==` is defined, the deep comparison agrees with it. */
  lemma FastAgreesWithDeep(a: Value, b: Value)
    requires FastEqual(a, b).Some?
    ensures FastEqual(a, b).value == DeepEqual(a, b)
  {
    DeepEqualIsIdentity(a, b);
  }

  /**
   * checkEqual is total and decides equality of values: both tiers give the
   * same verdict, so the fallback changes no answer, only avoids the panic.
   */
  lemma ValuesEqualIsIdentity(a: Value, b: Value)
    ensures ValuesEqual(a, b) <==> a == b
  {
    DeepEqualIsIdentity(a, b);
  }
}
