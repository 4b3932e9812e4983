/**
 * The slice of JavaScript's value and object semantics that the picker's
 * state record, its actions and its props rely on.
 *
 * An object literal is a finite map from property names to values; reading a
 * property the object does not have yields `undefined`. Object spread
 * `{...a, ...b}` copies the own properties of `a`, then those of `b`, so a
 * key present in both takes `b`'s value.
 */
module Js {
  datatype Value =
    | Undefined
    | Null
    | Bool(b: bool)
    | Num(n: int)
    | Str(s: string)

  type Obj = map<string, Value>

  /** `o.key`: a property the object lacks reads as `undefined`. */
  function Get(o: Obj, key: string): Value {
    if key in o then o[key] else Undefined
  }

  /** JavaScript truthiness: `undefined`, `null`, `false`, `0` and `''` are falsy. */
  predicate Truthy(v: Value) {
    match v
    case Undefined => false
    case Null => false
    case Bool(b) => b
    case Num(n) => n != 0
    case Str(s) => s != ""
  }

  /** The logical-not operator `!v`, which always produces a boolean. */
  function Not(v: Value): (r: Value)
    ensures r.Bool? && (r.b <==> !Truthy(v))
    ensures v.Bool? ==> r == Bool(!v.b)
  {
    Bool(!Truthy(v))
  }

  /**
   * `after` is `{...before, ...over}`: it has the keys of both, the value of
   * `over` wherever `over` has the key, and the value of `before` elsewhere.
   */
  ghost predicate Merged(before: Obj, over: Obj, after: Obj) {
    && after.Keys == before.Keys + over.Keys
    && (forall k :: k in over ==> after[k] == over[k])
    && (forall k :: k in before && k !in over ==> after[k] == before[k])
  }

  /** `{...left, ...right}`. */
  function Spread(left: Obj, right: Obj): (r: Obj)
    ensures Merged(left, right, r)
  {
    left + right
  }

  /** Spreading the same object twice is the same as spreading it once. */
  lemma SpreadIdempotent(left: Obj, right: Obj)
    ensures Spread(Spread(left, right), right) == Spread(left, right)
  {
  }

  /** Two successive spreads fold into one spread of their merge. */
  lemma SpreadAssociative(a: Obj, b: Obj, c: Obj)
    ensures Spread(Spread(a, b), c) == Spread(a, Spread(b, c))
  {
  }

  /** Applying `!` twice gives back the truth value as a boolean. */
  lemma NotNot(v: Value)
    ensures Not(Not(v)) == Bool(Truthy(v))
    ensures v.Bool? ==> Not(Not(v)) == v
  {
  }
}
