/**
 * The free comparison operators and the hash of `cow::optional`
 * (include/cow/optional.h, "non-member functions").  They only look at
 * whether each side is engaged and, if both are, at the payloads, so they
 * are the same for both backing strategies.  Payloads are integers here,
 * compared with their own `==`, `<`, `<=`, ...
 */
module Relational {
  import opened Wrappers

  // ---------------------------------------------------------------------
  // holder against holder
  // ---------------------------------------------------------------------

  /** `lhs == rhs`: equal iff both disengaged or both engaged with equal payloads. */
  function Eq(lhs: Option<int>, rhs: Option<int>): (r: bool)
    ensures r <==> lhs == rhs
  {
    if lhs.Some? != rhs.Some? then false
    else if lhs.None? then true
    else lhs.value == rhs.value
  }

  /** `lhs != rhs`, written in the source with its own branches. */
  function Ne(lhs: Option<int>, rhs: Option<int>): (r: bool)
    ensures r == !Eq(lhs, rhs)
  {
    if lhs.Some? != rhs.Some? then true
    else if lhs.None? then false
    else lhs.value != rhs.value
  }

  /** `lhs < rhs`: a disengaged holder is below every engaged one. */
  function Lt(lhs: Option<int>, rhs: Option<int>): bool
  {
    if rhs.None? then false
    else if lhs.None? then true
    else lhs.value < rhs.value
  }

  /** `lhs > rhs`. */
  function Gt(lhs: Option<int>, rhs: Option<int>): (r: bool)
    ensures r == Lt(rhs, lhs)
  {
    if lhs.None? then false
    else if rhs.None? then true
    else lhs.value > rhs.value
  }

  /** `lhs <= rhs`. */
  function Le(lhs: Option<int>, rhs: Option<int>): (r: bool)
    ensures r == (Lt(lhs, rhs) || Eq(lhs, rhs))
    ensures r == !Lt(rhs, lhs)
  {
    if lhs.None? then true
    else if rhs.None? then false
    else lhs.value <= rhs.value
  }

  /** `lhs >= rhs`. */
  function Ge(lhs: Option<int>, rhs: Option<int>): (r: bool)
    ensures r == !Lt(lhs, rhs)
    ensures r == Le(rhs, lhs)
  {
    if rhs.None? then true
    else if lhs.None? then false
    else lhs.value >= rhs.value
  }

  /** Two engaged holders compare exactly as their payloads do. */
  lemma EngagedCompareAsPayloads(a: int, b: int)
    ensures Eq(Some(a), Some(b)) == (a == b) && Ne(Some(a), Some(b)) == (a != b)
    ensures Lt(Some(a), Some(b)) == (a < b) && Gt(Some(a), Some(b)) == (a > b)
    ensures Le(Some(a), Some(b)) == (a <= b) && Ge(Some(a), Some(b)) == (a >= b)
  {
  }

  /** The disengaged holder is the least element, and two disengaged holders are equal. */
  lemma DisengagedIsLeast(h: Option<int>)
    ensures Le(None, h) && Ge(h, None) && !Lt(h, None)
    ensures h.Some? ==> Lt(None, h) && Gt(h, None) && Ne(None, h)
    ensures Eq(None, None)
  {
  }

  /** `<` is a strict total order on holders. */
  lemma LtIsStrictTotalOrder(a: Option<int>, b: Option<int>, c: Option<int>)
    ensures !Lt(a, a)
    ensures Lt(a, b) ==> !Lt(b, a)
    ensures Lt(a, b) && Lt(b, c) ==> Lt(a, c)
    ensures Lt(a, b) || Eq(a, b) || Lt(b, a)
  {
  }

  /** `<=` is a total order on holders. */
  lemma LeIsTotalOrder(a: Option<int>, b: Option<int>, c: Option<int>)
    ensures Le(a, a)
    ensures Le(a, b) && Le(b, a) ==> a == b
    ensures Le(a, b) && Le(b, c) ==> Le(a, c)
    ensures Le(a, b) || Le(b, a)
  {
  }

  // ---------------------------------------------------------------------
  // holder against nullopt
  // ---------------------------------------------------------------------

  /** `lhs == nullopt` */
  function EqNull(lhs: Option<int>): (r: bool)
    ensures r == Eq(lhs, None)
  {
    !lhs.Some?
  }

  /** `nullopt == rhs` */
  function NullEq(rhs: Option<int>): (r: bool)
    ensures r == Eq(None, rhs)
  {
    !rhs.Some?
  }

  /** `lhs != nullopt` */
  function NeNull(lhs: Option<int>): (r: bool)
    ensures r == Ne(lhs, None)
  {
    lhs.Some?
  }

  /** `nullopt != rhs` */
  function NullNe(rhs: Option<int>): (r: bool)
    ensures r == Ne(None, rhs)
  {
    rhs.Some?
  }

  /** `lhs < nullopt` */
  function LtNull(lhs: Option<int>): (r: bool)
    ensures r == Lt(lhs, None)
  {
    false
  }

  /** `nullopt < rhs` */
  function NullLt(rhs: Option<int>): (r: bool)
    ensures r == Lt(None, rhs)
  {
    rhs.Some?
  }

  /** `lhs <= nullopt` */
  function LeNull(lhs: Option<int>): (r: bool)
    ensures r == Le(lhs, None)
  {
    !lhs.Some?
  }

  /** `nullopt <= rhs` */
  function NullLe(rhs: Option<int>): (r: bool)
    ensures r == Le(None, rhs)
  {
    true
  }

  /** `lhs > nullopt` */
  function GtNull(lhs: Option<int>): (r: bool)
    ensures r == Gt(lhs, None)
  {
    lhs.Some?
  }

  /** `nullopt > rhs` */
  function NullGt(rhs: Option<int>): (r: bool)
    ensures r == Gt(None, rhs)
  {
    false
  }

  /** `lhs >= nullopt` */
  function GeNull(lhs: Option<int>): (r: bool)
    ensures r == Ge(lhs, None)
  {
    true
  }

  /** `nullopt >= rhs` */
  function NullGe(rhs: Option<int>): (r: bool)
    ensures r == Ge(None, rhs)
  {
    !rhs.Some?
  }

  /** `nullopt` behaves as the least holder: `h == nullopt` iff `!h`, and `nullopt <= h` always. */
  lemma NulloptIsLeast(h: Option<int>)
    ensures EqNull(h) <==> h.None?
    ensures NullEq(h) <==> h.None?
    ensures NeNull(h) <==> h.Some?
    ensures NullNe(h) <==> h.Some?
    ensures NullLe(h) && GeNull(h) && !LtNull(h) && !NullGt(h)
    ensures NullLt(h) <==> h.Some?
    ensures GtNull(h) <==> h.Some?
    ensures LeNull(h) <==> h.None?
    ensures NullGe(h) <==> h.None?
  {
  }

  // ---------------------------------------------------------------------
  // holder against a bare value
  // ---------------------------------------------------------------------

  /** `lhs == v` */
  function EqValue(lhs: Option<int>, v: int): (r: bool)
    ensures r == Eq(lhs, Some(v))
  {
    if lhs.Some? then lhs.value == v else false
  }

  /** `v == rhs` */
  function ValueEq(v: int, rhs: Option<int>): (r: bool)
    ensures r == Eq(Some(v), rhs)
  {
    if rhs.Some? then v == rhs.value else false
  }

  /** `lhs != v` */
  function NeValue(lhs: Option<int>, v: int): (r: bool)
    ensures r == Ne(lhs, Some(v))
  {
    if lhs.Some? then lhs.value != v else true
  }

  /** `v != rhs` */
  function ValueNe(v: int, rhs: Option<int>): (r: bool)
    ensures r == Ne(Some(v), rhs)
  {
    if rhs.Some? then v != rhs.value else true
  }

  /** `lhs < v`: true whenever `lhs` is disengaged. */
  function LtValue(lhs: Option<int>, v: int): (r: bool)
    ensures r == Lt(lhs, Some(v))
  {
    if lhs.Some? then lhs.value < v else true
  }

  /** `v < rhs` */
  function ValueLt(v: int, rhs: Option<int>): (r: bool)
    ensures r == Lt(Some(v), rhs)
  {
    if rhs.Some? then v < rhs.value else false
  }

  /** `lhs <= v` */
  function LeValue(lhs: Option<int>, v: int): (r: bool)
    ensures r == Le(lhs, Some(v))
  {
    if lhs.Some? then lhs.value <= v else true
  }

  /** `v <= rhs` */
  function ValueLe(v: int, rhs: Option<int>): (r: bool)
    ensures r == Le(Some(v), rhs)
  {
    if rhs.Some? then v <= rhs.value else false
  }

  /** `lhs > v` */
  function GtValue(lhs: Option<int>, v: int): (r: bool)
    ensures r == Gt(lhs, Some(v))
  {
    if lhs.Some? then lhs.value > v else false
  }

  /** `v > rhs` */
  function ValueGt(v: int, rhs: Option<int>): (r: bool)
    ensures r == Gt(Some(v), rhs)
  {
    if rhs.Some? then v > rhs.value else true
  }

  /** `lhs >= v` */
  function GeValue(lhs: Option<int>, v: int): (r: bool)
    ensures r == Ge(lhs, Some(v))
  {
    if lhs.Some? then lhs.value >= v else false
  }

  /** `v >= rhs` */
  function ValueGe(v: int, rhs: Option<int>): (r: bool)
    ensures r == Ge(Some(v), rhs)
  {
    if rhs.Some? then v >= rhs.value else true
  }

  /** A disengaged holder is below every value; an engaged one compares with a value as its payload does. */
  lemma ValueComparisons(h: Option<int>, v: int)
    ensures h.None? ==> LtValue(h, v) && LeValue(h, v) && !EqValue(h, v) && NeValue(h, v)
    ensures h.None? ==> ValueGt(v, h) && ValueGe(v, h) && !ValueLt(v, h) && !ValueLe(v, h)
    ensures h.Some? ==> (LtValue(h, v) <==> h.value < v) && (EqValue(h, v) <==> h.value == v)
    ensures h.Some? ==> (ValueLt(v, h) <==> v < h.value) && (GeValue(h, v) <==> h.value >= v)
  {
  }

  // ---------------------------------------------------------------------
  // std::hash
  // ---------------------------------------------------------------------

  /**
   * `std::hash<cow::optional<T>>`: 0 for a disengaged holder, otherwise the
   * payload type's own hash (`hashOf`) of the payload.
   */
  function Hash<T>(o: Option<T>, hashOf: T -> nat): nat
  {
    if o.Some? then hashOf(o.value) else 0
  }

  /** The hash of a disengaged holder is 0 and that of an engaged one is its payload's hash. */
  lemma HashContract<T>(o: Option<T>, hashOf: T -> nat)
    ensures o.None? ==> Hash(o, hashOf) == 0
    ensures o.Some? ==> Hash(o, hashOf) == hashOf(o.value)
  {
  }

  /** Holders that compare equal hash equally, as `std::hash` requires. */
  lemma HashRespectsEquality(a: Option<int>, b: Option<int>, hashOf: int -> nat)
    ensures Eq(a, b) ==> Hash(a, hashOf) == Hash(b, hashOf)
  {
  }
}
