/**
 * The inline-backing variant `optional<T, true>` (include/cow/optional.h).
 * It keeps its payload in a library `std::optional<T>` and forwards every
 * operation to it, so a holder is a plain `Option<T>` value: copying it
 * copies the payload, and nothing is ever shared.  These functions are
 * also the reference the shared variant is proved against.
 */
module InlineOptional {
  import opened Wrappers

  /** `optional()`, `optional(nullopt)`, `reset()` and `operator=(nullopt)`: disengaged. */
  function Disengaged<T>(): (r: Option<T>)
    ensures Value(r) == Failure(BadOptionalAccess)
  {
    None
  }

  /** `optional(in_place, args...)`, `optional(U&&)`, `make_optional`: engaged with `x`. */
  function Make<T>(x: T): (r: Option<T>)
    ensures Value(r) == Success(x)
  {
    Some(x)
  }

  /** `operator=(U&&)`: engaged with `x`, whatever the holder held before. */
  function Assign<T>(o: Option<T>, x: T): (r: Option<T>)
    ensures Value(r) == Success(x)
  {
    Some(x)
  }

  /**
   * Construction or assignment from a holder of another value type: the
   * source's payload, converted by `convert`, or disengaged.
   */
  function Convert<T>(o: Option<T>, convert: T -> T): (r: Option<T>)
    ensures r.Some? <==> o.Some?
    ensures o.Some? ==> r.value == convert(o.value)
  {
    match o
    case None => None
    case Some(x) => Some(convert(x))
  }

  /** `swap`: the two holders exchange their contents. */
  function Swap<T>(a: Option<T>, b: Option<T>): (Option<T>, Option<T>)
  {
    (b, a)
  }

  /** `value()`: the payload, or `bad_optional_access` exactly when disengaged. */
  function Value<T>(o: Option<T>): (r: Result<T>)
    ensures r.Failure? <==> o.None?
    ensures r.Success? ==> o == Some(r.value)
  {
    match o
    case None => Failure(BadOptionalAccess)
    case Some(x) => Success(x)
  }

  /** `value_or(d)`: the default exactly when disengaged, otherwise the payload. */
  function ValueOr<T>(o: Option<T>, d: T): (r: T)
    ensures o.None? ==> r == d
    ensures o.Some? ==> r == o.value
  {
    match o
    case None => d
    case Some(x) => x
  }

  /** Swapping twice restores both holders. */
  lemma SwapInvolutive<T>(a: Option<T>, b: Option<T>)
    ensures Swap(Swap(a, b).0, Swap(a, b).1) == (a, b)
  {
  }

  /** `make_optional(v).value() == v`, and a default-constructed holder yields the default. */
  lemma MakeRoundTrip<T>(x: T, d: T)
    ensures Value(Make(x)) == Success(x)
    ensures ValueOr(Disengaged(), d) == d
  {
  }
}
