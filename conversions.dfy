/**
 * The conversion and assignment rules of `cow::optional`
 * (include/cow/optional.h, namespace `optional_detail`, and the guards of
 * the converting constructors and assignments).  In C++ they are formulas
 * over compile-time type queries; every primitive query
 * (`is_constructible`, `is_convertible`, `is_assignable`, `is_same`,
 * `is_scalar`, `is_convertible<U*, T*>`) is a boolean input here, and only
 * the way the source combines them is modelled.
 */
module Conversions {

  // ---------------------------------------------------------------------
  // direct_conversation: constructing optional<T> from a bare U
  // ---------------------------------------------------------------------

  /** The primitive queries about a bare source value `U&&` and the target value type `T`. */
  datatype ValueQueries = ValueQueries(
    constructible: bool,   // is_constructible<T, U&&>
    convertible: bool,     // is_convertible<U&&, T>
    isInPlaceTag: bool,    // decay_t<U> is in_place_t
    isSameOptional: bool)  // decay_t<U> is the target optional itself

  /** `direct_conversation::allow` */
  function DirectAllow(q: ValueQueries): bool
  {
    q.constructible && !q.isInPlaceTag && !q.isSameOptional
  }

  /** `direct_conversation::allow_implicit` */
  function DirectAllowImplicit(q: ValueQueries): (r: bool)
    ensures r ==> DirectAllow(q) && q.convertible
  {
    q.convertible && DirectAllow(q)
  }

  /** `direct_conversation::allow_explicit` */
  function DirectAllowExplicit(q: ValueQueries): (r: bool)
    ensures r ==> DirectAllow(q) && !q.convertible
  {
    !q.convertible && DirectAllow(q)
  }

  /** Exactly one of the implicit and explicit value constructors takes part when the conversion is allowed. */
  lemma DirectImplicitXorExplicit(q: ValueQueries)
    ensures !(DirectAllowImplicit(q) && DirectAllowExplicit(q))
    ensures (DirectAllowImplicit(q) || DirectAllowExplicit(q)) == DirectAllow(q)
  {
  }

  // ---------------------------------------------------------------------
  // unwrapping and assing_unwrapping: optional<T> from optional<U>
  // ---------------------------------------------------------------------

  /** The four reference kinds under which the whole source holder is queried. */
  datatype RefKind = Lvalue | Rvalue | ConstLvalue | ConstRvalue

  /** The primitive queries about target value type `T` and a source holder over `U`. */
  datatype UnwrapQueries = UnwrapQueries(
    constructibleFromHolder: set<RefKind>,  // kinds K with is_constructible<T, FromOptional K>
    convertibleFromHolder: set<RefKind>,    // kinds K with is_convertible<FromOptional K, T>
    assignableFromHolder: set<RefKind>,     // kinds K with is_assignable<T&, FromOptional K>
    constructibleFromConstRef: bool,        // is_constructible<T, const U&>
    convertibleFromConstRef: bool,          // is_convertible<const U&, T>
    assignableFromConstRef: bool,           // is_assignable<T&, const U&>
    constructibleFromRvalue: bool,          // is_constructible<T, U&&>, the same as is_constructible<T, U>
    convertibleFromRvalue: bool,            // is_convertible<U&&, T>
    assignableFromRvalue: bool)             // is_assignable<T&, U>

  /** `unwrapping::allow`: `T` is neither constructible nor convertible from the whole holder. */
  function UnwrapAllow(q: UnwrapQueries): bool
  {
    q.constructibleFromHolder == {} && q.convertibleFromHolder == {}
  }

  /** `unwrapping::allow_copy` */
  function UnwrapAllowCopy(q: UnwrapQueries): (r: bool)
    ensures r ==> UnwrapAllow(q) && q.constructibleFromConstRef
  {
    q.constructibleFromConstRef && UnwrapAllow(q)
  }

  /** `unwrapping::allow_copy_implicit` */
  function UnwrapAllowCopyImplicit(q: UnwrapQueries): bool
  {
    q.convertibleFromConstRef && UnwrapAllowCopy(q)
  }

  /** `unwrapping::allow_copy_explicit` */
  function UnwrapAllowCopyExplicit(q: UnwrapQueries): bool
  {
    !q.convertibleFromConstRef && UnwrapAllowCopy(q)
  }

  /** `unwrapping::allow_move` */
  function UnwrapAllowMove(q: UnwrapQueries): (r: bool)
    ensures r ==> UnwrapAllow(q) && q.constructibleFromRvalue
  {
    q.constructibleFromRvalue && UnwrapAllow(q)
  }

  /** `unwrapping::allow_move_implicit` */
  function UnwrapAllowMoveImplicit(q: UnwrapQueries): bool
  {
    q.convertibleFromRvalue && UnwrapAllowMove(q)
  }

  /** `unwrapping::allow_move_explicit` */
  function UnwrapAllowMoveExplicit(q: UnwrapQueries): bool
  {
    !q.convertibleFromRvalue && UnwrapAllowMove(q)
  }

  /** The implicit and explicit copy (and move) forms are exclusive and together cover the allowed case. */
  lemma UnwrapImplicitXorExplicit(q: UnwrapQueries)
    ensures !(UnwrapAllowCopyImplicit(q) && UnwrapAllowCopyExplicit(q))
    ensures (UnwrapAllowCopyImplicit(q) || UnwrapAllowCopyExplicit(q)) == UnwrapAllowCopy(q)
    ensures !(UnwrapAllowMoveImplicit(q) && UnwrapAllowMoveExplicit(q))
    ensures (UnwrapAllowMoveImplicit(q) || UnwrapAllowMoveExplicit(q)) == UnwrapAllowMove(q)
  {
  }

  /** Unwrapping is refused as soon as `T` can be built from the holder under any reference kind. */
  lemma UnwrapRefusedByHolderConstruction(q: UnwrapQueries, k: RefKind)
    requires k in q.constructibleFromHolder || k in q.convertibleFromHolder
    ensures !UnwrapAllow(q) && !UnwrapAllowCopy(q) && !UnwrapAllowMove(q)
  {
  }

  /** `assing_unwrapping::allow`: unwrapping, and `T` is not assignable from the whole holder either. */
  function AssignUnwrapAllow(q: UnwrapQueries): (r: bool)
    ensures r ==> UnwrapAllow(q)
  {
    UnwrapAllow(q) && q.assignableFromHolder == {}
  }

  /** `assing_unwrapping::allow_copy` */
  function AssignUnwrapAllowCopy(q: UnwrapQueries): (r: bool)
    ensures r ==> UnwrapAllowCopy(q) && q.assignableFromConstRef
  {
    q.constructibleFromConstRef && q.assignableFromConstRef && AssignUnwrapAllow(q)
  }

  /** `assing_unwrapping::allow_move` */
  function AssignUnwrapAllowMove(q: UnwrapQueries): (r: bool)
    ensures r ==> UnwrapAllowMove(q) && q.assignableFromRvalue
  {
    q.constructibleFromRvalue && q.assignableFromRvalue && AssignUnwrapAllow(q)
  }

  // ---------------------------------------------------------------------
  // assign_direct_conversation: optional<T> = U
  // ---------------------------------------------------------------------

  /** The primitive queries for assigning a bare `U` to a holder over `T`. */
  datatype AssignQueries = AssignQueries(
    isSameOptional: bool,      // decay_t<U> is the target optional itself
    targetIsScalar: bool,      // is_scalar<T>
    sourceIsTarget: bool,      // decay_t<U> is T
    constructible: bool,       // is_constructible<T, U>
    assignable: bool)          // is_assignable<T&, U>

  /**
   * `assign_direct_conversation::allow`.  A scalar assigned from its own
   * type is excluded: it goes through the implicit constructor and the
   * holder's own assignment instead.
   */
  function AssignDirectAllow(q: AssignQueries): (r: bool)
    ensures r ==> q.constructible && q.assignable && !q.isSameOptional
    ensures q.targetIsScalar && q.sourceIsTarget ==> !r
  {
    !q.isSameOptional
    && !(q.targetIsScalar && q.sourceIsTarget)
    && q.constructible
    && q.assignable
  }

  // ---------------------------------------------------------------------
  // which converting overload a holder picks
  // ---------------------------------------------------------------------

  /**
   * A converting constructor of a holder from another holder: none takes
   * part, or one that aliases the source's cell (copy-on-write preserved,
   * implicit, no payload copied), or one that builds a new payload from the
   * source's, implicitly or only on explicit request.
   */
  datatype CtorOverload = NoCtor | AliasingCtor | CopyingCtor(isExplicit: bool)

  /** An assignment from another holder: none, one that aliases the source's cell, or one that assigns its value. */
  datatype AssignOverload = NoAssign | AliasingAssign | ValueAssign

  /** `optional<T, false>(const optional<U, false>&)`: aliasing iff `U*` converts to `T*`; the copying form is explicit. */
  function SharedFromSharedCopy(pointerConvertible: bool, q: UnwrapQueries): (r: CtorOverload)
    ensures r != NoCtor <==> UnwrapAllowCopy(q)
    ensures r == AliasingCtor <==> pointerConvertible && UnwrapAllowCopy(q)
    ensures r.CopyingCtor? ==> r.isExplicit
  {
    if !UnwrapAllowCopy(q) then NoCtor
    else if pointerConvertible then AliasingCtor
    else CopyingCtor(true)
  }

  /**
   * `optional<T, false>(optional<U, false>&&)`: the aliasing form needs
   * only `U*` to convert to `T*`, not `unwrapping::allow_move`.
   */
  function SharedFromSharedMove(pointerConvertible: bool, q: UnwrapQueries): (r: CtorOverload)
    ensures r != NoCtor <==> pointerConvertible || UnwrapAllowMove(q)
    ensures r == AliasingCtor <==> pointerConvertible
    ensures r.CopyingCtor? ==> r.isExplicit
  {
    if pointerConvertible then AliasingCtor
    else if UnwrapAllowMove(q) then CopyingCtor(true)
    else NoCtor
  }

  /** `optional<T, false>` from an inline holder `optional<U, true>`: always an explicit copy. */
  function SharedFromInline(fromRvalue: bool, q: UnwrapQueries): (r: CtorOverload)
    ensures r != NoCtor <==> (if fromRvalue then UnwrapAllowMove(q) else UnwrapAllowCopy(q))
    ensures r != NoCtor ==> r == CopyingCtor(true)
  {
    if (if fromRvalue then UnwrapAllowMove(q) else UnwrapAllowCopy(q)) then CopyingCtor(true) else NoCtor
  }

  /**
   * `optional<T, true>` from any holder over `U`: always a copy, implicit
   * exactly when `U` converts implicitly to `T`.
   */
  function InlineFromAny(fromRvalue: bool, q: UnwrapQueries): (r: CtorOverload)
    ensures r != NoCtor <==> (if fromRvalue then UnwrapAllowMove(q) else UnwrapAllowCopy(q))
    ensures r.CopyingCtor? ==> r.isExplicit == !(if fromRvalue then q.convertibleFromRvalue else q.convertibleFromConstRef)
    ensures r != AliasingCtor
  {
    if fromRvalue then
      if UnwrapAllowMoveImplicit(q) then CopyingCtor(false)
      else if UnwrapAllowMoveExplicit(q) then CopyingCtor(true)
      else NoCtor
    else
      if UnwrapAllowCopyImplicit(q) then CopyingCtor(false)
      else if UnwrapAllowCopyExplicit(q) then CopyingCtor(true)
      else NoCtor
  }

  /** `optional<T, false>::operator=(const optional<U, false>&)` and its rvalue form. */
  function SharedAssignFromShared(fromRvalue: bool, pointerConvertible: bool, q: UnwrapQueries): (r: AssignOverload)
    ensures r != NoAssign <==> (if fromRvalue then AssignUnwrapAllowMove(q) else AssignUnwrapAllowCopy(q))
    ensures r != NoAssign ==> (r == AliasingAssign <==> pointerConvertible)
  {
    if !(if fromRvalue then AssignUnwrapAllowMove(q) else AssignUnwrapAllowCopy(q)) then NoAssign
    else if pointerConvertible then AliasingAssign
    else ValueAssign
  }

  /** Assignment of a holder from a holder of the other strategy, or of an inline holder from an inline one: a value assignment. */
  function AssignAcrossOrInline(fromRvalue: bool, q: UnwrapQueries): (r: AssignOverload)
    ensures r != NoAssign <==> (if fromRvalue then AssignUnwrapAllowMove(q) else AssignUnwrapAllowCopy(q))
    ensures r != AliasingAssign
  {
    if (if fromRvalue then AssignUnwrapAllowMove(q) else AssignUnwrapAllowCopy(q)) then ValueAssign else NoAssign
  }
}
