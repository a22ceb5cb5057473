/**
 * The inline-storage selection policy of `cow::optional`
 * (include/cow/optional.h, `allow_inplace_placement`, `use_inline_storage`,
 * `use_inline_storage_v`).  In C++ these are compile-time traits; here a
 * value type is described by its shape and the traits become functions.
 */
module Placement {

  /** Pointer width of the target in bytes (a 64-bit platform). */
  const PointerSize: nat := 8

  /** `sizeof(std::shared_ptr<T>)`: a stored pointer and a control-block pointer. */
  const SharedPtrSize: nat := 2 * PointerSize

  /**
   * The shape of a value type, as far as the policy looks at it.
   * `Plain` is any type without a specialisation of its own, described by
   * its size and the two primitive triviality queries.  The size of a tuple
   * or pair depends on the compiler's layout and is given with it.
   */
  datatype TypeShape =
    | Plain(size: nat, trivialCopyCtor: bool, trivialCopyAssign: bool)
    | SharedPtr
    | WeakPtr
    | ExceptionPtr
    | Tuple(members: seq<TypeShape>, tupleSize: nat)
    | Pair(first: TypeShape, second: TypeShape, pairSize: nat)
    | Array(elem: TypeShape, count: nat)

  /** `sizeof(T)`; an empty `std::array` still occupies one byte. */
  function SizeOf(t: TypeShape): nat
  {
    match t
    case Plain(size, _, _) => size
    case SharedPtr => SharedPtrSize
    case WeakPtr => SharedPtrSize
    case ExceptionPtr => PointerSize
    case Tuple(_, size) => size
    case Pair(_, _, size) => size
    case Array(elem, n) => if n == 0 then 1 else n * SizeOf(elem)
  }

  /** `allow_inplace_placement<T>::value`, one case per specialisation. */
  function AllowInplacePlacement(t: TypeShape): bool
    decreases t, 1
  {
    match t
    case Plain(_, ctor, assign) => ctor && assign
    case SharedPtr => true
    case WeakPtr => true
    case ExceptionPtr => true
    case Tuple(ms, _) => AllAllowed(ms)
    case Pair(f, s, _) => AllowInplacePlacement(f) && AllowInplacePlacement(s)
    case Array(e, _) => AllowInplacePlacement(e)
  }

  /** `std::conjunction<allow_inplace_placement<Ts>...>` over the members of a tuple. */
  function AllAllowed(ms: seq<TypeShape>): bool
    decreases ms, 0
  {
    if ms == [] then true
    else AllowInplacePlacement(ms[0]) && AllAllowed(ms[1..])
  }

  /**
   * `use_inline_storage<T, MaxInlineStorageSize>::value`.  Without a
   * library `std::optional` (`libraryHasOptional` false) the trait is
   * always false, so every holder uses shared storage.
   */
  function UseInlineStorage(t: TypeShape, maxInlineStorageSize: nat, libraryHasOptional: bool): (r: bool)
    ensures r <==> libraryHasOptional && AllowInplacePlacement(t) && SizeOf(t) <= maxInlineStorageSize
  {
    if libraryHasOptional then AllowInplacePlacement(t) && SizeOf(t) <= maxInlineStorageSize
    else false
  }

  /** `use_inline_storage_v<T>`: the bound defaults to `sizeof(std::shared_ptr<T>)`. */
  function UseInlineStorageDefault(t: TypeShape, libraryHasOptional: bool): bool
  {
    UseInlineStorage(t, SharedPtrSize, libraryHasOptional)
  }

  /** The conjunction over a member list holds iff every member is allowed. */
  lemma {:induction false} AllAllowedIff(ms: seq<TypeShape>)
    ensures AllAllowed(ms) <==> forall i :: 0 <= i < |ms| ==> AllowInplacePlacement(ms[i])
  {
    if ms != [] {
      AllAllowedIff(ms[1..]);
      assert forall i :: 1 <= i < |ms| ==> ms[i] == ms[1..][i - 1];
    }
  }

  /** Tuples, pairs and arrays are allowed exactly when all their parts are. */
  lemma AggregatesAllowedIffPartsAllowed(ms: seq<TypeShape>, size: nat, f: TypeShape, s: TypeShape, e: TypeShape, n: nat)
    ensures AllowInplacePlacement(Tuple(ms, size)) <==> forall i :: 0 <= i < |ms| ==> AllowInplacePlacement(ms[i])
    ensures AllowInplacePlacement(Pair(f, s, size)) <==> AllowInplacePlacement(f) && AllowInplacePlacement(s)
    ensures AllowInplacePlacement(Array(e, n)) <==> AllowInplacePlacement(e)
  {
    AllAllowedIff(ms);
  }

  /** The reference-counted handle types are always allowed, whatever they point to. */
  lemma HandlesAlwaysAllowed()
    ensures AllowInplacePlacement(SharedPtr) && AllowInplacePlacement(WeakPtr) && AllowInplacePlacement(ExceptionPtr)
    ensures UseInlineStorageDefault(SharedPtr, true) && UseInlineStorageDefault(WeakPtr, true)
  {
  }

  /** A plain type is allowed iff it is trivially copy-constructible and trivially copy-assignable. */
  lemma PlainAllowedIffTrivial(size: nat, ctor: bool, assign: bool)
    ensures AllowInplacePlacement(Plain(size, ctor, assign)) <==> ctor && assign
  {
  }

  /** Raising the size bound never turns inline storage off. */
  lemma UseInlineStorageMonotone(t: TypeShape, b1: nat, b2: nat, lib: bool)
    requires b1 <= b2
    ensures UseInlineStorage(t, b1, lib) ==> UseInlineStorage(t, b2, lib)
  {
  }

  /**
   * The cases the repository's tests check, with `char` a one-byte trivial
   * type, `char&` a trivially copyable reference and `tracker` a type with
   * user-defined copy operations (of some size `trackerSize`).
   */
  lemma {:induction false} TestedSelections(trackerSize: nat)
    ensures UseInlineStorageDefault(Plain(1, true, true), true)
    ensures !UseInlineStorageDefault(Plain(trackerSize, false, false), true)
    ensures !UseInlineStorageDefault(Array(Plain(1, true, true), 1024), true)
    ensures UseInlineStorageDefault(SharedPtr, true)
    ensures UseInlineStorageDefault(Tuple([Plain(1, true, true), Plain(1, true, true)], 2), true)
    ensures !UseInlineStorageDefault(Tuple([Plain(1, true, true), Plain(trackerSize, false, false)], trackerSize + 1), true)
    ensures !UseInlineStorageDefault(Tuple([Plain(1, true, true), Array(Plain(1, true, true), 1024)], 1025), true)
    ensures UseInlineStorageDefault(Tuple([SharedPtr], SharedPtrSize), true)
    ensures UseInlineStorageDefault(Tuple([Plain(PointerSize, true, true)], PointerSize), true)
  {
    AllAllowedIff([Plain(1, true, true), Plain(1, true, true)]);
    AllAllowedIff([Plain(1, true, true), Plain(trackerSize, false, false)]);
    AllAllowedIff([SharedPtr]);
    AllAllowedIff([Plain(PointerSize, true, true)]);
  }
}
