/**
 * The shared-backing variant `optional<T, false>` (include/cow/optional.h)
 * as a state machine over an explicit store.  Every holder's only field is
 * `data_`, a `shared_ptr` to a reference-counted cell or null.  The store
 * keeps the cells (payload and sharer count) and, for every holder, the
 * cell its `data_` points at.  A cell whose count drops to zero is
 * destroyed (removed); allocation takes the fresh identifier `next`.
 *
 * The transition functions here specify the methods of
 * `SharedOptional.Store`; the lemmas prove the copy-on-write properties and
 * that every operation is observed exactly as the inline variant
 * (`InlineOptional`) would behave.
 */
module SharedState {
  import opened Wrappers
  import InlineOptional

  type CellId = nat
  type HolderId = nat

  /** A reference-counted cell: the payload and its `use_count()`. */
  datatype Cell<T> = Cell(payload: T, useCount: nat)

  /** The cells alive, the cell each holder refers to (`None` is a null `data_`), the next fresh cell. */
  datatype State<T> = State(cells: map<CellId, Cell<T>>, holders: seq<Option<CellId>>, next: CellId)

  /** How many holders refer to cell `c`. */
  function Count(hs: seq<Option<CellId>>, c: CellId): nat
  {
    if hs == [] then 0
    else Count(hs[..|hs| - 1], c) + (if hs[|hs| - 1] == Some(c) then 1 else 0)
  }

  /**
   * The store invariant: every holder refers to a live cell, every live cell
   * is referred to by exactly `useCount` holders (at least one), and the
   * fresh identifier is above every live cell.
   */
  predicate Valid<T>(s: State<T>)
  {
    && (forall i :: 0 <= i < |s.holders| && s.holders[i].Some? ==> s.holders[i].value in s.cells)
    && (forall c :: c in s.cells ==> c < s.next && 1 <= s.cells[c].useCount && s.cells[c].useCount == Count(s.holders, c))
  }

  // ---------------------------------------------------------------------
  // counting references
  // ---------------------------------------------------------------------

  function Ind(o: Option<CellId>, c: CellId): nat
  {
    if o == Some(c) then 1 else 0
  }

  lemma CountAppend(hs: seq<Option<CellId>>, x: Option<CellId>)
    ensures forall c :: Count(hs + [x], c) == Count(hs, c) + Ind(x, c)
  {
    assert (hs + [x])[..|hs|] == hs;
  }

  lemma {:induction false} CountUpdateAt(hs: seq<Option<CellId>>, i: nat, v: Option<CellId>, c: CellId)
    requires i < |hs|
    ensures Count(hs[i := v], c) == Count(hs, c) - Ind(hs[i], c) + Ind(v, c)
  {
    var n := |hs|;
    if i == n - 1 {
      assert hs[i := v][..n - 1] == hs[..n - 1];
    } else {
      assert hs[i := v][..n - 1] == hs[..n - 1][i := v];
      CountUpdateAt(hs[..n - 1], i, v, c);
    }
  }

  lemma CountUpdate(hs: seq<Option<CellId>>, i: nat, v: Option<CellId>)
    requires i < |hs|
    ensures forall c :: Count(hs[i := v], c) == Count(hs, c) - Ind(hs[i], c) + Ind(v, c)
  {
    forall c ensures Count(hs[i := v], c) == Count(hs, c) - Ind(hs[i], c) + Ind(v, c) {
      CountUpdateAt(hs, i, v, c);
    }
  }

  /** A cell some holder refers to has a positive count. */
  lemma {:induction false} CountPositive(hs: seq<Option<CellId>>, i: nat, c: CellId)
    requires i < |hs| && hs[i] == Some(c)
    ensures Count(hs, c) >= 1
  {
    var n := |hs|;
    if i < n - 1 {
      CountPositive(hs[..n - 1], i, c);
    }
  }

  /** A cell no holder refers to has count zero. */
  lemma {:induction false} CountAbsent(hs: seq<Option<CellId>>, c: CellId)
    requires forall i :: 0 <= i < |hs| ==> hs[i] != Some(c)
    ensures Count(hs, c) == 0
  {
    if hs != [] {
      CountAbsent(hs[..|hs| - 1], c);
    }
  }

  /** If holder `i` is the only referent of its cell, no other holder refers to it. */
  lemma SoleReferent(hs: seq<Option<CellId>>, i: nat, c: CellId)
    requires i < |hs| && hs[i] == Some(c) && Count(hs, c) == 1
    ensures forall j :: 0 <= j < |hs| && j != i ==> hs[j] != Some(c)
  {
    forall j | 0 <= j < |hs| && j != i
      ensures hs[j] != Some(c)
    {
      if hs[j] == Some(c) {
        CountUpdateAt(hs, j, None, c);
        CountPositive(hs[j := None], i, c);
        assert false;
      }
    }
  }

  /** Under the invariant, the fresh identifier is referred to by nobody. */
  lemma FreshUnreferenced<T>(s: State<T>)
    requires Valid(s)
    ensures s.next !in s.cells
    ensures forall i :: 0 <= i < |s.holders| ==> s.holders[i] != Some(s.next)
    ensures Count(s.holders, s.next) == 0
  {
    CountAbsent(s.holders, s.next);
  }

  // ---------------------------------------------------------------------
  // observers
  // ---------------------------------------------------------------------

  /** `use_count()` of holder `h`'s `data_`: the number of holders sharing its cell, 0 if null. */
  function UseCount<T>(s: State<T>, h: HolderId): (n: nat)
    requires Valid(s) && h < |s.holders|
    ensures n == if s.holders[h].None? then 0 else Count(s.holders, s.holders[h].value)
    ensures s.holders[h].Some? <==> n >= 1
  {
    if s.holders[h].None? then 0 else s.cells[s.holders[h].value].useCount
  }

  /** What holder `h` observes: its payload, or disengaged. */
  function Observe<T>(s: State<T>, h: HolderId): Option<T>
    requires Valid(s) && h < |s.holders|
  {
    match s.holders[h]
    case None => None
    case Some(c) => Some(s.cells[c].payload)
  }

  /** What every holder observes, in holder order. */
  function View<T>(s: State<T>): (v: seq<Option<T>>)
    requires Valid(s)
    ensures |v| == |s.holders|
    ensures forall i :: 0 <= i < |v| ==> v[i] == Observe(s, i)
  {
    seq(|s.holders|, i requires 0 <= i < |s.holders| => Observe(s, i))
  }

  /** `has_value()` and `operator bool`: `data_` is not null. */
  function HasValue<T>(s: State<T>, h: HolderId): (b: bool)
    requires Valid(s) && h < |s.holders|
    ensures b <==> Observe(s, h).Some?
  {
    s.holders[h].Some?
  }

  /** `value()`: `bad_optional_access` exactly when disengaged, otherwise the shared payload. */
  function Value<T>(s: State<T>, h: HolderId): (r: Result<T>)
    requires Valid(s) && h < |s.holders|
    ensures r.Failure? <==> !HasValue(s, h)
    ensures r == InlineOptional.Value(Observe(s, h))
  {
    match s.holders[h]
    case None => Failure(BadOptionalAccess)
    case Some(c) => Success(s.cells[c].payload)
  }

  /** `value_or(d)` on an lvalue: the default exactly when disengaged, otherwise a copy of the payload. */
  function ValueOr<T>(s: State<T>, h: HolderId, d: T): (r: T)
    requires Valid(s) && h < |s.holders|
    ensures r == InlineOptional.ValueOr(Observe(s, h), d)
  {
    match s.holders[h]
    case None => d
    case Some(c) => s.cells[c].payload
  }

  /**
   * `value_or(d)` on an rvalue: the result, and whether the payload is
   * moved out of its cell rather than copied.  It is moved exactly when
   * `use_count() == 1`, and then no other holder can see the moved-from cell.
   */
  function ValueOrRvalue<T>(s: State<T>, h: HolderId, d: T): (r: (T, bool))
    requires Valid(s) && h < |s.holders|
    ensures r.0 == InlineOptional.ValueOr(Observe(s, h), d)
    ensures r.1 <==> UseCount(s, h) == 1
    ensures r.1 ==> forall j :: 0 <= j < |s.holders| && j != h ==> s.holders[j] != s.holders[h]
  {
    match s.holders[h]
    case None => (d, false)
    case Some(c) =>
      if s.cells[c].useCount == 1 then
        SoleReferent(s.holders, h, c);
        (s.cells[c].payload, true)
      else
        (s.cells[c].payload, false)
  }

  // ---------------------------------------------------------------------
  // transitions
  // ---------------------------------------------------------------------

  /** A store with no cells and no holders. */
  function Empty<T>(): (r: State<T>)
    ensures Valid(r) && r.holders == [] && r.cells == map[]
  {
    State(map[], [], 0)
  }

  /** `optional()` and `optional(nullopt)`: a new holder with a null `data_`. */
  function AddEmpty<T>(s: State<T>): (r: State<T>)
    requires Valid(s)
    ensures Valid(r)
  {
    CountAppend(s.holders, None);
    s.(holders := s.holders + [None])
  }

  /** `optional(in_place, args...)`, `optional(U&&)`, `make_optional`: a new holder owning a fresh cell. */
  function AddEngaged<T>(s: State<T>, x: T): (r: State<T>)
    requires Valid(s)
    ensures Valid(r)
  {
    CountAppend(s.holders, Some(s.next));
    FreshUnreferenced(s);
    s.(cells := s.cells[s.next := Cell(x, 1)], holders := s.holders + [Some(s.next)], next := s.next + 1)
  }

  /** Copy construction (and the aliasing converting constructor): the new holder shares `src`'s cell. */
  function AddCopy<T>(s: State<T>, src: HolderId): (r: State<T>)
    requires Valid(s) && src < |s.holders|
    ensures Valid(r)
  {
    match s.holders[src]
    case None => AddEmpty(s)
    case Some(c) =>
      CountAppend(s.holders, Some(c));
      s.(cells := s.cells[c := s.cells[c].(useCount := s.cells[c].useCount + 1)], holders := s.holders + [Some(c)])
  }

  /** Move construction (and the aliasing converting move): the new holder takes `src`'s reference; `src` becomes null. */
  function AddMoved<T>(s: State<T>, src: HolderId): (r: State<T>)
    requires Valid(s) && src < |s.holders|
    ensures Valid(r)
  {
    CountUpdate(s.holders, src, None);
    CountAppend(s.holders[src := None], s.holders[src]);
    s.(holders := s.holders[src := None] + [s.holders[src]])
  }

  /** The non-aliasing converting constructors: a fresh cell with the converted payload, or a null `data_`. */
  function AddConverted<T>(s: State<T>, src: HolderId, convert: T -> T): (r: State<T>)
    requires Valid(s) && src < |s.holders|
    ensures Valid(r)
  {
    match s.holders[src]
    case None => AddEmpty(s)
    case Some(c) => AddEngaged(s, convert(s.cells[c].payload))
  }

  /** Construction from an inline holder: a fresh cell with a copy of its payload, or a null `data_`. */
  function AddFromInline<T>(s: State<T>, o: Option<T>): (r: State<T>)
    requires Valid(s)
    ensures Valid(r)
  {
    match o
    case None => AddEmpty(s)
    case Some(x) => AddEngaged(s, x)
  }

  /** `reset()`: drop `h`'s reference; the cell is destroyed when it was the last one. */
  function Reset<T>(s: State<T>, h: HolderId): (r: State<T>)
    requires Valid(s) && h < |s.holders|
    ensures Valid(r)
  {
    match s.holders[h]
    case None => s
    case Some(c) =>
      CountUpdate(s.holders, h, None);
      var n := s.cells[c].useCount;
      if n == 1 then
        SoleReferent(s.holders, h, c);
        s.(cells := s.cells - {c}, holders := s.holders[h := None])
      else
        s.(cells := s.cells[c := s.cells[c].(useCount := n - 1)], holders := s.holders[h := None])
  }

  /**
   * The private `set_value`, behind `operator=(U&&)`: when `h` is the sole
   * owner of its cell the payload is assigned in place; otherwise (shared
   * or null) the holder drops its reference and gets a fresh cell.
   */
  function SetValue<T>(s: State<T>, h: HolderId, x: T): (r: State<T>)
    requires Valid(s) && h < |s.holders|
    ensures Valid(r)
  {
    if UseCount(s, h) == 1 then
      var c := s.holders[h].value;
      s.(cells := s.cells[c := s.cells[c].(payload := x)])
    else
      var s1 := Reset(s, h);
      CountUpdate(s1.holders, h, Some(s1.next));
      FreshUnreferenced(s1);
      s1.(cells := s1.cells[s1.next := Cell(x, 1)], holders := s1.holders[h := Some(s1.next)], next := s1.next + 1)
  }

  /** `h`'s `data_` is copy-assigned the pointer `t` (a live cell or null). */
  function Rebind<T>(s: State<T>, h: HolderId, t: Option<CellId>): (r: State<T>)
    requires Valid(s) && h < |s.holders|
    requires t.Some? ==> t.value in s.cells
    ensures Valid(r)
  {
    if s.holders[h] == t then s
    else
      var s1 := Reset(s, h);
      match t
      case None => s1
      case Some(c) =>
        CountUpdate(s1.holders, h, t);
        s1.(cells := s1.cells[c := s1.cells[c].(useCount := s1.cells[c].useCount + 1)], holders := s1.holders[h := t])
  }

  /** Copy assignment (and the aliasing converting assignment): `dst` shares `src`'s cell. */
  function CopyAssign<T>(s: State<T>, dst: HolderId, src: HolderId): (r: State<T>)
    requires Valid(s) && dst < |s.holders| && src < |s.holders|
    ensures Valid(r)
  {
    Rebind(s, dst, s.holders[src])
  }

  /**
   * Move assignment (and the aliasing converting move assignment): `dst`
   * takes `src`'s reference and `src` becomes null; moving a holder onto
   * itself changes nothing.
   */
  function MoveAssign<T>(s: State<T>, dst: HolderId, src: HolderId): (r: State<T>)
    requires Valid(s) && dst < |s.holders| && src < |s.holders|
    ensures Valid(r)
  {
    if dst == src then s
    else Reset(CopyAssign(s, dst, src), src)
  }

  /** The non-aliasing converting assignments: `set_value` of the converted payload, or `reset()`. */
  function AssignConverted<T>(s: State<T>, dst: HolderId, src: HolderId, convert: T -> T): (r: State<T>)
    requires Valid(s) && dst < |s.holders| && src < |s.holders|
    ensures Valid(r)
  {
    match s.holders[src]
    case None => Reset(s, dst)
    case Some(c) => SetValue(s, dst, convert(s.cells[c].payload))
  }

  /** Assignment from an inline holder: `set_value` of its payload, or `reset()`. */
  function AssignFromInline<T>(s: State<T>, dst: HolderId, o: Option<T>): (r: State<T>)
    requires Valid(s) && dst < |s.holders|
    ensures Valid(r)
  {
    match o
    case None => Reset(s, dst)
    case Some(x) => SetValue(s, dst, x)
  }

  /** `swap`: the two holders exchange their `data_` pointers; no count changes. */
  function Swap<T>(s: State<T>, a: HolderId, b: HolderId): (r: State<T>)
    requires Valid(s) && a < |s.holders| && b < |s.holders|
    ensures Valid(r)
  {
    var hs1 := s.holders[a := s.holders[b]];
    CountUpdate(s.holders, a, s.holders[b]);
    CountUpdate(hs1, b, s.holders[a]);
    s.(holders := hs1[b := s.holders[a]])
  }
}
