/**
 * What the shared-backing variant promises, proved of the transitions in
 * `SharedState`: a write never changes what another holder observes, a
 * sole owner writes in place and never allocates, copies alias the cell
 * without copying the payload, and every operation is observed exactly as
 * the inline variant's value semantics (`InlineOptional`) prescribe.
 */
module CopyOnWrite {
  import opened Wrappers
  import InlineOptional
  import opened SharedState

  /** Two stores of the same size whose holders observe the same except at `h` differ in view only at `h`. */
  lemma ViewsAgreeExcept<T>(s: State<T>, r: State<T>, h: HolderId)
    requires Valid(s) && Valid(r) && |r.holders| == |s.holders| && h < |s.holders|
    requires forall i :: 0 <= i < |s.holders| && i != h ==> Observe(r, i) == Observe(s, i)
    ensures View(r) == View(s)[h := Observe(r, h)]
  {
  }

  /** A store grown by one holder whose old holders observe the same has the old view plus the new holder's. */
  lemma ViewsAgreeAppended<T>(s: State<T>, r: State<T>)
    requires Valid(s) && Valid(r) && |r.holders| == |s.holders| + 1
    requires forall i :: 0 <= i < |s.holders| ==> Observe(r, i) == Observe(s, i)
    ensures View(r) == View(s) + [Observe(r, |s.holders|)]
  {
  }

  // ---------------------------------------------------------------------
  // set_value: the copy-on-write trigger
  // ---------------------------------------------------------------------

  /**
   * The trigger: a sole owner (`use_count() == 1`) assigns the payload in
   * its own cell and allocates nothing; any other holder (shared or null)
   * is rebound to a freshly allocated cell holding the value, and the cell
   * it shared loses exactly one reference and keeps its payload.  Either way
   * the writer ends as the sole owner of its cell.
   */
  lemma SetValueTrigger<T>(s: State<T>, h: HolderId, x: T)
    requires Valid(s) && h < |s.holders|
    ensures var r := SetValue(s, h, x);
      UseCount(s, h) == 1 ==>
        var c := s.holders[h].value;
        r.holders == s.holders && r.next == s.next && r.cells == s.cells[c := Cell(x, 1)]
    ensures var r := SetValue(s, h, x);
      UseCount(s, h) != 1 ==>
        && s.next !in s.cells
        && r.holders == s.holders[h := Some(s.next)]
        && r.next == s.next + 1
        && r.cells.Keys == s.cells.Keys + {s.next}
        && r.cells[s.next] == Cell(x, 1)
        && (forall c :: c in s.cells && Some(c) != s.holders[h] ==> r.cells[c] == s.cells[c])
        && (s.holders[h].Some? ==>
              var c := s.holders[h].value;
              r.cells[c] == s.cells[c].(useCount := s.cells[c].useCount - 1))
    ensures UseCount(SetValue(s, h, x), h) == 1
  {
    var r := SetValue(s, h, x);
    FreshUnreferenced(s);
    if UseCount(s, h) != 1 && s.holders[h].Some? {
      var c := s.holders[h].value;
      assert s.cells[c].useCount != 1;
    }
    if UseCount(s, h) != 1 {
      assert r.holders[h] == Some(s.next);
      CountAbsent(r.holders[h := None], s.next);
      CountUpdateAt(r.holders[h := None], h, Some(s.next), s.next);
      assert r.holders[h := None][h := Some(s.next)] == r.holders;
    }
  }

  /** Copy-on-write isolation: after `h = x`, `h` observes `x` and every other holder observes what it did before. */
  lemma SetValueIsolation<T>(s: State<T>, h: HolderId, x: T)
    requires Valid(s) && h < |s.holders|
    ensures View(SetValue(s, h, x)) == View(s)[h := InlineOptional.Assign(Observe(s, h), x)]
  {
    var r := SetValue(s, h, x);
    SetValueTrigger(s, h, x);
    if UseCount(s, h) == 1 {
      SoleReferent(s.holders, h, s.holders[h].value);
    }
    ViewsAgreeExcept(s, r, h);
  }

  /**
   * The scenario of the repository's tests: `v2 = v1` (copy construction),
   * then `v1 = x`.  `v1` observes `x`, `v2` still observes the old value,
   * the two no longer share a cell, and every other holder is unchanged.
   * When `v1` starts disengaged the copy is disengaged too and the write
   * allocates.
   */
  lemma CopyThenAssignIsolates<T>(s: State<T>, v1: HolderId, x: T)
    requires Valid(s) && v1 < |s.holders|
    ensures var s1 := AddCopy(s, v1);
      var v2 := |s.holders|;
      var s2 := SetValue(s1, v1, x);
      && Observe(s2, v1) == Some(x)
      && Observe(s2, v2) == Observe(s, v1)
      && s2.holders[v1] != s2.holders[v2]
      && (forall i :: 0 <= i < |s.holders| && i != v1 ==> Observe(s2, i) == Observe(s, i))
  {
    var s1 := AddCopy(s, v1);
    var v2 := |s.holders|;
    AddCopyAliases(s, v1);
    if s.holders[v1].Some? {
      assert UseCount(s1, v1) >= 2;
    }
    SetValueTrigger(s1, v1, x);
    SetValueIsolation(s1, v1, x);
    var s2 := SetValue(s1, v1, x);
    assert View(s2)[v2] == View(s1)[v2];
    assert View(s1)[v2] == Observe(s, v1);
    FreshUnreferenced(s1);
  }

  // ---------------------------------------------------------------------
  // construction
  // ---------------------------------------------------------------------

  /**
   * Copy construction aliases the source's cell: the new holder points at
   * it, its count goes up by one, no cell is allocated and no payload is
   * copied.  Copying a disengaged holder yields a disengaged one.
   */
  lemma AddCopyAliases<T>(s: State<T>, src: HolderId)
    requires Valid(s) && src < |s.holders|
    ensures var r := AddCopy(s, src);
      && r.holders == s.holders + [s.holders[src]]
      && r.next == s.next
      && r.cells.Keys == s.cells.Keys
      && (forall c :: c in s.cells ==> r.cells[c].payload == s.cells[c].payload)
      && (s.holders[src].None? ==> r.cells == s.cells)
      && (s.holders[src].Some? ==>
            UseCount(r, |s.holders|) == UseCount(r, src) == UseCount(s, src) + 1)
    ensures View(AddCopy(s, src)) == View(s) + [Observe(s, src)]
  {
    var r := AddCopy(s, src);
    ViewsAgreeAppended(s, r);
  }

  /** Move construction transfers the reference: the source becomes disengaged and no count changes. */
  lemma AddMovedTransfers<T>(s: State<T>, src: HolderId)
    requires Valid(s) && src < |s.holders|
    ensures AddMoved(s, src).cells == s.cells && AddMoved(s, src).next == s.next
    ensures View(AddMoved(s, src)) == View(s)[src := None] + [Observe(s, src)]
  {
    var r := AddMoved(s, src);
    var expected := View(s)[src := None] + [Observe(s, src)];
    forall i | 0 <= i < |r.holders|
      ensures View(r)[i] == expected[i]
    {
      if i < |s.holders| && i != src {
        assert r.holders[i] == s.holders[i];
      }
    }
  }

  /** `optional(in_place, x)`, `make_optional(x)`: a new holder observing `x`, in a cell of its own. */
  lemma AddEngagedObservesValue<T>(s: State<T>, x: T)
    requires Valid(s)
    ensures var r := AddEngaged(s, x);
      && View(r) == View(s) + [InlineOptional.Make(x)]
      && UseCount(r, |s.holders|) == 1
      && Value(r, |s.holders|) == Success(x)
      && s.next !in s.cells
      && r.holders[|s.holders|] == Some(s.next)
      && r.cells.Keys == s.cells.Keys + {s.next}
  {
    var r := AddEngaged(s, x);
    FreshUnreferenced(s);
    CountAppend(s.holders, Some(s.next));
    ViewsAgreeAppended(s, r);
  }

  /** `optional()` and `optional(nullopt)`: a new disengaged holder; `value()` fails and `value_or(d)` is `d`. */
  lemma AddEmptyObservesNothing<T>(s: State<T>, d: T)
    requires Valid(s)
    ensures var r := AddEmpty(s);
      && View(r) == View(s) + [InlineOptional.Disengaged()]
      && Value(r, |s.holders|) == Failure(BadOptionalAccess)
      && ValueOr(r, |s.holders|, d) == d
  {
    ViewsAgreeAppended(s, AddEmpty(s));
  }

  /** The non-aliasing converting constructors observe the converted payload in a new cell of their own. */
  lemma AddConvertedObservesConversion<T>(s: State<T>, src: HolderId, convert: T -> T)
    requires Valid(s) && src < |s.holders|
    ensures View(AddConverted(s, src, convert)) == View(s) + [InlineOptional.Convert(Observe(s, src), convert)]
  {
    if s.holders[src].Some? {
      AddEngagedObservesValue(s, convert(s.cells[s.holders[src].value].payload));
    } else {
      ViewsAgreeAppended(s, AddEmpty(s));
    }
  }

  /** Construction from an inline holder observes that holder's value. */
  lemma AddFromInlineObservesSource<T>(s: State<T>, o: Option<T>)
    requires Valid(s)
    ensures View(AddFromInline(s, o)) == View(s) + [o]
  {
    if o.Some? {
      AddEngagedObservesValue(s, o.value);
    } else {
      ViewsAgreeAppended(s, AddEmpty(s));
    }
  }

  // ---------------------------------------------------------------------
  // reset and assignment
  // ---------------------------------------------------------------------

  /**
   * `reset()` and `= nullopt`: the holder becomes disengaged, every other
   * holder observes what it did, the cell it shared loses one reference,
   * and resetting a disengaged holder changes nothing.
   */
  lemma ResetDisengages<T>(s: State<T>, h: HolderId)
    requires Valid(s) && h < |s.holders|
    ensures View(Reset(s, h)) == View(s)[h := InlineOptional.Disengaged()]
    ensures s.holders[h].None? ==> Reset(s, h) == s
    ensures Reset(Reset(s, h), h) == Reset(s, h)
    ensures var r := Reset(s, h);
      r.holders == s.holders[h := None] && r.next == s.next && r.cells.Keys <= s.cells.Keys
    ensures s.holders[h].Some? && UseCount(s, h) > 1 ==>
      var c := s.holders[h].value;
      Reset(s, h).cells[c] == s.cells[c].(useCount := s.cells[c].useCount - 1)
    ensures UseCount(s, h) == 1 ==> s.holders[h].value !in Reset(s, h).cells
  {
    var r := Reset(s, h);
    if s.holders[h].Some? && UseCount(s, h) == 1 {
      SoleReferent(s.holders, h, s.holders[h].value);
    }
    ViewsAgreeExcept(s, r, h);
  }

  /**
   * Copy assignment (and the aliasing converting assignment) aliases the
   * source's cell: `dst` points where `src` does, nothing is allocated, no
   * payload changes, and `dst` then observes what `src` observes.
   */
  lemma CopyAssignAliases<T>(s: State<T>, dst: HolderId, src: HolderId)
    requires Valid(s) && dst < |s.holders| && src < |s.holders|
    ensures var r := CopyAssign(s, dst, src);
      && r.holders == s.holders[dst := s.holders[src]]
      && r.next == s.next
      && r.cells.Keys <= s.cells.Keys
      && (forall c :: c in r.cells ==> r.cells[c].payload == s.cells[c].payload)
    ensures View(CopyAssign(s, dst, src)) == View(s)[dst := Observe(s, src)]
  {
    var r := CopyAssign(s, dst, src);
    var t := s.holders[src];
    if s.holders[dst] != t {
      var s1 := Reset(s, dst);
      ResetDisengages(s, dst);
      if t.Some? {
        assert t.value in s1.cells;
      }
    }
    if s.holders[dst].Some? && UseCount(s, dst) == 1 && s.holders[dst] != t {
      SoleReferent(s.holders, dst, s.holders[dst].value);
    }
    ViewsAgreeExcept(s, r, dst);
  }

  /**
   * Move assignment: `dst` takes over `src`'s reference and observes its
   * value, `src` becomes disengaged, and nothing is allocated.
   */
  lemma MoveAssignTransfers<T>(s: State<T>, dst: HolderId, src: HolderId)
    requires Valid(s) && dst < |s.holders| && src < |s.holders| && dst != src
    ensures var r := MoveAssign(s, dst, src);
      r.holders == s.holders[dst := s.holders[src]][src := None] && r.next == s.next && r.cells.Keys <= s.cells.Keys
    ensures View(MoveAssign(s, dst, src)) == View(s)[dst := Observe(s, src)][src := InlineOptional.Disengaged()]
  {
    var s1 := CopyAssign(s, dst, src);
    CopyAssignAliases(s, dst, src);
    ResetDisengages(s1, src);
  }

  /** Moving a holder onto itself changes nothing. */
  lemma MoveAssignSelf<T>(s: State<T>, h: HolderId)
    requires Valid(s) && h < |s.holders|
    ensures MoveAssign(s, h, h) == s
  {
  }

  /** The non-aliasing converting assignments observe the converted payload (or disengage). */
  lemma AssignConvertedObservesConversion<T>(s: State<T>, dst: HolderId, src: HolderId, convert: T -> T)
    requires Valid(s) && dst < |s.holders| && src < |s.holders|
    ensures View(AssignConverted(s, dst, src, convert)) == View(s)[dst := InlineOptional.Convert(Observe(s, src), convert)]
  {
    if s.holders[src].Some? {
      SetValueIsolation(s, dst, convert(s.cells[s.holders[src].value].payload));
    } else {
      ResetDisengages(s, dst);
    }
  }

  /** Assignment from an inline holder observes that holder's value (or disengages). */
  lemma AssignFromInlineObservesSource<T>(s: State<T>, dst: HolderId, o: Option<T>)
    requires Valid(s) && dst < |s.holders|
    ensures View(AssignFromInline(s, dst, o)) == View(s)[dst := o]
  {
    if o.Some? {
      SetValueIsolation(s, dst, o.value);
    } else {
      ResetDisengages(s, dst);
    }
  }

  /** `swap` exchanges what the two holders observe, changes no cell, and undoes itself. */
  lemma SwapExchanges<T>(s: State<T>, a: HolderId, b: HolderId)
    requires Valid(s) && a < |s.holders| && b < |s.holders|
    ensures Swap(s, a, b).cells == s.cells && Swap(s, a, b).next == s.next
    ensures View(Swap(s, a, b)) == View(s)[a := Observe(s, b)][b := Observe(s, a)]
    ensures Swap(Swap(s, a, b), a, b) == s
  {
    var r := Swap(s, a, b);
    assert r.holders[a := r.holders[b]][b := r.holders[a]] == s.holders;
  }
}
