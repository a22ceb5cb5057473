/**
 * The shared-backing variant `optional<T, false>` in imperative form.  A
 * `Store` holds, as fields it updates in place, the live reference-counted
 * cells and every holder's `data_`; holders are named by their index.
 * Each mutating method is specified by the matching transition of
 * `SharedState` and restates the observable effect proved in `CopyOnWrite`.
 * Observers only read.
 */
module SharedOptional {
  import opened Wrappers
  import InlineOptional
  import SharedState
  import CopyOnWrite

  class Store<T> {
    /** The live cells, by identifier. */
    var cells: map<SharedState.CellId, SharedState.Cell<T>>
    /** Each holder's `data_`: the cell it refers to, or `None` for a null pointer. */
    var holders: seq<Option<SharedState.CellId>>
    /** The identifier the next allocation will use. */
    var next: SharedState.CellId

    /** The store as a value. */
    function Snapshot(): SharedState.State<T>
      reads this
    {
      SharedState.State(cells, holders, next)
    }

    ghost predicate Valid()
      reads this
    {
      SharedState.Valid(Snapshot())
    }

    /** What every holder currently observes. */
    ghost function View(): seq<Option<T>>
      reads this
      requires Valid()
    {
      SharedState.View(Snapshot())
    }

    /** A store with no holders and no cells. */
    constructor ()
      ensures Valid() && Snapshot() == SharedState.Empty()
    {
      cells := map[];
      holders := [];
      next := 0;
    }

    // -------------------------------------------------------------------
    // constructors of a holder
    // -------------------------------------------------------------------

    /** `optional()` and `optional(nullopt)`: a new disengaged holder `h`. */
    method Create() returns (h: SharedState.HolderId)
      requires Valid()
      modifies this`holders
      ensures Valid() && h == |old(holders)|
      ensures Snapshot() == SharedState.AddEmpty(old(Snapshot()))
      ensures View() == old(View()) + [None]
    {
      CopyOnWrite.ViewsAgreeAppended(Snapshot(), SharedState.AddEmpty(Snapshot()));
      h := |holders|;
      holders := holders + [None];
    }

    /** `optional(in_place, args...)`, `optional(U&&)` and `make_optional`: a new holder owning a fresh cell with `x`. */
    method Emplace(x: T) returns (h: SharedState.HolderId)
      requires Valid()
      modifies this
      ensures Valid() && h == |old(holders)|
      ensures Snapshot() == SharedState.AddEngaged(old(Snapshot()), x)
      ensures View() == old(View()) + [Some(x)]
      ensures next == old(next) + 1 && holders[h] == Some(old(next)) && old(next) !in old(cells)
    {
      CopyOnWrite.AddEngagedObservesValue(Snapshot(), x);
      SharedState.FreshUnreferenced(Snapshot());
      h := |holders|;
      cells := cells[next := SharedState.Cell(x, 1)];
      holders := holders + [Some(next)];
      next := next + 1;
    }

    /**
     * Copy construction, and the converting constructor for `U*` convertible
     * to `T*`: the new holder aliases `src`'s cell and bumps its count.
     */
    method Copy(src: SharedState.HolderId) returns (h: SharedState.HolderId)
      requires Valid() && src < |holders|
      modifies this`cells, this`holders
      ensures Valid() && h == |old(holders)|
      ensures Snapshot() == SharedState.AddCopy(old(Snapshot()), src)
      ensures holders == old(holders) + [old(holders)[src]] && cells.Keys == old(cells.Keys)
      ensures View() == old(View()) + [old(View())[src]]
    {
      CopyOnWrite.AddCopyAliases(Snapshot(), src);
      h := |holders|;
      match holders[src] {
        case None =>
          holders := holders + [None];
        case Some(c) =>
          cells := cells[c := cells[c].(useCount := cells[c].useCount + 1)];
          holders := holders + [Some(c)];
      }
    }

    /** Move construction, and its aliasing converting form: the new holder takes `src`'s reference; `src` becomes null. */
    method Move(src: SharedState.HolderId) returns (h: SharedState.HolderId)
      requires Valid() && src < |holders|
      modifies this`holders
      ensures Valid() && h == |old(holders)|
      ensures Snapshot() == SharedState.AddMoved(old(Snapshot()), src)
      ensures View() == old(View())[src := None] + [old(View())[src]]
    {
      CopyOnWrite.AddMovedTransfers(Snapshot(), src);
      h := |holders|;
      var t := holders[src];
      holders := holders[src := None] + [t];
    }

    /** The non-aliasing converting constructors (copy and move): a fresh cell with the converted payload. */
    method CopyConverted(src: SharedState.HolderId, convert: T -> T) returns (h: SharedState.HolderId)
      requires Valid() && src < |holders|
      modifies this
      ensures Valid() && h == |old(holders)|
      ensures Snapshot() == SharedState.AddConverted(old(Snapshot()), src, convert)
      ensures View() == old(View()) + [InlineOptional.Convert(old(View())[src], convert)]
    {
      CopyOnWrite.AddConvertedObservesConversion(Snapshot(), src, convert);
      match holders[src] {
        case None =>
          h := Create();
        case Some(c) =>
          h := Emplace(convert(cells[c].payload));
      }
    }

    /** Construction from an inline holder (copy or move): a fresh cell with its payload, or disengaged. */
    method FromInline(o: Option<T>) returns (h: SharedState.HolderId)
      requires Valid()
      modifies this
      ensures Valid() && h == |old(holders)|
      ensures Snapshot() == SharedState.AddFromInline(old(Snapshot()), o)
      ensures View() == old(View()) + [o]
    {
      CopyOnWrite.AddFromInlineObservesSource(Snapshot(), o);
      match o {
        case None =>
          h := Create();
        case Some(x) =>
          h := Emplace(x);
      }
    }

    // -------------------------------------------------------------------
    // modifiers and assignments
    // -------------------------------------------------------------------

    /** `reset()`: `h` drops its reference; the cell is destroyed if it was the last. */
    method Reset(h: SharedState.HolderId)
      requires Valid() && h < |holders|
      modifies this`cells, this`holders
      ensures Valid()
      ensures Snapshot() == SharedState.Reset(old(Snapshot()), h)
      ensures holders == old(holders)[h := None] && cells.Keys <= old(cells.Keys)
      ensures View() == old(View())[h := None]
    {
      CopyOnWrite.ResetDisengages(Snapshot(), h);
      match holders[h] {
        case None =>
        case Some(c) =>
          var n := cells[c].useCount;
          if n == 1 {
            cells := cells - {c};
          } else {
            cells := cells[c := cells[c].(useCount := n - 1)];
          }
          holders := holders[h := None];
      }
    }

    /** `operator=(nullopt)`: the same as `reset()`. */
    method AssignNullopt(h: SharedState.HolderId)
      requires Valid() && h < |holders|
      modifies this`cells, this`holders
      ensures Valid()
      ensures Snapshot() == SharedState.Reset(old(Snapshot()), h)
      ensures View() == old(View())[h := None]
    {
      Reset(h);
    }

    /**
     * `operator=(U&&)` through the private `set_value`: when `h` is the sole
     * owner of its cell, the payload is assigned in place and nothing is
     * allocated; otherwise `h` drops its reference and is rebound to a fresh
     * cell.  No other holder observes a change.
     */
    method SetValue(h: SharedState.HolderId, x: T)
      requires Valid() && h < |holders|
      modifies this
      ensures Valid()
      ensures Snapshot() == SharedState.SetValue(old(Snapshot()), h, x)
      ensures View() == old(View())[h := Some(x)]
      ensures old(SharedState.UseCount(Snapshot(), h)) == 1 ==>
        holders == old(holders) && next == old(next) && cells.Keys == old(cells.Keys)
      ensures old(SharedState.UseCount(Snapshot(), h)) != 1 ==>
        holders == old(holders)[h := Some(old(next))] && next == old(next) + 1 && old(next) !in old(cells)
      ensures SharedState.UseCount(Snapshot(), h) == 1
    {
      CopyOnWrite.SetValueTrigger(Snapshot(), h, x);
      CopyOnWrite.SetValueIsolation(Snapshot(), h, x);
      if holders[h].Some? && cells[holders[h].value].useCount == 1 {
        var c := holders[h].value;
        cells := cells[c := cells[c].(payload := x)];
      } else {
        Reset(h);
        cells := cells[next := SharedState.Cell(x, 1)];
        holders := holders[h := Some(next)];
        next := next + 1;
      }
    }

    /**
     * Copy assignment, and the converting assignment for `U*` convertible
     * to `T*`: `dst` drops its reference and aliases `src`'s cell.
     */
    method CopyAssign(dst: SharedState.HolderId, src: SharedState.HolderId)
      requires Valid() && dst < |holders| && src < |holders|
      modifies this`cells, this`holders
      ensures Valid()
      ensures Snapshot() == SharedState.CopyAssign(old(Snapshot()), dst, src)
      ensures holders == old(holders)[dst := old(holders)[src]] && cells.Keys <= old(cells.Keys)
      ensures View() == old(View())[dst := old(View())[src]]
    {
      CopyOnWrite.CopyAssignAliases(Snapshot(), dst, src);
      var t := holders[src];
      if holders[dst] != t {
        Reset(dst);
        match t {
          case None =>
          case Some(c) =>
            cells := cells[c := cells[c].(useCount := cells[c].useCount + 1)];
            holders := holders[dst := t];
        }
      }
    }

    /** Move assignment, and its aliasing converting form: `dst` takes `src`'s reference; `src` becomes null. */
    method MoveAssign(dst: SharedState.HolderId, src: SharedState.HolderId)
      requires Valid() && dst < |holders| && src < |holders|
      modifies this`cells, this`holders
      ensures Valid()
      ensures Snapshot() == SharedState.MoveAssign(old(Snapshot()), dst, src)
      ensures dst != src ==> View() == old(View())[dst := old(View())[src]][src := None]
      ensures dst == src ==> Snapshot() == old(Snapshot())
    {
      if dst != src {
        CopyOnWrite.MoveAssignTransfers(Snapshot(), dst, src);
        CopyAssign(dst, src);
        Reset(src);
      }
    }

    /** The non-aliasing converting assignments (copy and move): `set_value` of the converted payload, or `reset()`. */
    method AssignConverted(dst: SharedState.HolderId, src: SharedState.HolderId, convert: T -> T)
      requires Valid() && dst < |holders| && src < |holders|
      modifies this
      ensures Valid()
      ensures Snapshot() == SharedState.AssignConverted(old(Snapshot()), dst, src, convert)
      ensures View() == old(View())[dst := InlineOptional.Convert(old(View())[src], convert)]
    {
      CopyOnWrite.AssignConvertedObservesConversion(Snapshot(), dst, src, convert);
      match holders[src] {
        case None =>
          Reset(dst);
        case Some(c) =>
          SetValue(dst, convert(cells[c].payload));
      }
    }

    /** Assignment from an inline holder (copy or move): `set_value` of its payload, or `reset()`. */
    method AssignFromInline(dst: SharedState.HolderId, o: Option<T>)
      requires Valid() && dst < |holders|
      modifies this
      ensures Valid()
      ensures Snapshot() == SharedState.AssignFromInline(old(Snapshot()), dst, o)
      ensures View() == old(View())[dst := o]
    {
      CopyOnWrite.AssignFromInlineObservesSource(Snapshot(), dst, o);
      match o {
        case None =>
          Reset(dst);
        case Some(x) =>
          SetValue(dst, x);
      }
    }

    /** Member and free `swap`: the two holders exchange their `data_` pointers. */
    method Swap(a: SharedState.HolderId, b: SharedState.HolderId)
      requires Valid() && a < |holders| && b < |holders|
      modifies this`holders
      ensures Valid()
      ensures Snapshot() == SharedState.Swap(old(Snapshot()), a, b)
      ensures View() == old(View())[a := old(View())[b]][b := old(View())[a]]
    {
      CopyOnWrite.SwapExchanges(Snapshot(), a, b);
      var pa, pb := holders[a], holders[b];
      holders := holders[a := pb][b := pa];
    }

    // -------------------------------------------------------------------
    // observers
    // -------------------------------------------------------------------

    /** `has_value()` and `operator bool`. */
    method HasValue(h: SharedState.HolderId) returns (b: bool)
      requires Valid() && h < |holders|
      ensures b <==> SharedState.Observe(Snapshot(), h).Some?
    {
      b := holders[h].Some?;
    }

    /** `use_count()` of `h`'s `data_`: how many holders share its cell (0 when null). */
    method UseCount(h: SharedState.HolderId) returns (n: nat)
      requires Valid() && h < |holders|
      ensures n == if holders[h].None? then 0 else SharedState.Count(holders, holders[h].value)
    {
      n := if holders[h].None? then 0 else cells[holders[h].value].useCount;
    }

    /** `operator*` and `operator->`: the shared payload itself; the source leaves a null `data_` undefined. */
    method Get(h: SharedState.HolderId) returns (x: T)
      requires Valid() && h < |holders| && holders[h].Some?
      ensures SharedState.Observe(Snapshot(), h) == Some(x)
    {
      x := cells[holders[h].value].payload;
    }

    /** `value()`: the payload, or `bad_optional_access` exactly when disengaged. */
    method Value(h: SharedState.HolderId) returns (r: Result<T>)
      requires Valid() && h < |holders|
      ensures r.Failure? <==> holders[h].None?
      ensures r.Success? ==> SharedState.Observe(Snapshot(), h) == Some(r.value)
    {
      match holders[h] {
        case None => r := Failure(BadOptionalAccess);
        case Some(c) => r := Success(cells[c].payload);
      }
    }

    /** `value_or(d)` on an lvalue: `d` exactly when disengaged, otherwise a copy of the payload. */
    method ValueOr(h: SharedState.HolderId, d: T) returns (r: T)
      requires Valid() && h < |holders|
      ensures holders[h].None? ==> r == d
      ensures holders[h].Some? ==> SharedState.Observe(Snapshot(), h) == Some(r)
    {
      match holders[h] {
        case None => r := d;
        case Some(c) => r := cells[c].payload;
      }
    }

    /**
     * `value_or(d)` on an rvalue: also reports whether the payload is moved
     * out rather than copied.  It is moved exactly when `use_count() == 1`,
     * so no other holder can observe the moved-from payload.
     */
    method ValueOrRvalue(h: SharedState.HolderId, d: T) returns (r: T, moved: bool)
      requires Valid() && h < |holders|
      ensures r == InlineOptional.ValueOr(SharedState.Observe(Snapshot(), h), d)
      ensures moved <==> holders[h].Some? && SharedState.Count(holders, holders[h].value) == 1
      ensures moved ==> forall j :: 0 <= j < |holders| && j != h ==> holders[j] != holders[h]
    {
      match holders[h] {
        case None =>
          r, moved := d, false;
        case Some(c) =>
          r := cells[c].payload;
          moved := cells[c].useCount == 1;
          if moved {
            SharedState.SoleReferent(holders, h, c);
          }
      }
    }
  }

  /**
   * The payload of the copy-on-write test: a struct built implicitly from a
   * `tracker` holding an integer.  It is not a scalar, so assigning a
   * `tracker` to a holder goes through `set_value`.
   */
  datatype TrackerStruct = TrackerStruct(trackerValue: int)

  /**
   * The copy-on-write test, on a fresh store: `v1{in_place, tracker{3}};
   * v2 = v1; v1 = tracker{51}` leaves `v1` with 51 and `v2` with 3, in
   * cells of their own.
   */
  method CopyThenWrite() returns (a: Result<TrackerStruct>, b: Result<TrackerStruct>, sharing: bool)
    ensures a == Success(TrackerStruct(51)) && b == Success(TrackerStruct(3)) && !sharing
  {
    var store := new Store<TrackerStruct>();
    var v1 := store.Emplace(TrackerStruct(3));
    var v2 := store.Copy(v1);
    store.SetValue(v1, TrackerStruct(51));
    a := store.Value(v1);
    b := store.Value(v2);
    sharing := store.holders[v1] == store.holders[v2];
  }
}
