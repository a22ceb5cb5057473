# cow::optional in Dafny

This project models `cow::optional` from rikdev/cow (`include/cow/optional.h`).
It is an optional value holder with the interface of C++17 `std::optional`
(ISO/IEC 14882:2017 section 23.6), and it has two backing strategies.

* **Shared backing, `optional<T, false>`.** The payload lives in one
  reference-counted cell (`data_`, a `std::shared_ptr`). Copies alias that
  cell. A write goes through the private `set_value`:
  - when the holder is the cell's only owner (`use_count() == 1`), it
    assigns the payload in place;
  - otherwise it allocates a fresh cell and rebinds only this holder.

  This is copy-on-write.
* **Inline backing, `optional<T, true>`.** This forwards to a library
  `std::optional<T>`: every copy owns its own payload.

Which backing a value type gets is a compile-time policy
(`allow_inplace_placement`, `use_inline_storage`). The policy picks inline
storage for small, trivially copyable types and for the pointer handle
types.

The modules:

| file | module | what it holds |
|---|---|---|
| `wrappers.dfy` | `Wrappers` | `Option`, and `Result` with its one error, `BadOptionalAccess` |
| `inline.dfy` | `InlineOptional` | the inline variant as plain `Option<T>` values; also the reference semantics for the shared variant |
| `shared_state.dfy` | `SharedState` | the shared variant as a pure state machine (see below) |
| `copy_on_write.dfy` | `CopyOnWrite` | the properties of the transitions: copy-on-write isolation, in-place writes, aliasing copies, moves, reset, swap |
| `shared_optional.dfy` | `SharedOptional` | the class `Store`, whose methods update fields in place and are proved against the transitions |
| `relational.dfy` | `Relational` | the comparison operators (holder/holder, holder/nullopt, holder/value) and `std::hash`, with their ordering laws |
| `placement.dfy` | `Placement` | the inline-storage selection policy, over a datatype of type shapes |
| `conversions.dfy` | `Conversions` | the boolean formulas of `optional_detail` and which converting overload takes part |

The `SharedState` state machine works as follows:
- The store has cells `{payload, useCount}`, holders that each point to one
  cell or to nothing, and a fresh-cell counter.
- Its invariant `Valid` says that every cell's `useCount` is exactly the
  number of holders that point to it, and is at least 1.
- `View` is what every holder observes. Each operation of the shared
  variant is proved to act on `View` exactly as the inline variant acts on
  its values. The only difference is that a shared move leaves the source
  empty.

## Model

| member | source | states |
|---|---|---|
| `InlineOptional.Disengaged` | include/cow/optional.h:720-724 | a default or `nullopt` holder: `value()` gives `bad_optional_access` |
| `InlineOptional.Make` | include/cow/optional.h:729-752 | an in-place or value-constructed holder: `value()` gives the payload |
| `InlineOptional.Assign` | include/cow/optional.h:817-823 | after `operator=(U&&)`, whatever the holder held, `value()` gives the new payload |
| `InlineOptional.Swap` | include/cow/optional.h:871-875 | the holders exchange contents; no ensures of its own, its law is `InlineOptional.SwapInvolutive` |
| `InlineOptional.Convert` | include/cow/optional.h:754-800 | a converting construction is engaged exactly when the source is, and holds the converted payload |
| `InlineOptional.Value` | include/cow/optional.h:909-922 | `value()` gives `bad_optional_access` exactly when disengaged, and otherwise the payload |
| `InlineOptional.ValueOr` | include/cow/optional.h:924-934 | `value_or(d)` is `d` when disengaged, and otherwise the payload |
| `InlineOptional.SwapInvolutive` | include/cow/optional.h:871-875 | swapping twice restores both holders |
| `InlineOptional.MakeRoundTrip` | include/cow/optional.h:729-732 | `value()` of a holder built in place is its payload; `value_or` of a default holder is the default |
| `SharedState.CountAppend` | include/cow/optional.h:697 | adding a holder adds one reference to its cell and none to any other |
| `SharedState.CountUpdateAt` | include/cow/optional.h:697 | rebinding one holder moves one reference from its old cell to its new one |
| `SharedState.CountUpdate` | include/cow/optional.h:697 | the same, for every cell at once |
| `SharedState.CountPositive` | include/cow/optional.h:697 | a cell that some holder points to has a reference count of at least 1 |
| `SharedState.CountAbsent` | include/cow/optional.h:697 | a cell that no holder points to has a reference count of 0 |
| `SharedState.SoleReferent` | include/cow/optional.h:674-675 | when the count is 1, no other holder points to the cell |
| `SharedState.FreshUnreferenced` | include/cow/optional.h:428 | a freshly allocated cell is not live and no holder points to it |
| `SharedState.UseCount` | include/cow/optional.h:674 | `use_count()` is the number of holders that share the cell, and 0 exactly when `data_` is null |
| `SharedState.Observe` | include/cow/optional.h:618-641 | what one holder observes; no ensures of its own, it is stated through `SharedState.View`, `SharedState.HasValue` and `SharedState.Value` |
| `SharedState.View` | include/cow/optional.h:618-641 | each holder observes its cell's payload, or nothing |
| `SharedState.HasValue` | include/cow/optional.h:633-641 | `has_value()` and `operator bool` hold exactly when the holder observes a payload |
| `SharedState.Value` | include/cow/optional.h:643-657 | `value()` fails exactly when `!has_value()`, and agrees with the inline variant |
| `SharedState.ValueOr` | include/cow/optional.h:659-666 | the lvalue `value_or` agrees with the inline variant |
| `SharedState.ValueOrRvalue` | include/cow/optional.h:668-678 | the rvalue `value_or` gives the same value; it moves the payload out exactly when `use_count() == 1`, and then no other holder shares the cell |
| `SharedState.Empty` | include/cow/optional.h:417 | model scaffolding with no source counterpart: the store before any holder exists satisfies the invariant |
| `SharedState.AddEmpty` | include/cow/optional.h:417-421 | a default or `nullopt` holder keeps the invariant |
| `SharedState.AddEngaged` | include/cow/optional.h:426-449 | in-place and value construction keep the invariant; the fresh, unshared cell is stated by `CopyOnWrite.AddEngagedObservesValue` |
| `SharedState.AddCopy` | include/cow/optional.h:423 | copy construction keeps the invariant |
| `SharedState.AddMoved` | include/cow/optional.h:424 | move construction keeps the invariant |
| `SharedState.AddConverted` | include/cow/optional.h:460-468 | a non-aliasing converting construction keeps the invariant |
| `SharedState.AddFromInline` | include/cow/optional.h:471-477 | construction from an inline holder keeps the invariant |
| `SharedState.Reset` | include/cow/optional.h:682-685 | `reset()` keeps the invariant; what it does to the holder and the cell is stated by `CopyOnWrite.ResetDisengages` |
| `SharedState.SetValue` | include/cow/optional.h:688-695 | `set_value` keeps the invariant |
| `SharedState.Rebind` | include/cow/optional.h:531 | assigning a `shared_ptr` keeps the invariant |
| `SharedState.CopyAssign` | include/cow/optional.h:513 | copy assignment keeps the invariant |
| `SharedState.MoveAssign` | include/cow/optional.h:514 | move assignment keeps the invariant |
| `SharedState.AssignConverted` | include/cow/optional.h:535-549 | a non-aliasing converting assignment keeps the invariant |
| `SharedState.AssignFromInline` | include/cow/optional.h:551-564 | assignment from an inline holder keeps the invariant |
| `SharedState.Swap` | include/cow/optional.h:611-614 | `swap` keeps the invariant |
| `CopyOnWrite.ViewsAgreeExcept` | include/cow/optional.h:697 | model scaffolding, a frame lemma over the store: two stores whose holders observe the same except for `h` have views that differ only at `h` |
| `CopyOnWrite.ViewsAgreeAppended` | include/cow/optional.h:697 | model scaffolding, a frame lemma over the store: a store grown by one holder, where the old holders are unchanged, has the old view plus the new holder |
| `CopyOnWrite.SetValueTrigger` | include/cow/optional.h:688-695 | a sole owner is written in place: same holders, same cells, no allocation. Any other holder gets a fresh cell of count 1 and loses its old reference. Afterwards `use_count() == 1` |
| `CopyOnWrite.SetValueIsolation` | include/cow/optional.h:688-695 | after `h = x`, `h` observes `x` and every other holder observes what it did before |
| `CopyOnWrite.CopyThenAssignIsolates` | tests/optional_test.cpp:353-362 | after `v2 = v1; v1 = x` through `set_value`, `v1` holds `x`, `v2` holds the old payload, they no longer share a cell, and every other holder is unchanged; also when `v1` starts disengaged |
| `CopyOnWrite.AddCopyAliases` | include/cow/optional.h:423 | a copy shares the source's cell, which gains one reference; no payload changes and nothing is allocated; copying a disengaged holder gives a disengaged one |
| `CopyOnWrite.AddMovedTransfers` | include/cow/optional.h:479-482 | a move hands the source's reference to the new holder and nulls the source; no cell changes |
| `CopyOnWrite.AddEngagedObservesValue` | include/cow/optional.h:426-429 | a holder built in place gets a cell that was not live before, observes its payload alone (`use_count() == 1`), and `value()` succeeds |
| `CopyOnWrite.AddEmptyObservesNothing` | include/cow/optional.h:417-421 | a default holder is disengaged: `value()` fails and `value_or(d)` is `d` |
| `CopyOnWrite.AddConvertedObservesConversion` | include/cow/optional.h:484-492 | the non-aliasing converting constructors observe the converted payload |
| `CopyOnWrite.AddFromInlineObservesSource` | include/cow/optional.h:494-500 | a holder built from an inline holder observes what it held |
| `CopyOnWrite.ResetDisengages` | include/cow/optional.h:507-511 | `reset()`/`= nullopt`: `h` is disengaged and no other holder's view changes; a no-op on a disengaged holder; idempotent; a shared cell loses exactly one reference, and a sole owner's cell is destroyed |
| `CopyOnWrite.CopyAssignAliases` | include/cow/optional.h:529-533 | after `dst = src`, `dst` shares `src`'s cell, no payload changes, and the view changes only at `dst` |
| `CopyOnWrite.MoveAssignTransfers` | include/cow/optional.h:571-575 | after `dst = move(src)`, `dst` observes what `src` did and `src` is disengaged |
| `CopyOnWrite.MoveAssignSelf` | include/cow/optional.h:514 | moving a holder onto itself changes nothing |
| `CopyOnWrite.AssignConvertedObservesConversion` | include/cow/optional.h:577-592 | a non-aliasing converting assignment observes the converted payload, or disengages |
| `CopyOnWrite.AssignFromInlineObservesSource` | include/cow/optional.h:594-607 | assignment from an inline holder observes what it held |
| `CopyOnWrite.SwapExchanges` | include/cow/optional.h:703-707 | `swap` exchanges what the two holders observe, changes no cell, and undoes itself |
| `SharedOptional.Store.constructor` | include/cow/optional.h:697 | model scaffolding with no source counterpart: a new store is empty and valid |
| `SharedOptional.Store.Create` | include/cow/optional.h:417-421 | appends a disengaged holder |
| `SharedOptional.Store.Emplace` | include/cow/optional.h:426-449 | appends a holder that owns a freshly allocated cell |
| `SharedOptional.Store.Copy` | include/cow/optional.h:451-458 | appends a holder that aliases `src`'s cell, with no allocation |
| `SharedOptional.Store.Move` | include/cow/optional.h:479-482 | appends a holder that takes `src`'s reference; `src` is nulled |
| `SharedOptional.Store.CopyConverted` | include/cow/optional.h:460-468 | appends a holder with the converted payload in a fresh cell |
| `SharedOptional.Store.FromInline` | include/cow/optional.h:471-477 | appends a holder with the inline holder's payload |
| `SharedOptional.Store.Reset` | include/cow/optional.h:682-685 | nulls `h`, destroys a cell left without references, and leaves every other view as it was |
| `SharedOptional.Store.AssignNullopt` | include/cow/optional.h:507-511 | the same as `Reset` |
| `SharedOptional.Store.SetValue` | include/cow/optional.h:516-522 | in place for a sole owner, otherwise a fresh cell; only `h`'s view changes |
| `SharedOptional.Store.CopyAssign` | include/cow/optional.h:524-533 | `dst` aliases `src`'s cell; only `dst`'s view changes |
| `SharedOptional.Store.MoveAssign` | include/cow/optional.h:566-575 | `dst` takes `src`'s view and `src` is disengaged; self-move changes nothing |
| `SharedOptional.Store.AssignConverted` | include/cow/optional.h:535-549 | `dst` observes the converted payload, or is disengaged |
| `SharedOptional.Store.AssignFromInline` | include/cow/optional.h:551-564 | `dst` observes the inline holder's contents |
| `SharedOptional.Store.Swap` | include/cow/optional.h:611-614 | exchanges the two holders' pointers and views |
| `SharedOptional.Store.HasValue` | include/cow/optional.h:638-641 | true exactly when the holder observes a payload |
| `SharedOptional.Store.UseCount` | include/cow/optional.h:674 | the number of holders that share `h`'s cell, or 0 |
| `SharedOptional.Store.Get` | include/cow/optional.h:618-631 | the observed payload of an engaged holder |
| `SharedOptional.Store.Value` | include/cow/optional.h:643-657 | fails exactly when disengaged; otherwise the observed payload |
| `SharedOptional.Store.ValueOr` | include/cow/optional.h:659-666 | `d` when disengaged; otherwise the observed payload |
| `SharedOptional.Store.ValueOrRvalue` | include/cow/optional.h:668-678 | the same value; moved exactly when the count is 1, so no other holder shares the cell |
| `SharedOptional.CopyThenWrite` | tests/optional_test.cpp:353-362 | the test's own steps on a struct payload: `v1{in_place, tracker{3}}; v2 = v1; v1 = tracker{51}` leaves `v1` with 51 and `v2` with 3, no longer sharing a cell |
| `Relational.Eq` | include/cow/optional.h:966-977 | holders are equal iff both are disengaged or both are engaged with equal payloads |
| `Relational.Ne` | include/cow/optional.h:979-990 | `!=` is the negation of `==` |
| `Relational.Lt` | include/cow/optional.h:992-1003 | no ensures of its own; its laws are `Relational.DisengagedIsLeast`, `Relational.EngagedCompareAsPayloads` and `Relational.LtIsStrictTotalOrder` |
| `Relational.Gt` | include/cow/optional.h:1005-1016 | `a > b` is `b < a` |
| `Relational.Le` | include/cow/optional.h:1018-1029 | `a <= b` is `a < b` or `a == b`, and it is `!(b < a)` |
| `Relational.Ge` | include/cow/optional.h:1031-1042 | `a >= b` is `!(a < b)`, and it is `b <= a` |
| `Relational.EngagedCompareAsPayloads` | include/cow/optional.h:966-1042 | two engaged holders compare as their payloads do, under all six operators |
| `Relational.DisengagedIsLeast` | include/cow/optional.h:992-1003 | disengaged is below every engaged holder, and two disengaged holders are equal |
| `Relational.LtIsStrictTotalOrder` | include/cow/optional.h:992-1003 | `<` is irreflexive, asymmetric, transitive and total up to `==` |
| `Relational.LeIsTotalOrder` | include/cow/optional.h:1018-1029 | `<=` is reflexive, antisymmetric, transitive and total |
| `Relational.EqNull` | include/cow/optional.h:1046-1050 | `h == nullopt` is `h == disengaged` |
| `Relational.NullEq` | include/cow/optional.h:1052-1056 | `nullopt == h` is `disengaged == h` |
| `Relational.NeNull` | include/cow/optional.h:1058-1062 | `h != nullopt` is `h != disengaged` |
| `Relational.NullNe` | include/cow/optional.h:1064-1068 | `nullopt != h` is `disengaged != h` |
| `Relational.LtNull` | include/cow/optional.h:1070-1074 | `h < nullopt` is `h < disengaged` |
| `Relational.NullLt` | include/cow/optional.h:1076-1080 | `nullopt < h` is `disengaged < h` |
| `Relational.LeNull` | include/cow/optional.h:1082-1086 | `h <= nullopt` is `h <= disengaged` |
| `Relational.NullLe` | include/cow/optional.h:1088-1092 | `nullopt <= h` is `disengaged <= h` |
| `Relational.GtNull` | include/cow/optional.h:1094-1098 | `h > nullopt` is `h > disengaged` |
| `Relational.NullGt` | include/cow/optional.h:1100-1104 | `nullopt > h` is `disengaged > h` |
| `Relational.GeNull` | include/cow/optional.h:1106-1110 | `h >= nullopt` is `h >= disengaged` |
| `Relational.NullGe` | include/cow/optional.h:1112-1116 | `nullopt >= h` is `disengaged >= h` |
| `Relational.NulloptIsLeast` | include/cow/optional.h:1046-1116 | `h == nullopt` iff `!h`; `nullopt <= h` always holds; `nullopt < h` iff `h` |
| `Relational.EqValue` | include/cow/optional.h:1120-1124 | `h == v` is `h == engaged(v)` |
| `Relational.ValueEq` | include/cow/optional.h:1126-1130 | `v == h` is `engaged(v) == h` |
| `Relational.NeValue` | include/cow/optional.h:1132-1136 | `h != v` is `h != engaged(v)` |
| `Relational.ValueNe` | include/cow/optional.h:1138-1142 | `v != h` is `engaged(v) != h` |
| `Relational.LtValue` | include/cow/optional.h:1144-1148 | `h < v` is `h < engaged(v)` |
| `Relational.ValueLt` | include/cow/optional.h:1150-1154 | `v < h` is `engaged(v) < h` |
| `Relational.LeValue` | include/cow/optional.h:1156-1160 | `h <= v` is `h <= engaged(v)` |
| `Relational.ValueLe` | include/cow/optional.h:1162-1166 | `v <= h` is `engaged(v) <= h` |
| `Relational.GtValue` | include/cow/optional.h:1168-1172 | `h > v` is `h > engaged(v)` |
| `Relational.ValueGt` | include/cow/optional.h:1174-1178 | `v > h` is `engaged(v) > h` |
| `Relational.GeValue` | include/cow/optional.h:1180-1184 | `h >= v` is `h >= engaged(v)` |
| `Relational.ValueGe` | include/cow/optional.h:1186-1190 | `v >= h` is `engaged(v) >= h` |
| `Relational.ValueComparisons` | include/cow/optional.h:1120-1190 | a disengaged holder is below every value; an engaged one compares with a value as its payload does |
| `Relational.Hash` | include/cow/optional.h:1222-1225 | no ensures of its own; its laws are `Relational.HashContract` and `Relational.HashRespectsEquality` |
| `Relational.HashContract` | include/cow/optional.h:1217-1226 | the hash is 0 when disengaged, and otherwise the payload's hash |
| `Relational.HashRespectsEquality` | include/cow/optional.h:1217-1226 | holders that compare equal have equal hashes |
| `Placement.SizeOf` | include/cow/optional.h:274-276 | `sizeof(T)`, at least one byte for an empty `std::array`; no ensures of its own, used by `Placement.HandlesAlwaysAllowed` and `Placement.TestedSelections` |
| `Placement.AllowInplacePlacement` | include/cow/optional.h:251-271 | no ensures of its own; its laws are `Placement.PlainAllowedIffTrivial`, `Placement.HandlesAlwaysAllowed` and `Placement.AggregatesAllowedIffPartsAllowed` |
| `Placement.AllAllowed` | include/cow/optional.h:264-268 | no ensures of its own; its law is `Placement.AllAllowedIff` |
| `Placement.UseInlineStorageDefault` | include/cow/optional.h:298-299 | the bound defaults to `sizeof(shared_ptr)`; no ensures of its own, its cases are `Placement.HandlesAlwaysAllowed` and `Placement.TestedSelections` |
| `Placement.UseInlineStorage` | include/cow/optional.h:274-283 | inline storage iff the library has `std::optional`, placement is allowed, and `sizeof(T)` is within the bound |
| `Placement.AllAllowedIff` | include/cow/optional.h:264-265 | the conjunction over the members holds iff every member is allowed |
| `Placement.AggregatesAllowedIffPartsAllowed` | include/cow/optional.h:264-271 | a tuple or pair is allowed iff every member is; an array iff its element is |
| `Placement.HandlesAlwaysAllowed` | include/cow/optional.h:255-262 | `shared_ptr`, `weak_ptr` and `exception_ptr` are always allowed, and the first two always fit the default bound |
| `Placement.PlainAllowedIffTrivial` | include/cow/optional.h:251-253 | any other type is allowed iff it is trivially copy-constructible and trivially copy-assignable |
| `Placement.UseInlineStorageMonotone` | include/cow/optional.h:274-276 | raising the size bound never turns inline storage off |
| `Placement.TestedSelections` | tests/optional_test.cpp:1354-1382 | the selections the repository's tests expect, with the default bound `sizeof(shared_ptr)` |
| `Conversions.DirectAllow` | include/cow/optional.h:311-322 | no ensures of its own; its law is `Conversions.DirectImplicitXorExplicit` |
| `Conversions.UnwrapAllow` | include/cow/optional.h:324-361 | no ensures of its own; its law is `Conversions.UnwrapRefusedByHolderConstruction` |
| `Conversions.UnwrapAllowCopyImplicit` | include/cow/optional.h:324-361 | no ensures of its own; its law is `Conversions.UnwrapImplicitXorExplicit` |
| `Conversions.UnwrapAllowCopyExplicit` | include/cow/optional.h:324-361 | no ensures of its own; its law is `Conversions.UnwrapImplicitXorExplicit` |
| `Conversions.UnwrapAllowMoveImplicit` | include/cow/optional.h:324-361 | no ensures of its own; its law is `Conversions.UnwrapImplicitXorExplicit` |
| `Conversions.UnwrapAllowMoveExplicit` | include/cow/optional.h:324-361 | no ensures of its own; its law is `Conversions.UnwrapImplicitXorExplicit` |
| `Conversions.DirectAllowImplicit` | include/cow/optional.h:311-322 | the implicit value constructor needs `allow` and convertibility |
| `Conversions.DirectAllowExplicit` | include/cow/optional.h:311-322 | the explicit value constructor needs `allow` and no convertibility |
| `Conversions.DirectImplicitXorExplicit` | include/cow/optional.h:311-322 | `allow_implicit` and `allow_explicit` exclude each other, and together they are `allow` |
| `Conversions.UnwrapAllowCopy` | include/cow/optional.h:324-361 | `allow_copy` needs `allow` and `T` constructible from `const U&` |
| `Conversions.UnwrapAllowMove` | include/cow/optional.h:324-361 | `allow_move` needs `allow` and `T` constructible from `U&&` |
| `Conversions.UnwrapImplicitXorExplicit` | include/cow/optional.h:324-361 | the implicit and explicit copy (and move) forms exclude each other, and together they are `allow_copy` (`allow_move`) |
| `Conversions.UnwrapRefusedByHolderConstruction` | include/cow/optional.h:324-361 | if `T` can be built from the holder under any reference kind, no unwrapping overload takes part |
| `Conversions.AssignUnwrapAllow` | include/cow/optional.h:374-394 | unwrapping assignment needs unwrapping construction |
| `Conversions.AssignUnwrapAllowCopy` | include/cow/optional.h:374-394 | the copy form also needs `T&` assignable from `const U&` |
| `Conversions.AssignUnwrapAllowMove` | include/cow/optional.h:374-394 | the move form also needs `T&` assignable from `U` |
| `Conversions.AssignDirectAllow` | include/cow/optional.h:363-372 | value assignment needs construction and assignment from `U`; a scalar assigned from its own type is excluded |
| `Conversions.SharedFromSharedCopy` | include/cow/optional.h:451-468 | a copy from a shared holder over `U` takes part iff `allow_copy`; it aliases iff `U*` converts to `T*`; otherwise it copies and is explicit |
| `Conversions.SharedFromSharedMove` | include/cow/optional.h:479-492 | the aliasing move needs only `U*` convertible to `T*`; otherwise an explicit copying move, under `allow_move` |
| `Conversions.SharedFromInline` | include/cow/optional.h:471-500 | construction of a shared holder from an inline one takes part iff `allow_copy` (`allow_move`), and is then always an explicit copy |
| `Conversions.InlineFromAny` | include/cow/optional.h:754-800 | construction of an inline holder always copies; it is implicit exactly when `U` converts to `T` |
| `Conversions.SharedAssignFromShared` | include/cow/optional.h:524-592 | assignment between shared holders takes part iff the assignment `allow_copy`/`allow_move` holds; an allowed one aliases exactly when `U*` converts to `T*`, and otherwise assigns the value |
| `Conversions.AssignAcrossOrInline` | include/cow/optional.h:825-867 | the remaining assignments always assign the value, and never alias |

## Left out

- Compile-time type queries. `std::is_constructible`, `is_convertible`, `is_assignable`, `is_same`, `is_scalar`, `is_trivially_copy_*` and `is_convertible<U*, T*>` are boolean inputs. Only the way the source combines them is modelled (`Conversions`, `Placement.Plain`).
- The `enable_if` overload resolution itself. `Conversions` states which converting overload takes part, but not how C++ ranks candidates.
- Payload types. Converting between holders of different payload types is modelled in one store over one payload type, with a `convert` function for `U` to `T`. `Store.Copy` and `Store.Move` stand for both the same-type and the aliasing converting forms.
- Exceptions from the payload type. The model treats constructing and assigning a payload as total. A payload constructor that throws inside `make_shared` (include/cow/optional.h:428, 467, 475, 491, 498, 694) leaves `data_`, and so every view, unchanged in the source; the model never takes that path. A payload assignment that throws in the in-place write of `set_value` (include/cow/optional.h:692) leaves the sole-owned payload in whatever state the payload's assignment gives it; this is not modelled either.
- `Store.SetValue` for a scalar payload. `assign_direct_conversation` excludes a scalar assigned from its own type (include/cow/optional.h:369), so for such a payload `h = x` builds a temporary holder through the implicit value constructor (include/cow/optional.h:439-443), which is `Store.Emplace`, and then move-assigns it (include/cow/optional.h:514), which is `Store.MoveAssign`. The in-place write never happens for it; that combined path, with its temporary holder, is not a member of the model.
- Concurrency. The atomicity of the `shared_ptr` reference count is not modelled; the count is a sequential counter. The check-then-act race in the rvalue `value_or` (count read, then move) is not modelled.
- Allocation and destruction. `make_shared` is the allocation of a fresh cell identifier, so an allocation failure (`std::bad_alloc`) is not modelled. A holder's destructor is not modelled; it would act like `Reset`. Holders are never removed from a store.
- What a payload looks like after it is moved from. Only the rvalue `value_or` of the shared variant moves the payload out of its cell (include/cow/optional.h:674-675); `SharedState.ValueOrRvalue` reports when it does, but the moved-from payload left in the cell is not modelled. The rvalue `operator*` and `value()` of the shared variant (include/cow/optional.h:628-631, 651-657) return `const T&&` to the shared payload and move nothing; they are modelled as the lvalue forms.
- `Store.Get` models `operator*` and `operator->` of an engaged holder only. On a null `data_`, `operator*` dereferences a null pointer, which is undefined; `operator->` returns a null pointer, which the model has no value for.
- The `std::initializer_list` constructors and `make_optional` forms (include/cow/optional.h:431-437, 1206-1211). They are in-place construction (`Store.Emplace`) with the list as the payload.
- The internals of `std::optional` behind the inline variant. It is `Option<T>`, and its move keeps the source engaged with a moved-from payload.
- The class template argument deduction guide (include/cow/optional.h:957-960). It is a compile-time rule.
- The `static_assert`s on `T` (include/cow/optional.h:400-407). They are compile-time rejections.
- Comparisons over mixed payload types `T`/`U`. `Relational` compares `int` payloads with their own operators.
- `Placement.Tuple` and `Placement.Pair`: their `sizeof` depends on the compiler's layout, so it is given with the shape. Sizes assume a 64-bit target, with `sizeof(shared_ptr)` = `sizeof(weak_ptr)` = 16 and `sizeof(exception_ptr)` = 8.
- examples/optional/main.cpp is not part of this model; it is console output.
- include/cow/detail/compatibility/utility.h and compile_features.h are not part of this model. They only supply the `in_place` tag and attribute macros.
- The copy and move generation counters of the repository's test helper (`tracker`). Its header is not part of this model.
