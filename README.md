# Reference-counted smart pointers, modelled in Dafny

This project models my_smart_pointers. The library is a set of C++ smart pointers:

- `SharedPtr` and `WeakPtr` with a shared control block, `MakeShared`, aliasing, and
  `EnableSharedFromThis`;
- `IntrusivePtr`, whose reference counter lives inside the object;
- `UniquePtr`, for exclusive ownership, with its array specialisation and the `Slug` default
  deleter.

Every operation of these classes is modelled as a Dafny method over heap objects. It mutates
the same fields the C++ code mutates, and its contract states the new counters, the new
fields and which deleter calls happened.

- `lifecycle.dfy` (module `Lifecycle`) treats one control block's bookkeeping as a value:
  - the strong and weak counters;
  - how many times `Dispose` (destroy the object) and `Destroy` (free the block) have run.

  The step functions `AddStrong`, `AddWeak`, `DropStrong`, `DropWeak` and `Promote` describe
  one handle operation each. Lemmas over arbitrary sequences of such steps prove:
  - the lifecycle invariant holds (`Dispose` once exactly when strong reaches 0, `Destroy`
    once exactly when both counts are 0);
  - `Dispose` and `Destroy` each run at most once, and `Destroy` never runs before `Dispose`;
  - nothing is resurrected after expiry.
- `shared.dfy` (module `SharedOwnership`) covers the control block (both the
  `ControlBlockPtr` and the `ControlBlockHolder` variant), `SharedPtr`, `WeakPtr`,
  `MakeShared`, `operator==` and `EnableSharedFromThis`.
  - Each block keeps ghost sets of the `SharedPtr` handles holding its strong shares
    (`owners`) and of the `WeakPtr` handles holding its weak shares (`watchers`).
  - `ControlBlock.Valid` states the central invariant: `strong == |owners|`,
    `weak == |watchers|`, every such handle points back at the block, and the counters satisfy
    `Lifecycle.Consistent`.
  - Every constructor, assignment, `Release`, `Reset` and `Swap` keeps this invariant. Each
    states its effect on the block through the `Lifecycle` step functions.
  - Whether the element type derives from `EnableSharedFromThis` is a boolean `esft`. The
    object's hidden `weak_this_` member is a `WeakPtr` reached from the object.
- `intrusive.dfy` (module `Intrusive`) covers `SimpleCounter`, with its `size_t` wrap-around
  written out, `RefCounted`, `IntrusivePtr` and `MakeIntrusive`. A ghost `holders` set and a
  ghost `deletions` count show that the counter counts the handles, and that
  `DefaultDelete::Destroy` runs exactly when the last one leaves.
- `unique.dfy` (module `Unique`) covers `UniquePtr` for single objects and arrays, and its
  deleters.
  - Each allocation records its ghost owner and the deleters it has been handed (`freedBy`).
    This states that `Release` never frees, that `Reset` and move assignment free the old
    allocation exactly once with the old deleter, and that nothing is freed twice.
  - The array specialisation's default deleter is `delete[]`.
- `scenarios.dfy` (modules `SharedScenarios`, `IntrusiveScenarios`, `UniqueScenarios`) holds
  fixed sequences of operations whose observable results are proved: use counts, emptiness and
  which objects were freed. Among them is the self-reference quirk described below.

Two behaviours of the self-reference are worth knowing:

- `SharedPtr::Release` resets a self-referencing object's `weak_this_` on every release whose
  self-reference is still live, not only on the last one (weak/shared.h:288-292). This differs
  from `std::enable_shared_from_this`, whose weak reference stays valid while any owner is
  left. `SharedScenarios.SelfReferenceLostAfterCopyRelease` proves the consequence: after a copy
  is released, `SharedFromThis` yields an empty `SharedPtr` although the original owner still
  holds the object.
- The self-reference is registered (`weak_this_ = *this`) only by these `SharedPtr`
  constructors: adopting, copy, move and holder. It is not registered by the assignments, the
  promotion, the aliasing constructor or `Reset(Y*)`. `SharedPtr.ResetTo` and
  `SharedScenarios.ResetToAnotherObject` therefore leave it empty.

## Model

| member | source | states |
|---|---|---|
| Lifecycle.Promote | weak/shared.h:194-201 | Promotion fails exactly when the block has expired; otherwise strong rises by one and weak is unchanged |
| Lifecycle.StepKeepsConsistent | weak/shared.h:286-302 | Every enabled handle step keeps the invariant: disposed once iff strong is 0, destroyed once iff both counts are 0 |
| Lifecycle.RunKeepsConsistent | weak/shared.h:286-302 | Every legal sequence of handle operations keeps that invariant |
| Lifecycle.DisposeAndDestroyAtMostOnce | weak/shared.h:293-299 | From a block's birth, Dispose runs at most once, and Destroy runs no more often than Dispose |
| Lifecycle.ExpiryIsPermanent | shared-from-this/weak.h:165-174 | Once strong is 0 it stays 0 whatever follows, so every later promotion fails and the object is never disposed again |
| Lifecycle.EventsOnlyAccumulate | weak/shared.h:294-299 | Dispose and Destroy counts never decrease |
| Lifecycle.DestroyedIsFinal | weak/shared.h:297-299 | After Destroy no handle operation on the block is possible |
| Lifecycle.WeakShareKeepsBlock | shared-from-this/weak.h:136-144 | While a weak share exists the block is not destroyed, and it is expired iff its object was disposed |
| Lifecycle.SelfResetNeverDestroys | weak/shared.h:288-299 | Resetting the self-reference before dropping the strong share never destroys the block, and both steps keep the invariant |
| SharedOwnership.ControlBlock.AdoptPointer | weak/shared.h:69-73 | A block adopting a non-null pointer starts with strong 1 and weak 0; a null pointer leaves strong 0 |
| SharedOwnership.ControlBlock.HoldInline | weak/shared.h:89-93 | The holder builds a fresh object in place and starts with strong 1, weak 0 |
| SharedOwnership.ControlBlock.GetStrongRefsCount | weak/shared.h:20-22 | The strong counter equals the number of SharedPtr handles on the block |
| SharedOwnership.ControlBlock.GetWeakRefsCount | weak/shared.h:36-38 | The weak counter equals the number of WeakPtr handles on the block |
| SharedOwnership.ControlBlock.IsZeroStrongOwning | weak/shared.h:32-34 | Strong is 0 iff no SharedPtr is left, iff the object has been disposed |
| SharedOwnership.ControlBlock.IsZeroWeakOwning | weak/shared.h:48-50 | Weak is 0 iff no WeakPtr is left |
| SharedOwnership.ControlBlock.AddStrongRef | weak/shared.h:24-26 | Strong rises by one; nothing else changes |
| SharedOwnership.ControlBlock.RemoveStrongRef | weak/shared.h:28-30 | Strong falls by one; nothing else changes |
| SharedOwnership.ControlBlock.AddWeakRef | weak/shared.h:40-42 | Weak rises by one; nothing else changes |
| SharedOwnership.ControlBlock.RemoveWeakRef | weak/shared.h:44-46 | Weak falls by one; nothing else changes |
| SharedOwnership.ControlBlock.Dispose | weak/shared.h:75-77 | Records one disposal of the object; the counters are untouched |
| SharedOwnership.ControlBlock.Destroy | weak/shared.h:52-54 | Records one destruction of the block; the counters are untouched |
| SharedOwnership.SharedPtr.Empty | weak/shared.h:126-130 | The default and nullptr handles have no pointer and no block |
| SharedOwnership.SharedPtr.Adopt | weak/shared.h:132-140 | Adopting a raw pointer makes a fresh ControlBlockPtr with this handle as its only owner, and registers the self-reference, which adds one weak share |
| SharedOwnership.SharedPtr.Copy | weak/shared.h:142-159 | A copy shares the source's pointer and block, raises strong by exactly one and registers the self-reference |
| SharedOwnership.SharedPtr.Move | weak/shared.h:161-167 | A move takes both fields with no strong change, registers the self-reference and empties the source |
| SharedOwnership.SharedPtr.FromHolder | weak/shared.h:170-176 | Wrapping a fresh holder adds no strong share: the count stays 1 and this handle is the only owner |
| SharedOwnership.SharedPtr.Alias | weak/shared.h:180-185 | The alias observes the given pointer, shares the other handle's block and raises strong by one |
| SharedOwnership.SharedPtr.FromWeak | weak/shared.h:194-201 | Promotion gives BadWeakPtr iff the WeakPtr has expired, and then changes nothing; otherwise it gives a new owner with both fields copied and strong one higher |
| SharedOwnership.SharedPtr.AssignCopy | weak/shared.h:206-216 | Self-assignment changes nothing; otherwise the old block drops one strong share, and the handle then shares `other`'s block, whose strong count is one higher |
| SharedOwnership.SharedPtr.AssignMove | weak/shared.h:218-226 | Self-move changes nothing; otherwise the old share is released, and `other`'s share moves over with no counter change, leaving `other` empty |
| SharedOwnership.SharedPtr.Release | weak/shared.h:286-302 | The handle ends empty. A live self-reference is reset first, then strong drops (Lifecycle.Released): Dispose runs when strong reaches 0, Destroy when both counts are 0 |
| SharedOwnership.SharedPtr.Zeroing | weak/shared.h:238-241 | Both fields are null |
| SharedOwnership.SharedPtr.Reset | weak/shared.h:243-245 | Releases the share as Release does, and the handle manages nothing |
| SharedOwnership.SharedPtr.ResetTo | weak/shared.h:247-252 | The old share is released, then the handle solely owns `p` in a fresh ControlBlockPtr with strong 1 and weak 0 |
| SharedOwnership.SharedPtr.Swap | weak/shared.h:254-257 | Both fields are exchanged; each block keeps its counts and watchers, and its owner set only trades one swapped handle for the other (unchanged within one block) |
| SharedOwnership.SharedPtr.Get | weak/shared.h:262-264 | Returns the observed pointer, which for a self-referencing type is the block's object |
| SharedOwnership.SharedPtr.UseCount | weak/shared.h:274-279 | The number of SharedPtr handles on the block (at least 1), or 0 with no block |
| SharedOwnership.SharedPtr.IsSet | weak/shared.h:281-283 | True iff the observed pointer is non-null, whatever the block |
| SharedOwnership.Equal | weak/shared.h:305-308 | Two handles are equal iff their observed pointers are equal |
| SharedOwnership.MakeShared | weak/shared.h:311-314 | A fresh holder whose inline object is the handle's pointer, with UseCount 1 and the handle as the only owner |
| SharedOwnership.Obj.SharedFromThis | weak/shared.h:326-332 | Empty while the self-reference is empty; otherwise a new owner of the object's block, with strong one higher |
| SharedOwnership.Obj.WeakFromThis | weak/shared.h:334-340 | A copy of the self-reference, adding one weak share when it is registered |
| SharedOwnership.WeakPtr.Empty | shared-from-this/weak.h:22 | The default WeakPtr refers to nothing |
| SharedOwnership.WeakPtr.Copy | shared-from-this/weak.h:24-35 | A copy shares both fields and raises weak by exactly one |
| SharedOwnership.WeakPtr.Move | shared-from-this/weak.h:37-44 | A move takes both fields with no counter change and empties the source |
| SharedOwnership.WeakPtr.Demote | shared-from-this/weak.h:48-52 | A WeakPtr made from a SharedPtr copies both fields and raises only weak; strong is unchanged |
| SharedOwnership.WeakPtr.AssignCopy | shared-from-this/weak.h:64-87 | Self-assignment changes nothing; otherwise the old block drops a weak share, and `other`'s block gains one |
| SharedOwnership.WeakPtr.AssignShared | shared-from-this/weak.h:89-98 | The old weak share is released first, then a weak share of the SharedPtr's block is taken; assigning from a handle on the same block leaves its counts unchanged |
| SharedOwnership.WeakPtr.AssignMove | shared-from-this/weak.h:100-119 | Self-move changes nothing; otherwise the old share is released, and `other`'s share moves over with no counter change, leaving `other` empty |
| SharedOwnership.WeakPtr.Release | shared-from-this/weak.h:136-144 | Weak drops by one, Destroy runs only when both counts are 0, and the handle ends empty |
| SharedOwnership.WeakPtr.Zeroing | shared-from-this/weak.h:131-134 | Both fields are null |
| SharedOwnership.WeakPtr.Reset | shared-from-this/weak.h:146-148 | Releases the weak share as Release does |
| SharedOwnership.WeakPtr.Swap | shared-from-this/weak.h:150-153 | Both fields are exchanged; each block keeps its counts and owners, and its watcher set only trades one swapped handle for the other (unchanged within one block) |
| SharedOwnership.WeakPtr.UseCount | shared-from-this/weak.h:158-163 | The number of owners of the block, or 0 with no block |
| SharedOwnership.WeakPtr.Expired | shared-from-this/weak.h:165-167 | Expired iff UseCount is 0, iff no owner is left, iff the object has been disposed |
| SharedOwnership.WeakPtr.Lock | shared-from-this/weak.h:172-174 | Never fails: an empty SharedPtr when expired, leaving the block untouched; otherwise a new owner with strong one higher |
| SharedScenarios.CopyThenRelease | weak/shared.h:142-149 | A copy raises UseCount to 2, and releasing it returns the count to 1 with the original still set |
| SharedScenarios.PromoteWhileOwned | shared-from-this/weak.h:172-174 | With an owner alive, Lock and the promoting constructor both succeed, and the count reaches 3 |
| SharedScenarios.ExpiredRefusesPromotion | weak/shared.h:194-197 | After the last owner is reset, the WeakPtr has expired, promotion throws BadWeakPtr and Lock is empty |
| SharedScenarios.SharedFromThisOwnedAndUnowned | weak/shared.h:326-328 | SharedFromThis on an owned object adds an owner, and on an unowned one it is empty |
| SharedScenarios.SelfReferenceLostAfterCopyRelease | weak/shared.h:288-292 | After a copy is released, SharedFromThis is empty although the original owner remains |
| SharedScenarios.AliasKeepsBlockAlive | weak/shared.h:180-185 | An alias keeps the block alive after the original is reset, and it is then the only owner |
| SharedScenarios.MoveKeepsCount | weak/shared.h:161-167 | A move keeps UseCount at 1 and empties the source |
| SharedScenarios.ResetToAnotherObject | weak/shared.h:247-252 | Reset(Y*) disposes the first object and frees its block; the handle alone owns the second |
| SharedScenarios.SwapKeepsOtherOwners | weak/shared.h:254-257 | After a swap, a copy left on the first block still reports 2 owners, and the swapped handle reports 1 |
| SharedScenarios.WeakSwapKeepsOtherWatchers | shared-from-this/weak.h:150-153 | Swapping a WeakPtr with an empty one moves its weak share, and another WeakPtr on the block still sees the owner |
| Intrusive.Increment | intrusive/intrusive.h:17-19 | `++count_` on size_t: the result is count+1 modulo 2^64, and 0 exactly when count was the maximum |
| Intrusive.Decrement | intrusive/intrusive.h:21-23 | `--count_` on size_t: Increment undoes it, and it wraps to the maximum exactly from 0 |
| Intrusive.DecrementUndoesIncrement | intrusive/intrusive.h:98-104 | An increment followed by a decrement, as in the move constructor, leaves any counter where it was |
| Intrusive.SimpleCounter.constructor | intrusive/intrusive.h:8 | A new counter is 0 |
| Intrusive.SimpleCounter.Copy | intrusive/intrusive.h:10 | A copied counter starts from 0, not from the source's count |
| Intrusive.SimpleCounter.AssignFrom | intrusive/intrusive.h:12-15 | Copy assignment leaves the target's count unchanged |
| Intrusive.SimpleCounter.IncRef | intrusive/intrusive.h:17-19 | The count is incremented with wrap-around, and the new count is returned |
| Intrusive.SimpleCounter.DecRef | intrusive/intrusive.h:21-23 | The count is decremented with wrap-around, and the new count is returned |
| Intrusive.SimpleCounter.RefCount | intrusive/intrusive.h:25-27 | Returns the count |
| Intrusive.RefCounted.IncRef | intrusive/intrusive.h:44-46 | The embedded counter is incremented |
| Intrusive.RefCounted.DecRef | intrusive/intrusive.h:50-55 | The counter is decremented, and the deleter runs exactly when the count becomes 0 |
| Intrusive.RefCounted.RefCount | intrusive/intrusive.h:58-60 | The count equals the number of IntrusivePtr handles holding the object |
| Intrusive.IntrusivePtr.Empty | intrusive/intrusive.h:79-81 | The default and nullptr handles are null |
| Intrusive.IntrusivePtr.FromRaw | intrusive/intrusive.h:83-89 | A non-null pointer gains one reference; null gives an empty handle |
| Intrusive.IntrusivePtr.Copy | intrusive/intrusive.h:106-110 | A copy points at the same object and raises its count by one |
| Intrusive.IntrusivePtr.Move | intrusive/intrusive.h:112-117 | A move increments then releases the source, so the count ends unchanged (even across the size_t wrap), the new handle replaces the source among the holders, and the source is null |
| Intrusive.IntrusivePtr.Release | intrusive/intrusive.h:192-197 | The reference is dropped, the object is deleted iff this was its last handle, and the handle ends null |
| Intrusive.IntrusivePtr.Zeroing | intrusive/intrusive.h:199-201 | The pointer is null |
| Intrusive.IntrusivePtr.Reset | intrusive/intrusive.h:151-153 | Releases the reference and leaves the handle null |
| Intrusive.IntrusivePtr.ResetTo | intrusive/intrusive.h:155-161 | The old object loses a reference (and is deleted if it was the last), then the new non-null object gains one |
| Intrusive.IntrusivePtr.AssignCopy | intrusive/intrusive.h:120-130 | Assignment between handles on the same object does nothing; otherwise release the old object and take a reference to the new one |
| Intrusive.IntrusivePtr.AssignMove | intrusive/intrusive.h:132-143 | Between handles on the same object nothing happens and the source keeps its reference; otherwise the old object is released and the reference moves, leaving the source null |
| Intrusive.IntrusivePtr.Swap | intrusive/intrusive.h:163-165 | Only the pointers are exchanged; every count is unchanged, and each object's holder set trades one swapped handle for the other |
| Intrusive.IntrusivePtr.Get | intrusive/intrusive.h:168-170 | Returns the pointer |
| Intrusive.IntrusivePtr.UseCount | intrusive/intrusive.h:180-185 | The number of handles on the object (at least 1), or 0 when null |
| Intrusive.IntrusivePtr.IsSet | intrusive/intrusive.h:187-189 | True iff the pointer is non-null |
| Intrusive.MakeIntrusive | intrusive/intrusive.h:204-207 | A fresh object held by exactly one handle, with UseCount 1 |
| IntrusiveScenarios.CounterCopySemantics | intrusive/intrusive.h:8-23 | A copied counter is 0, copy assignment keeps the target's count, and decrementing 0 wraps to the maximum |
| IntrusiveScenarios.LastHandleDeletes | intrusive/intrusive.h:50-55 | With two handles, the first reset leaves the object alive with count 1, and the second deletes it |
| IntrusiveScenarios.MoveKeepsCount | intrusive/intrusive.h:112-117 | A move keeps the count at 1 and empties the source |
| IntrusiveScenarios.SameObjectMoveKeepsSource | intrusive/intrusive.h:132-135 | A move between handles on the same object leaves the count at 2 and the source set |
| IntrusiveScenarios.MoveAssignAcrossObjects | intrusive/intrusive.h:132-143 | A move from another object deletes the old one, keeps count 1 and empties the source |
| IntrusiveScenarios.SwapKeepsThirdHandle | intrusive/intrusive.h:163-165 | After a swap, a third handle on the first object still reports 2 holders |
| IntrusiveScenarios.ResetThenSwap | intrusive/intrusive.h:155-165 | Reset(T*) deletes the old object; Swap then exchanges the objects, each keeping count 1 |
| Unique.DefaultDeleterMatchesAllocation | unique/unique.h:17-36 | The default deleter (Slug<T> or Slug<T[]>) uses the form of `delete` matching an allocation exactly when the handle's specialisation agrees with how the allocation was made |
| Unique.UniquePtr.constructor | unique/unique.h:49 | Adopts the pointer with the default deleter; the handle's form agrees with its allocation iff the allocation is null or was made with the matching form of `new` |
| Unique.UniquePtr.WithDeleter | unique/unique.h:51-52 | Adopts the pointer with the given deleter; the form agrees iff the allocation has the handle's form and a Slug deleter uses the matching `delete` |
| Unique.UniquePtr.Move | unique/unique.h:54-57 | Takes the other's pointer (via Release) and deleter, frees nothing, and leaves the other null; the new handle agrees with its allocation iff the other did |
| Unique.UniquePtr.Release | unique/unique.h:93-97 | Returns the held pointer unfreed and unowned, and leaves the handle null |
| Unique.UniquePtr.Reset | unique/unique.h:99-105 | Stores the new pointer, then hands the old one, if non-null, to the deleter exactly once; a handle whose form agrees with its allocation frees it with the matching `delete`, and keeps agreeing iff the new pointer has its form |
| Unique.UniquePtr.Free | unique/unique.h:17-21 | The stored deleter records one call on an allocation this handle owned |
| Unique.UniquePtr.AssignMove | unique/unique.h:68-73 | Reset(other.Release()) then adopt other's deleter: the old allocation is freed once with the old deleter (with the matching `delete` when the form agreed), and a self-move keeps the pointer |
| Unique.UniquePtr.AssignNull | unique/unique.h:75-78 | Reset(): the held allocation, if any, is freed once and the handle becomes null |
| Unique.UniquePtr.Destruct | unique/unique.h:83-88 | The deleter is called only when the held pointer is non-null, and with the matching form of `delete` when the handle's form agrees |
| Unique.UniquePtr.Swap | unique/unique.h:107-110 | Pointers and deleters are both exchanged, and each handle agrees with its new allocation iff the other did |
| Unique.UniquePtr.Get | unique/unique.h:115-117 | Returns the stored pointer |
| Unique.UniquePtr.GetDeleter | unique/unique.h:119-125 | Returns the stored deleter |
| Unique.UniquePtr.IsSet | unique/unique.h:127-129 | True iff the stored pointer is non-null |
| Unique.UniquePtr.At | unique/unique.h:235-237 | operator[] of the array specialisation reads element i of the owned array |
| UniqueScenarios.ReleaseThenAdopt | unique/unique.h:93-97 | Release frees nothing, and another handle can adopt the same allocation |
| UniqueScenarios.ResetFreesOldOnce | unique/unique.h:99-105 | Reset frees the old allocation exactly once with Slug<T> and leaves the new one unfreed |
| UniqueScenarios.ArrayUsesArrayDelete | unique/unique.h:179-209 | The array handle reads its elements and frees with Slug<T[]> (`delete[]`) |
| UniqueScenarios.MoveCarriesDeleter | unique/unique.h:54-57 | Move construction carries the pointer and deleter over and frees nothing |
| UniqueScenarios.MoveAssignUsesOldDeleter | unique/unique.h:68-73 | Move assignment frees the old allocation with the old deleter, and a self-move keeps the pointer |
| UniqueScenarios.SwapExchangesDeleters | unique/unique.h:107-110 | Swap exchanges both pointers and deleters |

## Left out

- Destructors: `~SharedPtr`, `~WeakPtr` and `~IntrusivePtr` only call Release, so they are modelled by `Release`/`Reset`. `~UniquePtr` is `Unique.UniquePtr.Destruct`.
- Null raw pointers in SharedPtr: `SharedPtr.Adopt` and `SharedPtr.ResetTo` require a non-null object. The source builds a ControlBlockPtr with strong 0 for a null pointer (that case is modelled in `ControlBlock.AdoptPointer`), and releasing such a handle decrements a `size_t` counter from 0, which wraps.
- SharedPtr.Copy, SharedPtr.Move: for a self-referencing type they require a non-null source pointer, because the source dereferences `other.ptr_` without a null test to register the self-reference.
- SharedPtr.Alias: modelled only for types that do not derive from EnableSharedFromThis, because a self-referencing handle is kept observing its block's own object.
- The rvalue aliasing constructor (weak/shared.h:187-190) calls Zeroing on a const reference and does not compile when instantiated. The WeakPtr constructor whose template parameter cannot be deduced (shared-from-this/weak.h:54-59) is unusable. Neither is modelled.
- Template conversions (`Y` to `T`) and the const overloads of SharedFromThis/WeakFromThis/GetDeleter: one element type is used, so each converting overload is the same member as its plain twin.
- Memory mechanics of ControlBlockHolder (aligned storage, placement new, launder, destroy_at) and the holder's `GetPtr`: the inline object is an abstract `Obj`, and Dispose/Destroy are ghost event counts.
- `operator*` and `operator->` of every pointer: they only dereference `Get()`, and no object contents are modelled for shared or intrusive objects.
- unique/compressed_pair.h: a storage-layout optimisation, so the pointer and the deleter are two plain fields.
- Exceptions: `BadWeakPtr` is the `Promotion.BadWeakPtr` result value of `SharedPtr.FromWeak`.
- Thread safety: the library has none, and the model is sequential.
- SharedPtr.Swap, WeakPtr.Swap: between handles on different blocks they are implemented as moves through a temporary handle, which reaches the same final fields and counters as the two field swaps.
- WeakPtr.AssignCopy, WeakPtr.AssignMove, WeakPtr.Swap: they require that the target is not an object's `weak_this_` member, which in the source only SharedPtr assigns. WeakPtr.AssignShared on that member requires the SharedPtr to be on its own object's block.
- IntrusivePtr.Copy, IntrusivePtr.FromRaw, IntrusivePtr.AssignCopy, IntrusivePtr.ResetTo: they require the counter to be below the `size_t` maximum, so that the extra reference does not wrap it to 0. The wrap itself is modelled in `Intrusive.Increment`. The move constructor and move assignment need no bound: their increment is undone by the release of the source.
- IntrusivePtr.ResetTo: resetting to the object the handle already holds requires another handle to keep it alive, because the source releases the object before taking the new reference.
- UniquePtr.Reset: the new pointer must be loose (not owned by any UniquePtr), which excludes resetting to the handle's own pointer. In the source that frees the object while it is still held.
- The converting deleter constructors of Slug (`Slug(Slug<Up>&&)`) are not modelled: deleters are values, and move assignment copies them.
- Allocation contents are `int` cells: the element type is abstract in the source.
- The SharedPtr and WeakPtr counters are unbounded `nat`, so the `size_t` overflow of `AddStrongRef` and `AddWeakRef` is not modelled: reaching it would take 2^64 live handles on one block.
- A deleter of the wrong form is not excluded: a handle may adopt an allocation made with the other form of `new`, which the source accepts and which is undefined behaviour in C++. `UniquePtr.FormAgrees` records whether a handle is in the well-formed case.
