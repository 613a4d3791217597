/**
  Client code over SharedPtr and WeakPtr: short sequences of handle operations on
  fresh objects, each stating what the counters and observers report at its end.
  They exercise the contracts of shared.dfy the way a caller sees them.
*/
module SharedScenarios {
  import opened Lifecycle
  import opened SharedOwnership

  /// Copies share one count: a copy raises UseCount to 2 on both handles, releasing
  /// the copy brings it back to 1 and leaves the original set.
  method CopyThenRelease(esft: bool) returns (afterCopy: nat, afterRelease: nat, stillSet: bool)
    ensures afterCopy == 2 && afterRelease == 1 && stillSet
  {
    var sp := MakeShared(esft);
    var copy := new SharedPtr.Copy(sp);
    afterCopy := sp.UseCount();
    assert copy.UseCount() == afterCopy;
    copy.Reset();
    afterRelease := sp.UseCount();
    stillSet := sp.IsSet();
  }

  /// While an owner is left a WeakPtr sees it, and both Lock and the promoting
  /// constructor yield one more owner of the block.
  method PromoteWhileOwned(esft: bool) returns (use: nat, locked: bool, promoted: bool, useAfter: nat)
    ensures use == 1 && locked && promoted && useAfter == 3
  {
    var sp := MakeShared(esft);
    var w := new WeakPtr.Demote(sp);
    use := w.UseCount();
    var l := w.Lock();
    locked := l.IsSet();
    var r := SharedPtr.FromWeak(w);
    promoted := r.Promoted?;
    useAfter := sp.UseCount();
  }

  /// A WeakPtr outlives the last owner: once that owner is reset the WeakPtr has
  /// expired, the promoting constructor throws BadWeakPtr and Lock returns an empty
  /// SharedPtr.
  method ExpiredRefusesPromotion(esft: bool) returns (expired: bool, promoted: bool, locked: bool)
    ensures expired && !promoted && !locked
  {
    var sp := MakeShared(esft);
    var w := new WeakPtr.Demote(sp);
    sp.Reset();
    expired := w.Expired();
    var r := SharedPtr.FromWeak(w);
    promoted := r.Promoted?;
    var l := w.Lock();
    locked := l.IsSet();
  }

  /// SharedFromThis on an object owned through MakeShared yields another owner of the
  /// same block; on an object no SharedPtr owns yet it yields an empty SharedPtr.
  method SharedFromThisOwnedAndUnowned() returns (ownedSet: bool, ownedUse: nat, unownedSet: bool)
    ensures ownedSet && ownedUse == 2
    ensures !unownedSet
  {
    var sp := MakeShared(true);
    var again := sp.ptr.SharedFromThis();
    ownedSet := again.IsSet() && Equal(again, sp);
    ownedUse := sp.UseCount();
    var loose := new Obj(true);
    var none := loose.SharedFromThis();
    unownedSet := none.IsSet();
  }

  /// SharedPtr::Release resets the object's self-reference on every release, not only
  /// the last: once a copy is released, SharedFromThis yields an empty SharedPtr even
  /// though the original owner still holds the object.
  method SelfReferenceLostAfterCopyRelease() returns (ownerUse: nat, fromThisSet: bool)
    ensures ownerUse == 1
    ensures !fromThisSet
  {
    var sp := MakeShared(true);
    var copy := new SharedPtr.Copy(sp);
    copy.Reset();
    ownerUse := sp.UseCount();
    var again := sp.ptr.SharedFromThis();
    fromThisSet := again.IsSet();
  }

  /// The aliasing constructor keeps the whole block alive: after the original owner
  /// is reset the alias is the only owner and still observes its own pointer.
  method AliasKeepsBlockAlive() returns (aliasUse: nat, observesMember: bool, ownerSet: bool)
    ensures aliasUse == 1 && observesMember && !ownerSet
  {
    var sp := MakeShared(false);
    var member := new Obj(false);
    var alias := new SharedPtr.Alias(sp, member);
    sp.Reset();
    aliasUse := alias.UseCount();
    observesMember := alias.Get() == member;
    ownerSet := sp.IsSet();
  }

  /// Moving a SharedPtr transfers its share: the count stays 1 and the source is empty.
  method MoveKeepsCount(esft: bool) returns (use: nat, sourceSet: bool)
    ensures use == 1 && !sourceSet
  {
    var sp := MakeShared(esft);
    var moved := new SharedPtr.Move(sp);
    use := moved.UseCount();
    sourceSet := sp.IsSet();
  }

  /// Adopting a raw pointer, then Reset(Y*) to a second object: the first block has
  /// disposed its object and, with no WeakPtr left on it (the self-reference of a
  /// self-referencing object was reset first), freed itself; the handle owns the
  /// second object alone.
  method ResetToAnotherObject(esft: bool) returns (use: nat, firstDisposed: bool, firstFreed: bool)
    ensures use == 1 && firstDisposed && firstFreed
  {
    var o1 := new Obj(esft);
    var sp := new SharedPtr.Adopt(o1);
    var first := sp.cb;
    var o2 := new Obj(esft);
    sp.ResetTo(o2);
    use := sp.UseCount();
    firstDisposed := first.IsZeroStrongOwning();
    firstFreed := first.IsZeroStrongOwning() && first.IsZeroWeakOwning();
  }

  /// Swap moves each share to the other handle without disturbing the rest of either
  /// block: a copy left on the first block still counts 2 owners.
  method SwapKeepsOtherOwners() returns (copyUse: nat, swappedUse: nat)
    ensures copyUse == 2 && swappedUse == 1
  {
    var a := MakeShared(false);
    var copy := new SharedPtr.Copy(a);
    var b := MakeShared(false);
    a.Swap(b);
    copyUse := copy.UseCount();
    swappedUse := a.UseCount();
  }

  /// Swapping a WeakPtr with an empty one moves its weak share over and leaves another
  /// WeakPtr on the same block valid: it still sees the owner.
  method WeakSwapKeepsOtherWatchers() returns (watcherExpired: bool, swappedUse: nat, sourceUse: nat)
    ensures !watcherExpired && swappedUse == 1 && sourceUse == 0
  {
    var sp := MakeShared(false);
    var wa := new WeakPtr.Demote(sp);
    var w := new WeakPtr.Copy(wa);
    var wb := new WeakPtr.Empty(false);
    wa.Swap(wb);
    watcherExpired := w.Expired();
    swappedUse := wb.UseCount();
    sourceUse := wa.UseCount();
  }
}

/**
  Client code over IntrusivePtr and its counter.
*/
module IntrusiveScenarios {
  import opened Intrusive

  /// SimpleCounter's copy operations do not copy the count: a copy starts from 0 and a
  /// copy assignment keeps the target's own count. Decrementing 0 wraps to SizeMax.
  method CounterCopySemantics() returns (copied: Size, afterAssign: Size, wrapped: Size)
    ensures copied == 0 && afterAssign == 1 && wrapped == SizeMax
  {
    var c := new SimpleCounter();
    var n := c.IncRef();
    n := c.IncRef();
    var d := new SimpleCounter.Copy(c);
    copied := d.RefCount();
    var e := new SimpleCounter();
    n := e.IncRef();
    e.AssignFrom(c);
    afterAssign := e.RefCount();
    var f := new SimpleCounter();
    wrapped := f.DecRef();
  }

  /// Two handles on one object: the first reset leaves the object alive with one
  /// reference, the second hands it to the deleter.
  method LastHandleDeletes() returns (afterCopy: nat, afterFirst: nat, ghost deletedEarly: bool, ghost deletedAtEnd: bool)
    ensures afterCopy == 2 && afterFirst == 1
    ensures !deletedEarly && deletedAtEnd
  {
    var a := MakeIntrusive();
    var obj := a.ptr;
    var b := new IntrusivePtr.Copy(a);
    afterCopy := a.UseCount();
    a.Reset();
    afterFirst := b.UseCount();
    deletedEarly := obj.deletions == 1;
    b.Reset();
    deletedAtEnd := obj.deletions == 1;
  }

  /// The move constructor increments and then releases the source: the count is
  /// unchanged and the source is empty.
  method MoveKeepsCount() returns (use: nat, sourceSet: bool)
    ensures use == 1 && !sourceSet
  {
    var a := MakeIntrusive();
    var b := new IntrusivePtr.Move(a);
    use := b.UseCount();
    sourceSet := a.IsSet();
  }

  /// Move assignment between two handles on the same object does nothing: unlike a
  /// move between different objects, the source keeps its reference.
  method SameObjectMoveKeepsSource() returns (use: nat, sourceSet: bool)
    ensures use == 2 && sourceSet
  {
    var a := MakeIntrusive();
    var b := new IntrusivePtr.Copy(a);
    a.AssignMove(b);
    use := a.UseCount();
    sourceSet := b.IsSet();
  }

  /// Move assignment from a handle on another object: the old object is deleted, the
  /// new one keeps its single reference and the source is emptied.
  method MoveAssignAcrossObjects() returns (use: nat, sourceSet: bool, ghost oldDeleted: bool)
    ensures use == 1 && !sourceSet && oldDeleted
  {
    var a := MakeIntrusive();
    var first := a.ptr;
    var b := MakeIntrusive();
    a.AssignMove(b);
    use := a.UseCount();
    sourceSet := b.IsSet();
    oldDeleted := first.deletions == 1;
  }

  /// Reset(T*) to a second object deletes the first one (its last handle left) and
  /// holds the second with a count of 1; Swap then exchanges the objects only.
  method ResetThenSwap() returns (use: nat, swapped: bool, otherUse: nat, ghost firstDeleted: bool)
    ensures use == 1 && swapped && otherUse == 1 && firstDeleted
  {
    var a := MakeIntrusive();
    var first := a.ptr;
    var second := new RefCounted();
    a.ResetTo(second);
    use := a.UseCount();
    firstDeleted := first.deletions == 1;
    var b := MakeIntrusive();
    var third := b.ptr;
    a.Swap(b);
    swapped := a.Get() == third && b.Get() == second;
    otherUse := b.UseCount();
  }

  /// A third handle on a swapped object keeps its reference: the count it reports
  /// still equals the number of handles on that object.
  method SwapKeepsThirdHandle() returns (thirdUse: nat, swappedUse: nat)
    ensures thirdUse == 2 && swappedUse == 1
  {
    var a := MakeIntrusive();
    var third := new IntrusivePtr.Copy(a);
    var b := MakeIntrusive();
    a.Swap(b);
    thirdUse := third.UseCount();
    swappedUse := a.UseCount();
  }
}

/**
  Client code over UniquePtr.
*/
module UniqueScenarios {
  import opened Unique

  /// Release gives the pointer back without freeing it; the handle becomes null and a
  /// second handle can adopt the same allocation.
  method ReleaseThenAdopt() returns (handedBack: bool, stillSet: bool, readoptedSet: bool, ghost freed: bool)
    ensures handedBack && !stillSet && readoptedSet && !freed
  {
    var a := new Allocation(false, [7]);
    var u := new UniquePtr(false, a);
    var r := u.Release();
    handedBack := r == a;
    stillSet := u.IsSet();
    freed := a.freedBy != [];
    var v := new UniquePtr(false, r);
    readoptedSet := v.IsSet();
  }

  /// Reset to a new allocation frees the old one exactly once, with the stored
  /// deleter, and leaves the new one untouched.
  method ResetFreesOldOnce() returns (holdsNew: bool, ghost oldFreedBy: seq<Deleter>, ghost newFreed: bool)
    ensures holdsNew && oldFreedBy == [Slug(false)] && !newFreed
  {
    var a := new Allocation(false, [1]);
    var b := new Allocation(false, [2]);
    var u := new UniquePtr(false, a);
    u.Reset(b);
    holdsNew := u.Get() == b;
    oldFreedBy := a.freedBy;
    newFreed := b.freedBy != [];
  }

  /// The array specialisation frees with `delete[]`: its default deleter is Slug<T[]>.
  /// operator[] reads the owned array.
  method ArrayUsesArrayDelete() returns (second: int, ghost freedWithArrayDelete: bool)
    ensures second == 20 && freedWithArrayDelete
  {
    var a := new Allocation(true, [10, 20, 30]);
    var u := new UniquePtr(true, a);
    second := u.At(1);
    u.AssignNull();
    freedWithArrayDelete := a.freedBy == [Slug(true)];
  }

  /// Move construction carries the pointer and the deleter over and frees nothing.
  method MoveCarriesDeleter() returns (moved: bool, sourceSet: bool, sameDeleter: bool, ghost freed: bool)
    ensures moved && !sourceSet && sameDeleter && !freed
  {
    var a := new Allocation(false, [3]);
    var u := new UniquePtr.WithDeleter(false, a, Custom(5));
    var v := new UniquePtr.Move(u);
    moved := v.Get() == a;
    sourceSet := u.IsSet();
    sameDeleter := v.GetDeleter() == Custom(5);
    freed := a.freedBy != [];
  }

  /// Move assignment frees the target's old allocation with the target's old deleter,
  /// then takes the source's pointer and deleter; a self-move keeps the pointer.
  method MoveAssignUsesOldDeleter() returns (holdsSource: bool, deleterNow: Deleter, selfKept: bool,
                                             ghost oldFreedBy: seq<Deleter>)
    ensures holdsSource && deleterNow == Custom(2) && selfKept
    ensures oldFreedBy == [Custom(1)]
  {
    var a := new Allocation(false, [1]);
    var b := new Allocation(false, [2]);
    var u := new UniquePtr.WithDeleter(false, a, Custom(1));
    var v := new UniquePtr.WithDeleter(false, b, Custom(2));
    u.AssignMove(v);
    holdsSource := u.Get() == b;
    deleterNow := u.GetDeleter();
    oldFreedBy := a.freedBy;
    u.AssignMove(u);
    selfKept := u.Get() == b;
  }

  /// Swap exchanges the pointers and the deleters.
  method SwapExchangesDeleters() returns (pointersSwapped: bool, deletersSwapped: bool)
    ensures pointersSwapped && deletersSwapped
  {
    var a := new Allocation(false, [1]);
    var b := new Allocation(false, [2]);
    var u := new UniquePtr.WithDeleter(false, a, Custom(1));
    var v := new UniquePtr(false, b);
    u.Swap(v);
    pointersSwapped := u.Get() == b && v.Get() == a;
    deletersSwapped := u.GetDeleter() == Slug(false) && v.GetDeleter() == Custom(1);
  }
}
