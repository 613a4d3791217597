/**
  Intrusive reference counting (intrusive/intrusive.h).

  The counter lives inside the managed object: RefCounted embeds a SimpleCounter, and
  IntrusivePtr handles raise and lower it. When it returns to 0 the object hands
  itself to its deleter (`Deleter::Destroy`), here a ghost count of deletions.

  As in the shared-ownership model, every object keeps as ghost state the set of
  handles that hold a reference to it (`holders`); `Valid()` says that the counter is
  the size of that set, that every holder points back, and that the object is deleted
  at most once, and only when no holder is left.
*/
module Intrusive {

  /// The largest value of size_t, the counter's type.
  const SizeMax: nat := 0xFFFF_FFFF_FFFF_FFFF

  type Size = n: nat | n <= SizeMax

  /// `++count_` on a size_t: wraps to 0 past SizeMax.
  function Increment(c: Size): (r: Size)
    ensures r == (c + 1) % (SizeMax + 1)
    ensures r == 0 <==> c == SizeMax
  {
    if c == SizeMax then 0 else c + 1
  }

  /// `--count_` on a size_t: wraps to SizeMax below 0. Increment undoes it.
  function Decrement(c: Size): (r: Size)
    ensures Increment(r) == c
    ensures r == SizeMax <==> c == 0
  {
    if c == 0 then SizeMax else c - 1
  }

  /// Decrement undoes Increment, so an increment followed by a decrement (as in the
  /// move constructor) leaves any counter where it was.
  lemma DecrementUndoesIncrement(c: Size)
    ensures Decrement(Increment(c)) == c
  {
    if c == SizeMax {
      assert Increment(c) == 0;
    }
  }

  class SimpleCounter {
    var count: Size
    /// The object whose counter_ member this is, if any.
    ghost var embeddedIn: RefCounted?

    constructor ()
      ensures count == 0 && embeddedIn == null
    {
      count := 0;
      embeddedIn := null;
    }

    /// The copy constructor ignores its argument: a copied object starts from 0.
    constructor Copy(other: SimpleCounter)
      ensures count == 0 && embeddedIn == null
    {
      count := 0;
      embeddedIn := null;
    }

    /// Copy assignment builds and discards a temporary: the target keeps its count.
    method AssignFrom(other: SimpleCounter)
      ensures count == old(count)
    {
    }

    method IncRef() returns (n: Size)
      modifies this
      ensures count == Increment(old(count)) && n == count
      ensures embeddedIn == old(embeddedIn)
    {
      count := Increment(count);
      n := count;
    }

    method DecRef() returns (n: Size)
      modifies this
      ensures count == Decrement(old(count)) && n == count
      ensures embeddedIn == old(embeddedIn)
    {
      count := Decrement(count);
      n := count;
    }

    function RefCount(): (n: Size)
      reads this
      ensures n == count
    {
      count
    }
  }

  /// RefCounted<Derived, SimpleCounter, DefaultDelete>: an object carrying its own
  /// reference counter.
  class RefCounted {
    const counter: SimpleCounter
    /// How many times the deleter has been handed this object.
    ghost var deletions: nat
    /// The IntrusivePtr handles holding a reference.
    ghost var holders: set<IntrusivePtr>

    ghost function Footprint(): set<object>
      reads this
    {
      {this, counter} + holders
    }

    ghost predicate Valid()
      reads Footprint()
    {
      && counter.embeddedIn == this
      && counter.count == |holders|
      && (forall h | h in holders :: h.ptr == this)
      && deletions <= 1
      && (deletions == 1 ==> holders == {})
    }

    /// Not handed to the deleter yet, and one more reference fits in the counter.
    ghost predicate Shareable()
      reads this, counter
    {
      deletions == 0 && counter.count < SizeMax
    }

    /// `new T(args...)` for a RefCounted type: the counter starts at 0.
    constructor ()
      ensures Valid() && holders == {} && deletions == 0 && fresh(counter)
    {
      var c := new SimpleCounter();
      counter := c;
      deletions := 0;
      holders := {};
      new;
      c.embeddedIn := this;
    }

    method IncRef()
      modifies counter
      ensures counter.count == Increment(old(counter.count))
      ensures counter.embeddedIn == old(counter.embeddedIn)
    {
      var _ := counter.IncRef();
    }

    /// Decrement, and hand the object to the deleter when the count reaches 0.
    method DecRef()
      modifies this, counter
      ensures counter.count == Decrement(old(counter.count))
      ensures deletions == old(deletions) + (if counter.count == 0 then 1 else 0)
      ensures holders == old(holders) && counter.embeddedIn == old(counter.embeddedIn)
    {
      var _ := counter.DecRef();
      if RefCount() == 0 {
        deletions := deletions + 1;
      }
    }

    /// The reference of holder `from` has moved to `to`, which held none before.
    method Rehome(from: IntrusivePtr, to: IntrusivePtr)
      requires counter.embeddedIn == this && counter.count == |holders| && deletions == 0
      requires from in holders && to !in holders && to.ptr == this
      requires forall h | h in holders && h != from :: h.ptr == this
      modifies this
      ensures holders == old(holders) - {from} + {to} && Valid()
    {
      holders := holders - {from} + {to};
    }

    /// The number of strong references.
    function RefCount(): (n: Size)
      reads this, counter
      ensures Valid() ==> n == |holders|
    {
      counter.RefCount()
    }
  }

  class IntrusivePtr {
    var ptr: RefCounted?

    /// This handle holds one reference to its object.
    ghost predicate Valid()
      reads this, ptr
    {
      ptr != null ==> this in ptr.holders
    }

    ghost predicate Sound()
      reads this, ptr, if ptr != null then ptr.Footprint() else {}
    {
      Valid() && (ptr != null ==> ptr.Valid())
    }

    /// IntrusivePtr() and IntrusivePtr(nullptr).
    constructor Empty()
      ensures ptr == null && Sound()
    {
      ptr := null;
    }

    /// IntrusivePtr(T* ptr): take a reference to a live object; null gives an empty handle.
    constructor FromRaw(p: RefCounted?)
      requires p != null ==> p.Valid() && p.Shareable()
      modifies if p != null then {p, p.counter} else {}
      ensures ptr == p && Sound()
      ensures p != null ==>
        && p.holders == old(p.holders) + {this}
        && p.counter.count == old(p.counter.count) + 1
        && p.deletions == 0
    {
      ptr := null;
      new;
      Take(p);
    }

    /// IntrusivePtr(const IntrusivePtr& other), and the converting copy: one more
    /// reference to the same object.
    constructor Copy(other: IntrusivePtr)
      requires other.Sound()
      requires other.ptr != null ==> other.ptr.counter.count < SizeMax
      modifies if other.ptr != null then {other.ptr, other.ptr.counter} else {}
      ensures ptr == other.ptr && Sound() && other.Sound()
      ensures ptr != null ==>
        && ptr.holders == old(other.ptr.holders) + {this}
        && ptr.counter.count == old(other.ptr.counter.count) + 1
    {
      ptr := null;
      new;
      Take(other.ptr);
    }

    /// IntrusivePtr(IntrusivePtr&& other), and the converting move: increment, then
    /// release `other`, so the count ends where it was and `other` is empty.
    constructor Move(other: IntrusivePtr)
      requires other.Sound()
      modifies other, if other.ptr != null then {other.ptr, other.ptr.counter} else {}
      ensures ptr == old(other.ptr) && other.ptr == null && Sound() && other.Sound()
      ensures ptr != null ==>
        && ptr.holders == old(other.ptr.holders) - {other} + {this}
        && ptr.counter.count == old(other.ptr.counter.count)
        && ptr.deletions == 0
    {
      ptr := null;
      new;
      TakeOver(other);
    }

    /// `ptr_ = other.ptr_; if (ptr_) ptr_->IncRef(); other.Release();` on an empty
    /// handle: the reference moves from `other` to this handle. The increment may wrap
    /// the counter to 0 when it is at SizeMax; the decrement of `other.Release()`
    /// brings it back, so no bound is needed. Release is written out here because the
    /// counter does not count the holders in between.
    method TakeOver(other: IntrusivePtr)
      requires ptr == null && this != other
      requires other.Sound()
      modifies this, other, if other.ptr != null then {other.ptr, other.ptr.counter} else {}
      ensures ptr == old(other.ptr) && other.ptr == null && Sound() && other.Sound()
      ensures ptr != null ==>
        && ptr.holders == old(other.ptr.holders) - {other} + {this}
        && ptr.counter.count == old(other.ptr.counter.count)
        && ptr.deletions == 0
    {
      var p := other.ptr;
      ptr := p;
      if p != null {
        ghost var before := p.counter.count;
        p.IncRef();
        p.DecRef();
        DecrementUndoesIncrement(before);
        p.holders := p.holders - {other} + {this};
      }
      other.Zeroing();
    }

    /// `ptr_ = p; if (ptr_) ptr_->IncRef();` on an empty handle.
    method Take(p: RefCounted?)
      requires ptr == null
      requires p != null ==> p.Valid() && p.Shareable()
      modifies this, if p != null then {p, p.counter} else {}
      ensures ptr == p && Sound()
      ensures p != null ==>
        && p.holders == old(p.holders) + {this}
        && p.counter.count == old(p.counter.count) + 1
        && p.deletions == 0
    {
      ptr := p;
      if p != null {
        p.IncRef();
        p.holders := p.holders + {this};
      }
    }

    /// IntrusivePtr::Release, run by the destructor, Reset and the assignments: drop the
    /// reference (the object is deleted iff it was the last one) and empty the handle.
    method Release()
      requires Sound()
      modifies this, if ptr != null then {ptr, ptr.counter} else {}
      ensures ptr == null && Sound()
      ensures old(ptr) != null ==>
        && old(ptr).Valid()
        && old(ptr).holders == old(ptr.holders) - {this}
        && old(ptr).counter.count == old(ptr.counter.count) - 1
        && old(ptr).deletions == (if old(ptr).holders == {} then 1 else 0)
    {
      if ptr != null {
        ptr.DecRef();
        ptr.holders := ptr.holders - {this};
      }
      Zeroing();
    }

    method Zeroing()
      modifies this
      ensures ptr == null
    {
      ptr := null;
    }

    /// Reset(): release the reference.
    method Reset()
      requires Sound()
      modifies this, if ptr != null then {ptr, ptr.counter} else {}
      ensures ptr == null && Sound()
      ensures old(ptr) != null ==>
        && old(ptr).Valid()
        && old(ptr).holders == old(ptr.holders) - {this}
        && old(ptr).counter.count == old(ptr.counter.count) - 1
        && old(ptr).deletions == (if old(ptr).holders == {} then 1 else 0)
    {
      Release();
    }

    /// Reset(T* ptr): release the old reference, then take one to `p`. When `p` is the
    /// current object another holder must keep it alive across the release.
    method ResetTo(p: RefCounted?)
      requires Sound()
      requires p != null ==> p.Valid() && p.Shareable()
      requires p != null && p == ptr ==> |p.holders| >= 2
      modifies this, if ptr != null then {ptr, ptr.counter} else {}, if p != null then {p, p.counter} else {}
      ensures ptr == p && Sound()
      ensures old(ptr) != null && old(ptr) != p ==>
        && old(ptr).Valid()
        && old(ptr).holders == old(ptr.holders) - {this}
        && old(ptr).counter.count == old(ptr.counter.count) - 1
        && old(ptr).deletions == (if old(ptr).holders == {} then 1 else 0)
      ensures p != null && p != old(ptr) ==>
        && p.holders == old(p.holders) + {this}
        && p.counter.count == old(p.counter.count) + 1
      ensures p != null && p == old(ptr) ==>
        && p.holders == old(p.holders)
        && p.counter.count == old(p.counter.count)
        && p.deletions == 0
    {
      Release();
      Take(p);
    }

    /// operator=(const IntrusivePtr&): nothing when both handles point at the same
    /// object; otherwise release, then take a reference to `other`'s object.
    method AssignCopy(other: IntrusivePtr)
      requires Sound() && other.Sound()
      requires other.ptr != null ==> other.ptr.counter.count < SizeMax
      modifies this, if ptr != null then {ptr, ptr.counter} else {}
      modifies if other.ptr != null then {other.ptr, other.ptr.counter} else {}
      ensures ptr == old(other.ptr) && Sound() && other.Sound()
      ensures old(ptr) == old(other.ptr) ==> unchanged(this) && (ptr != null ==> unchanged(ptr, ptr.counter))
      ensures old(ptr) != old(other.ptr) && old(ptr) != null ==>
        && old(ptr).Valid()
        && old(ptr).holders == old(ptr.holders) - {this}
        && old(ptr).counter.count == old(ptr.counter.count) - 1
        && old(ptr).deletions == (if old(ptr).holders == {} then 1 else 0)
      ensures old(ptr) != old(other.ptr) && old(other.ptr) != null ==>
        && ptr.holders == old(other.ptr.holders) + {this}
        && ptr.counter.count == old(other.ptr.counter.count) + 1
    {
      if ptr == other.ptr {
        return;
      }
      Release();
      Take(other.ptr);
    }

    /// operator=(IntrusivePtr&&): nothing when both handles point at the same object
    /// (the source keeps its reference); otherwise release, take a reference to
    /// `other`'s object, then release `other`.
    method AssignMove(other: IntrusivePtr)
      requires Sound() && other.Sound()
      modifies this, other, if ptr != null then {ptr, ptr.counter} else {}
      modifies if other.ptr != null then {other.ptr, other.ptr.counter} else {}
      ensures Sound() && other.Sound()
      ensures old(ptr) == old(other.ptr) ==>
        unchanged(this, other) && (ptr != null ==> unchanged(ptr, ptr.counter))
      ensures old(ptr) != old(other.ptr) ==> ptr == old(other.ptr) && other.ptr == null
      ensures old(ptr) != old(other.ptr) && old(ptr) != null ==>
        && old(ptr).Valid()
        && old(ptr).holders == old(ptr.holders) - {this}
        && old(ptr).counter.count == old(ptr.counter.count) - 1
        && old(ptr).deletions == (if old(ptr).holders == {} then 1 else 0)
      ensures old(ptr) != old(other.ptr) && ptr != null ==>
        && ptr.holders == old(other.ptr.holders) - {other} + {this}
        && ptr.counter.count == old(other.ptr.counter.count)
        && ptr.deletions == 0
    {
      if ptr == other.ptr {
        return;
      }
      Release();
      TakeOver(other);
    }

    /// Swap: exchange the pointers; no counter changes.
    method Swap(other: IntrusivePtr)
      requires Sound() && other.Sound()
      modifies this, other, ptr, other.ptr
      ensures ptr == old(other.ptr) && other.ptr == old(ptr)
      ensures Sound() && other.Sound()
      ensures ptr != null ==> ptr.counter.count == old(other.ptr.counter.count) && ptr.deletions == 0
      ensures other.ptr != null ==> other.ptr.counter.count == old(ptr.counter.count) && other.ptr.deletions == 0
      ensures old(ptr) == old(other.ptr) && ptr != null ==> ptr.holders == old(ptr.holders)
      ensures old(ptr) != old(other.ptr) && ptr != null ==> ptr.holders == old(other.ptr.holders) - {other} + {this}
      ensures old(ptr) != old(other.ptr) && other.ptr != null ==> other.ptr.holders == old(ptr.holders) - {this} + {other}
    {
      if ptr != other.ptr {
        SwapObjects(other);
      }
    }

    /// Swap between handles on different objects: each reference changes holder.
    method SwapObjects(other: IntrusivePtr)
      requires Sound() && other.Sound() && ptr != other.ptr
      modifies this, other, ptr, other.ptr
      ensures ptr == old(other.ptr) && other.ptr == old(ptr)
      ensures Sound() && other.Sound()
      ensures ptr != null ==>
        && ptr.counter.count == old(other.ptr.counter.count) && ptr.deletions == 0
        && ptr.holders == old(other.ptr.holders) - {other} + {this}
      ensures other.ptr != null ==>
        && other.ptr.counter.count == old(ptr.counter.count) && other.ptr.deletions == 0
        && other.ptr.holders == old(ptr.holders) - {this} + {other}
    {
      var a, b := ptr, other.ptr;
      ptr, other.ptr := b, a;
      if a != null {
        a.Rehome(this, other);
      }
      if b != null {
        b.Rehome(other, this);
      }
    }

    function Get(): (p: RefCounted?)
      reads this
      ensures p == ptr
    {
      ptr
    }

    /// The number of handles holding the object, 0 when null.
    function UseCount(): (n: nat)
      reads this, ptr, if ptr != null then {ptr.counter} else {}
      requires Valid() && (ptr != null ==> ptr.counter.count == |ptr.holders|)
      ensures n == if ptr == null then 0 else |ptr.holders|
      ensures ptr != null ==> n >= 1
    {
      if ptr != null then ptr.RefCount() else 0
    }

    /// operator bool.
    function IsSet(): (b: bool)
      reads this
      ensures b <==> ptr != null
    {
      Get() != null
    }
  }

  /// MakeIntrusive: a new object held by one handle.
  method MakeIntrusive() returns (ip: IntrusivePtr)
    ensures fresh(ip) && ip.ptr != null && fresh(ip.ptr) && ip.Sound()
    ensures ip.UseCount() == 1 && ip.ptr.holders == {ip} && ip.ptr.deletions == 0
  {
    var obj := new RefCounted();
    ip := new IntrusivePtr.FromRaw(obj);
  }
}
