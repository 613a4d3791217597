/**
  Shared and weak ownership (weak/shared.h and shared-from-this/weak.h).

  A control block carries the strong and weak counters of one managed object.
  SharedPtr and WeakPtr are {observed pointer, control block} handles holding one
  strong or one weak share of it. Both headers are one component: each class
  reaches into the other's fields, so they form one module here.

  Alongside the source's counters every block keeps, as ghost state, the set of
  SharedPtr handles that hold its strong shares (`owners`) and of WeakPtr handles
  that hold its weak shares (`watchers`). A block's `Valid()` says that the
  counters are the sizes of these sets and that exactly those handles point back
  at it; every operation below keeps that.

  The element type is one type whose only property that matters is whether it
  derives from EnableSharedFromThis: the `esft` flag on objects and handles.

  Each assignment and swap of the source is one code path. Here it dispatches to a
  WithinBlock, an AcrossBlocks (and for WeakPtr::operator=(SharedPtr&) an Unbound)
  method, which run the same statements (`Release` then `Share` or `TakeOver`). The
  split serves the proof only: each half reasons about one block, or about two
  distinct blocks, which keeps every verification condition small.
*/
module SharedOwnership {
  import opened Lifecycle

  /// The two concrete control blocks: ControlBlockPtr adopts a raw pointer;
  /// ControlBlockHolder builds the object inside its own storage.
  datatype Variant = AdoptsPointer | HoldsInline

  /// Outcome of the promoting constructor SharedPtr(const WeakPtr&), which throws
  /// BadWeakPtr on an expired WeakPtr.
  datatype Promotion = Promoted(sp: SharedPtr) | BadWeakPtr

  /// A managed object of the element type. When the type derives from
  /// EnableSharedFromThis, `weakThis` is its hidden weak_this_ member.
  class Obj {
    const esft: bool
    const weakThis: WeakPtr?
    /// The control block that adopted this object, if any.
    ghost var managedBy: ControlBlock?

    /// The shape fixed by the type: a self-referencing object has its weak_this_ member.
    ghost predicate WellFormed() {
      && (esft <==> weakThis != null)
      && (weakThis != null ==> weakThis.esft && weakThis.selfRef)
    }

    /// Not owned by any control block yet, so its self-reference is empty.
    ghost predicate Unmanaged()
      reads this, weakThis
    {
      && managedBy == null
      && (weakThis != null ==> weakThis.cb == null && weakThis.ptr == null)
    }

    /// Either unmanaged, or the object of a consistent control block.
    ghost predicate Sound()
      reads this, weakThis, if managedBy != null then managedBy.Footprint() else {}
    {
      && WellFormed()
      && (managedBy == null ==> Unmanaged())
      && (managedBy != null ==> managedBy.Valid() && managedBy.obj == this)
    }

    constructor (esft: bool)
      ensures this.esft == esft && WellFormed() && Unmanaged()
      ensures weakThis != null ==> fresh(weakThis)
    {
      this.esft := esft;
      if esft {
        var w := new WeakPtr.Member();
        weakThis := w;
      } else {
        weakThis := null;
      }
      managedBy := null;
    }

    /// EnableSharedFromThis::SharedFromThis: Lock the self-reference. Empty before the
    /// object is first registered and whenever the self-reference has been reset.
    method SharedFromThis() returns (sp: SharedPtr)
      requires esft && Sound()
      modifies managedBy
      ensures fresh(sp) && sp.esft && sp.Sound() && Sound()
      ensures old(weakThis.cb) == null ==> sp.ptr == null && sp.cb == null
      ensures old(weakThis.cb) == null && managedBy != null ==>
        managedBy.Counts() == old(managedBy.Counts()) && managedBy.owners == old(managedBy.owners)
      ensures old(weakThis.cb) != null ==>
        && sp.ptr == this && sp.cb == managedBy
        && managedBy.Counts() == AddStrong(old(managedBy.Counts()))
        && managedBy.owners == old(managedBy.owners) + {sp}
      ensures managedBy != null ==> managedBy.watchers == old(managedBy.watchers)
    {
      assert managedBy != null ==> managedBy.SelfRef() == weakThis;
      sp := weakThis.Lock();
    }

    /// EnableSharedFromThis::WeakFromThis: a copy of the self-reference.
    method WeakFromThis() returns (w: WeakPtr)
      requires esft && Sound()
      modifies managedBy
      ensures fresh(w) && w.esft && w.Sound() && Sound()
      ensures w.cb == old(weakThis.cb) && w.ptr == old(weakThis.ptr)
      ensures old(weakThis.cb) != null ==> w.ptr == this && w.cb == managedBy
      ensures w.cb != null ==>
        && w.cb.Counts() == AddWeak(old(weakThis.cb.Counts()))
        && w.cb.watchers == old(weakThis.cb.watchers) + {w}
        && w.cb.owners == old(weakThis.cb.owners)
    {
      w := new WeakPtr.Copy(weakThis);
    }
  }

  /// IControlBlock with its two variants.
  class ControlBlock {
    var strong: nat
    var weak: nat
    const variant: Variant
    /// ControlBlockPtr::ptr_, or the object built in ControlBlockHolder::storage_.
    const obj: Obj?
    ghost var disposals: nat
    ghost var destructions: nat
    /// The SharedPtr handles holding the strong shares.
    ghost var owners: set<SharedPtr>
    /// The WeakPtr handles holding the weak shares.
    ghost var watchers: set<WeakPtr>

    ghost function Counts(): Counters
      reads this
    {
      Counters(strong, weak, disposals, destructions)
    }

    /// The weak_this_ member of the managed object, if its type has one.
    ghost function SelfRef(): WeakPtr? {
      if obj != null then obj.weakThis else null
    }

    ghost function Footprint(): set<object>
      reads this
    {
      {this} + owners + watchers
      + (if obj != null then {obj} else {})
      + (if SelfRef() != null then {SelfRef()} else {})
    }

    /// The counters count the handles, and the lifecycle invariant holds.
    ghost predicate Counted()
      reads this
    {
      && strong == |owners|
      && weak == |watchers|
      && Consistent(Counts())
    }

    /// The self-reference of the managed object is empty, or registered with this block
    /// while the object still has an owner.
    ghost predicate SelfRefConsistent()
      reads this, obj, SelfRef()
    {
      var w := SelfRef();
      w != null ==>
        || (w.cb == null && w.ptr == null)
        || (w.cb == this && w in watchers && w.ptr == obj && strong > 0)
    }

    ghost predicate Valid()
      reads Footprint()
    {
      && Counted()
      && (forall h | h in owners :: h.cb == this)
      && (forall w | w in watchers :: w.cb == this)
      && obj != null && obj.WellFormed() && obj.managedBy == this
      && SelfRefConsistent()
    }

    /// A block just built by one of the two constructors: the strong share it took is
    /// not held by any handle yet.
    ghost predicate Unclaimed()
      reads this, obj, SelfRef()
    {
      && Counts() == Born && owners == {} && watchers == {}
      && obj != null && obj.WellFormed() && obj.managedBy == this
      && (SelfRef() != null ==> SelfRef().cb == null && SelfRef().ptr == null)
    }

    /// ControlBlockPtr(T* ptr): adopts the pointer; takes a strong share only when it
    /// is non-null.
    constructor AdoptPointer(p: Obj?)
      requires p != null ==> p.WellFormed() && p.Unmanaged()
      modifies p
      ensures variant == AdoptsPointer && obj == p
      ensures owners == {} && watchers == {}
      ensures Counts() == if p != null then Born else Counters(0, 0, 0, 0)
      ensures p != null ==> p.managedBy == this && Unclaimed()
    {
      variant := AdoptsPointer;
      obj := p;
      strong, weak, disposals, destructions := 0, 0, 0, 0;
      owners, watchers := {}, {};
      new;
      if p != null {
        p.managedBy := this;
        AddStrongRef();
      }
    }

    /// ControlBlockHolder(args...): builds the object in place and takes one strong share.
    constructor HoldInline(esft: bool)
      ensures variant == HoldsInline && fresh(obj) && obj.esft == esft
      ensures obj.weakThis != null ==> fresh(obj.weakThis)
      ensures Unclaimed()
    {
      variant := HoldsInline;
      var o := new Obj(esft);
      obj := o;
      strong, weak, disposals, destructions := 0, 0, 0, 0;
      owners, watchers := {}, {};
      new;
      o.managedBy := this;
      AddStrongRef();
    }

    function GetStrongRefsCount(): (n: nat)
      reads this
      ensures Counted() ==> n == |owners|
    {
      strong
    }

    function GetWeakRefsCount(): (n: nat)
      reads this
      ensures Counted() ==> n == |watchers|
    {
      weak
    }

    /// No SharedPtr holds the object any more, so it has been disposed.
    function IsZeroStrongOwning(): (z: bool)
      reads this
      ensures Counted() ==> (z <==> owners == {}) && (z <==> disposals == 1)
    {
      strong == 0
    }

    /// No WeakPtr refers to the block.
    function IsZeroWeakOwning(): (z: bool)
      reads this
      ensures Counted() ==> (z <==> watchers == {})
    {
      weak == 0
    }

    method AddStrongRef()
      modifies this
      ensures Counts() == AddStrong(old(Counts()))
      ensures owners == old(owners) && watchers == old(watchers)
    {
      strong := strong + 1;
    }

    method RemoveStrongRef()
      requires strong > 0
      modifies this
      ensures Counts() == old(Counts()).(strong := old(strong) - 1)
      ensures owners == old(owners) && watchers == old(watchers)
    {
      strong := strong - 1;
    }

    method AddWeakRef()
      modifies this
      ensures Counts() == AddWeak(old(Counts()))
      ensures owners == old(owners) && watchers == old(watchers)
    {
      weak := weak + 1;
    }

    method RemoveWeakRef()
      requires weak > 0
      modifies this
      ensures Counts() == old(Counts()).(weak := old(weak) - 1)
      ensures owners == old(owners) && watchers == old(watchers)
    {
      weak := weak - 1;
    }

    /// Dispose: destroys the managed object (`delete ptr_` for an adopted pointer, an
    /// in-place destructor call for the inline object). The object's weak_this_ member
    /// is destroyed with it, and is required to be empty already, so that its own
    /// release is a no-op.
    method Dispose()
      requires SelfRef() != null ==> SelfRef().cb == null
      modifies this
      ensures Counts() == old(Counts()).(disposals := old(disposals) + 1)
      ensures owners == old(owners) && watchers == old(watchers)
    {
      disposals := disposals + 1;
    }

    /// Destroy: `delete this`, the block frees itself.
    method Destroy()
      modifies this
      ensures Counts() == old(Counts()).(destructions := old(destructions) + 1)
      ensures owners == old(owners) && watchers == old(watchers)
    {
      destructions := destructions + 1;
    }
  }

  /// The block's counters after SharedPtr::Release: the self-reference reset (when
  /// `selfLive`) drops a weak share, then the handle's own strong share is dropped.
  function Released(c: Counters, selfLive: bool): Counters
    requires c.strong > 0 && (selfLive ==> c.weak > 0)
  {
    DropStrong(if selfLive then DropWeak(c) else c)
  }

  /// The block's counters after a self-reference registration `weak_this_ = *this`:
  /// one more weak share unless the self-reference was already registered.
  function Registered(c: Counters, esft: bool, selfLive: bool): Counters {
    if esft && !selfLive then AddWeak(c) else c
  }

  class SharedPtr {
    /// The element type derives from EnableSharedFromThis.
    const esft: bool
    var ptr: Obj?
    var cb: ControlBlock?

    /// This handle holds one strong share of its block, observes an object of its own
    /// type, and, for a self-referencing type, observes exactly the block's object.
    ghost predicate Valid()
      reads this, cb
    {
      && (cb != null ==> this in cb.owners && cb.obj != null && cb.obj.esft == esft)
      && (ptr != null ==> ptr.esft == esft)
      && (esft ==> if cb == null then ptr == null else ptr == cb.obj)
    }

    ghost predicate Sound()
      reads this, cb, if cb != null then cb.Footprint() else {}
    {
      Valid() && (cb != null ==> cb.Valid())
    }

    /// The weak_this_ member that Release resets, if the type has one.
    ghost function SelfRef(): WeakPtr?
      reads this
    {
      if esft && ptr != null then ptr.weakThis else null
    }

    /// The self-reference is registered, so Release will reset it.
    ghost predicate SelfLive()
      reads this, SelfRef()
    {
      SelfRef() != null && SelfRef().cb != null
    }

    /// What a sound handle knows about the self-reference of its object.
    lemma SelfRefFacts()
      requires Sound()
      ensures cb != null ==> cb.strong > 0
      ensures SelfRef() != null ==> cb != null && SelfRef() == cb.SelfRef() && SelfRef().esft
      ensures SelfRef() != null ==> SelfRef().Sound()
      ensures SelfLive() ==> SelfRef().cb == cb && SelfRef() in cb.watchers && cb.weak > 0
    {
      if cb != null {
        assert this in cb.owners;
      }
    }

    /// SharedPtr() and SharedPtr(nullptr).
    constructor Empty(esft: bool)
      ensures this.esft == esft && ptr == null && cb == null && Sound()
    {
      this.esft := esft;
      ptr, cb := null, null;
    }

    /// explicit SharedPtr(Y* ptr): a fresh ControlBlockPtr, then the self-reference of a
    /// self-referencing object is registered.
    constructor Adopt(p: Obj)
      requires p.WellFormed() && p.Unmanaged()
      modifies p, p.weakThis
      ensures esft == p.esft && ptr == p && fresh(cb)
      ensures cb.variant == AdoptsPointer && cb.obj == p && cb.owners == {this}
      ensures cb.Counts() == Registered(Born, esft, false)
      ensures cb.watchers == if esft then {p.weakThis} else {}
      ensures esft ==> p.weakThis.cb == cb
      ensures Sound()
    {
      esft := p.esft;
      ptr, cb := null, null;
      new;
      AdoptFresh(p);
      RegisterSelf();
    }

    /// SharedPtr(const SharedPtr& other), and the converting copy: share the block, add a
    /// strong share, and register the self-reference (other.ptr_ is dereferenced
    /// without a null test, hence the precondition).
    constructor Copy(other: SharedPtr)
      requires other.Sound()
      requires other.esft ==> other.ptr != null
      modifies other.cb, other.SelfRef()
      ensures esft == other.esft && ptr == other.ptr && cb == other.cb
      ensures Sound() && other.Sound()
      ensures cb != null ==>
        && cb.owners == old(other.cb.owners) + {this}
        && cb.watchers == old(other.cb.watchers) + (if esft then {ptr.weakThis} else {})
        && cb.Counts() == Registered(AddStrong(old(other.cb.Counts())), esft, old(other.SelfLive()))
      ensures esft ==> ptr.weakThis.cb == cb
    {
      esft := other.esft;
      ptr, cb := null, null;
      new;
      Share(other.ptr, other.cb);
      RegisterSelf();
    }

    /// SharedPtr(SharedPtr&& other): take over the share without touching the strong
    /// count, register the self-reference, and leave the source empty.
    constructor Move(other: SharedPtr)
      requires other.Sound()
      requires other.esft ==> other.ptr != null
      modifies other, other.cb, other.SelfRef()
      ensures esft == other.esft && ptr == old(other.ptr) && cb == old(other.cb)
      ensures other.ptr == null && other.cb == null
      ensures Sound() && other.Sound()
      ensures cb != null ==>
        && cb.owners == old(other.cb.owners) - {other} + {this}
        && cb.watchers == old(other.cb.watchers) + (if esft then {ptr.weakThis} else {})
        && cb.Counts() == Registered(old(other.cb.Counts()), esft, old(other.SelfLive()))
      ensures esft ==> ptr.weakThis.cb == cb
    {
      esft := other.esft;
      ptr, cb := null, null;
      new;
      TakeOver(other);
      RegisterSelf();
    }

    /// The constructor MakeShared uses: wrap a fresh ControlBlockHolder without adding
    /// a strong share (the holder took it), and register the self-reference.
    constructor FromHolder(holder: ControlBlock)
      requires holder.variant == HoldsInline && holder.Unclaimed()
      modifies holder, holder.SelfRef()
      ensures esft == holder.obj.esft && ptr == holder.obj && cb == holder
      ensures cb.owners == {this}
      ensures cb.Counts() == Registered(Born, esft, false)
      ensures cb.watchers == if esft then {ptr.weakThis} else {}
      ensures esft ==> ptr.weakThis.cb == cb
      ensures Sound()
    {
      esft := holder.obj.esft;
      ptr, cb := null, null;
      new;
      ptr, cb := holder.obj, holder;
      holder.owners := {this};
      RegisterSelf();
    }

    /// The aliasing constructor SharedPtr(const SharedPtr<Y>& other, T* ptr): observe
    /// `p` while sharing, and adding a strong share to, the block of `other`.
    constructor Alias(other: SharedPtr, p: Obj?)
      requires other.Sound() && !other.esft
      requires p != null ==> !p.esft
      modifies other.cb
      ensures !esft && ptr == p && cb == other.cb
      ensures Sound() && other.Sound()
      ensures cb != null ==>
        && cb.owners == old(other.cb.owners) + {this}
        && cb.watchers == old(other.cb.watchers)
        && cb.Counts() == AddStrong(old(other.cb.Counts()))
    {
      esft := false;
      ptr, cb := null, null;
      new;
      Share(p, other.cb);
    }

    /// The promoting constructor once its expiry test has passed: copy both fields of
    /// the WeakPtr and add a strong share.
    constructor FromLiveWeak(w: WeakPtr)
      requires w.Sound() && !w.Expired()
      modifies w.cb
      ensures esft == w.esft && ptr == w.ptr && cb == w.cb
      ensures Sound() && w.Sound()
      ensures cb.owners == old(w.cb.owners) + {this}
      ensures cb.watchers == old(w.cb.watchers)
      ensures cb.Counts() == AddStrong(old(w.cb.Counts()))
    {
      esft := w.esft;
      ptr, cb := null, null;
      new;
      Share(w.ptr, w.cb);
    }

    /// explicit SharedPtr(const WeakPtr& other): BadWeakPtr iff the WeakPtr has expired,
    /// otherwise a new owner of its block.
    static method FromWeak(w: WeakPtr) returns (r: Promotion)
      requires w.Sound()
      modifies w.cb
      ensures w.Sound()
      ensures r.BadWeakPtr? <==> old(w.Expired())
      ensures r.BadWeakPtr? && w.cb != null ==> unchanged(w.cb)
      ensures r.Promoted? ==>
        && fresh(r.sp) && r.sp.Sound()
        && r.sp.ptr == w.ptr && r.sp.cb == w.cb && r.sp.esft == w.esft
        && w.cb.owners == old(w.cb.owners) + {r.sp}
        && w.cb.watchers == old(w.cb.watchers)
        && w.cb.Counts() == AddStrong(old(w.cb.Counts()))
    {
      if w.Expired() {
        return BadWeakPtr;
      }
      var sp := new SharedPtr.FromLiveWeak(w);
      r := Promoted(sp);
    }

    /// Point an empty handle at `p` and take one more strong share of the live block `b`.
    method Share(p: Obj?, b: ControlBlock?)
      requires ptr == null && cb == null
      requires p != null ==> p.esft == esft
      requires b != null ==> b.Valid() && b.strong > 0 && b.obj.esft == esft
      requires esft ==> if b == null then p == null else p == b.obj
      modifies this, b
      ensures ptr == p && cb == b && Sound()
      ensures b != null ==>
        && b.owners == old(b.owners) + {this}
        && b.watchers == old(b.watchers)
        && b.Counts() == AddStrong(old(b.Counts()))
    {
      ptr, cb := p, b;
      if b != null {
        b.AddStrongRef();
        b.owners := b.owners + {this};
      }
    }

    /// Move `other`'s strong share to this empty handle and empty `other`.
    method TakeOver(other: SharedPtr)
      requires ptr == null && cb == null && this != other
      requires other.Sound() && other.esft == esft
      modifies this, other, other.cb
      ensures ptr == old(other.ptr) && cb == old(other.cb) && Sound()
      ensures other.ptr == null && other.cb == null
      ensures cb != null ==>
        && cb.owners == old(other.cb.owners) - {other} + {this}
        && cb.watchers == old(other.cb.watchers)
        && cb.Counts() == old(other.cb.Counts())
    {
      ptr, cb := other.ptr, other.cb;
      if cb != null {
        cb.owners := cb.owners - {other} + {this};
      }
      other.Zeroing();
    }

    /// `ptr_->weak_this_ = *this` for a self-referencing type, a no-op otherwise.
    method RegisterSelf()
      requires Sound() && (esft ==> ptr != null)
      modifies cb, SelfRef()
      ensures Sound()
      ensures cb != null ==>
        && cb.owners == old(cb.owners)
        && cb.watchers == old(cb.watchers) + (if esft then {ptr.weakThis} else {})
        && cb.Counts() == Registered(old(cb.Counts()), esft, old(SelfLive()))
      ensures esft ==> ptr.weakThis.cb == cb
    {
      if esft {
        SelfRefFacts();
        ptr.weakThis.AssignShared(this);
      }
    }

    /// SharedPtr::Release, run by the destructor, by Reset() and by both assignments.
    /// For a self-referencing object the self-reference is reset first whenever it is
    /// live, on every release and not only the last one; then the strong share is
    /// dropped, Dispose runs at 0 and Destroy when both counts are 0.
    method Release()
      requires Sound()
      modifies this, cb, SelfRef()
      ensures ptr == null && cb == null
      ensures old(cb) != null ==>
        && old(cb).Valid()
        && old(cb).owners == old(cb.owners) - {this}
        && old(cb).watchers == old(cb.watchers) - (if old(SelfLive()) then {old(SelfRef())} else {})
        && old(cb).Counts() == Released(old(cb.Counts()), old(SelfLive()))
      ensures old(SelfRef()) != null ==> old(SelfRef()).cb == null
    {
      if cb != null {
        ResetSelf();
        DropShare();
      }
      Zeroing();
    }

    /// The first half of Release: reset the self-reference if it is not expired.
    method ResetSelf()
      requires Sound() && cb != null
      modifies SelfRef(), cb
      ensures Sound()
      ensures cb.owners == old(cb.owners)
      ensures cb.watchers == old(cb.watchers) - (if old(SelfLive()) then {SelfRef()} else {})
      ensures cb.Counts() == if old(SelfLive()) then DropWeak(old(cb.Counts())) else old(cb.Counts())
      ensures SelfRef() != null ==> SelfRef().cb == null
    {
      SelfRefFacts();
      if esft {
        var self := ptr.weakThis;
        if !self.Expired() {
          self.Reset();
        }
      }
    }

    /// The second half of Release: drop the strong share, Dispose at 0, Destroy when
    /// both counts are 0.
    method DropShare()
      requires Sound() && cb != null
      requires SelfRef() != null ==> SelfRef().cb == null
      modifies cb
      ensures cb == old(cb) && cb.Valid()
      ensures cb.owners == old(cb.owners) - {this}
      ensures cb.watchers == old(cb.watchers)
      ensures cb.Counts() == DropStrong(old(cb.Counts()))
    {
      SelfRefFacts();
      cb.RemoveStrongRef();
      cb.owners := cb.owners - {this};
      if cb.IsZeroStrongOwning() {
        cb.Dispose();
      }
      if cb.IsZeroStrongOwning() && cb.IsZeroWeakOwning() {
        cb.Destroy();
      }
    }

    /// SharedPtr::Zeroing: forget both fields, with no counter change.
    method Zeroing()
      modifies this
      ensures ptr == null && cb == null
    {
      ptr, cb := null, null;
    }

    /// Reset(): release the share; the handle then manages nothing.
    method Reset()
      requires Sound()
      modifies this, cb, SelfRef()
      ensures ptr == null && cb == null && Sound()
      ensures old(cb) != null ==>
        && old(cb).Valid()
        && old(cb).owners == old(cb.owners) - {this}
        && old(cb).watchers == old(cb.watchers) - (if old(SelfLive()) then {old(SelfRef())} else {})
        && old(cb).Counts() == Released(old(cb.Counts()), old(SelfLive()))
      ensures old(SelfRef()) != null ==> old(SelfRef()).cb == null
    {
      Release();
    }

    /// Reset(Y* ptr): release the share, then adopt `p` in a fresh ControlBlockPtr.
    /// Unlike the adopting constructor this does not register a self-reference.
    method ResetTo(p: Obj)
      requires Sound() && p.WellFormed() && p.Unmanaged() && p.esft == esft
      modifies this, cb, SelfRef(), p
      ensures ptr == p && fresh(cb) && Sound()
      ensures cb.variant == AdoptsPointer && cb.owners == {this} && cb.watchers == {}
      ensures cb.Counts() == Born
      ensures old(cb) != null ==>
        && old(cb).Valid()
        && old(cb).owners == old(cb.owners) - {this}
        && old(cb).watchers == old(cb.watchers) - (if old(SelfLive()) then {old(SelfRef())} else {})
        && old(cb).Counts() == Released(old(cb.Counts()), old(SelfLive()))
    {
      Release();
      AdoptFresh(p);
    }

    /// Point an empty handle at `p`, owned by a fresh ControlBlockPtr.
    method AdoptFresh(p: Obj)
      requires ptr == null && cb == null
      requires p.WellFormed() && p.Unmanaged() && p.esft == esft
      modifies this, p
      ensures ptr == p && fresh(cb) && Sound()
      ensures cb.variant == AdoptsPointer && cb.obj == p
      ensures cb.owners == {this} && cb.watchers == {} && cb.Counts() == Born
      ensures p.weakThis != null ==> p.weakThis.cb == null
    {
      var b := new ControlBlock.AdoptPointer(p);
      ptr, cb := p, b;
      b.owners := {this};
    }

    /// Swap: exchange both fields; no counter changes.
    method Swap(other: SharedPtr)
      requires Sound() && other.Sound() && other.esft == esft
      modifies this, other, cb, other.cb
      ensures ptr == old(other.ptr) && cb == old(other.cb)
      ensures other.ptr == old(ptr) && other.cb == old(cb)
      ensures Sound() && other.Sound()
      ensures cb != null ==> cb.Counts() == old(other.cb.Counts()) && cb.watchers == old(other.cb.watchers)
      ensures other.cb != null ==> other.cb.Counts() == old(cb.Counts()) && other.cb.watchers == old(cb.watchers)
      ensures old(cb) == old(other.cb) && cb != null ==> cb.owners == old(cb.owners)
      ensures old(cb) != old(other.cb) && cb != null ==> cb.owners == old(other.cb.owners) - {other} + {this}
      ensures old(cb) != old(other.cb) && other.cb != null ==> other.cb.owners == old(cb.owners) - {this} + {other}
    {
      if cb == other.cb {
        ptr, other.ptr := other.ptr, ptr;
      } else {
        SwapAcrossBlocks(other);
      }
    }

    /// Swap with a handle of another block: each handle's share moves with it.
    method SwapAcrossBlocks(other: SharedPtr)
      requires Sound() && other.Sound() && other.esft == esft && cb != other.cb
      modifies this, other, cb, other.cb
      ensures ptr == old(other.ptr) && cb == old(other.cb)
      ensures other.ptr == old(ptr) && other.cb == old(cb)
      ensures Sound() && other.Sound()
      ensures cb != null ==> cb.Counts() == old(other.cb.Counts()) && cb.watchers == old(other.cb.watchers)
      ensures other.cb != null ==> other.cb.Counts() == old(cb.Counts()) && other.cb.watchers == old(cb.watchers)
      ensures cb != null ==> cb.owners == old(other.cb.owners) - {other} + {this}
      ensures old(cb) != old(other.cb) && other.cb != null ==> other.cb.owners == old(cb.owners) - {this} + {other}
    {
      var tmp := new SharedPtr.Empty(esft);
      tmp.TakeOver(this);
      FinishSwap(other, tmp);
    }

    /// The rest of a swap through a temporary that holds this handle's former share.
    method FinishSwap(other: SharedPtr, tmp: SharedPtr)
      requires ptr == null && cb == null && this != other && this != tmp && other != tmp
      requires other.Sound() && tmp.Sound() && other.esft == esft && tmp.esft == esft
      requires other.cb != tmp.cb
      modifies this, other, tmp, other.cb, tmp.cb
      ensures ptr == old(other.ptr) && cb == old(other.cb)
      ensures other.ptr == old(tmp.ptr) && other.cb == old(tmp.cb)
      ensures Sound() && other.Sound()
      ensures cb != null ==> cb.Counts() == old(other.cb.Counts()) && cb.watchers == old(other.cb.watchers)
      ensures other.cb != null ==> other.cb.Counts() == old(tmp.cb.Counts()) && other.cb.watchers == old(tmp.cb.watchers)
      ensures cb != null ==> cb.owners == old(other.cb.owners) - {other} + {this}
      ensures other.cb != null ==> other.cb.owners == old(tmp.cb.owners) - {tmp} + {other}
    {
      TakeOver(other);
      other.TakeOver(tmp);
    }

    /// operator=(const SharedPtr&): unless it is self-assignment, release this share
    /// and take a new one of `other`'s block. The self-reference is not registered.
    method AssignCopy(other: SharedPtr)
      requires Sound() && other.Sound() && other.esft == esft
      modifies this, cb, SelfRef(), other.cb
      ensures ptr == other.ptr && cb == other.cb && Sound() && other.Sound()
      ensures this == other ==> unchanged(this) && (cb != null ==> unchanged(cb))
      ensures this != other && old(cb) != null && old(cb) != cb ==>
        && old(cb).Valid()
        && old(cb).owners == old(cb.owners) - {this}
        && old(cb).watchers == old(cb.watchers) - (if old(SelfLive()) then {old(SelfRef())} else {})
        && old(cb).Counts() == Released(old(cb.Counts()), old(SelfLive()))
      ensures this != other && cb != null && old(cb) != cb ==>
        && cb.owners == old(other.cb.owners) + {this}
        && cb.watchers == old(other.cb.watchers)
        && cb.Counts() == AddStrong(old(other.cb.Counts()))
      ensures this != other && cb != null && old(cb) == cb ==>
        && cb.owners == old(cb.owners)
        && cb.watchers == old(cb.watchers) - (if old(SelfLive()) then {old(SelfRef())} else {})
        && cb.Counts() == AddStrong(Released(old(cb.Counts()), old(SelfLive())))
    {
      if this != other {
        if cb == other.cb {
          CopyWithinBlock(other);
        } else {
          CopyAcrossBlocks(other);
        }
      }
    }

    /// AssignCopy between two handles of one block (one code path with AcrossBlocks,
    /// split for the proof): Release, then Share.
    method CopyWithinBlock(other: SharedPtr)
      requires Sound() && other.Sound() && other.esft == esft
      requires this != other && cb == other.cb
      modifies this, cb, SelfRef()
      ensures ptr == other.ptr && cb == other.cb && Sound() && other.Sound()
      ensures cb != null ==>
        && cb.owners == old(cb.owners)
        && cb.watchers == old(cb.watchers) - (if old(SelfLive()) then {old(SelfRef())} else {})
        && cb.Counts() == AddStrong(Released(old(cb.Counts()), old(SelfLive())))
    {
      Release();
      Share(other.ptr, other.cb);
    }

    /// AssignCopy from a handle of another block: Release, then Share.
    method CopyAcrossBlocks(other: SharedPtr)
      requires Sound() && other.Sound() && other.esft == esft
      requires this != other && cb != other.cb
      modifies this, cb, SelfRef(), other.cb
      ensures ptr == other.ptr && cb == other.cb && Sound() && other.Sound()
      ensures old(cb) != null ==>
        && old(cb).Valid()
        && old(cb).owners == old(cb.owners) - {this}
        && old(cb).watchers == old(cb.watchers) - (if old(SelfLive()) then {old(SelfRef())} else {})
        && old(cb).Counts() == Released(old(cb.Counts()), old(SelfLive()))
      ensures cb != null ==>
        && cb.owners == old(other.cb.owners) + {this}
        && cb.watchers == old(other.cb.watchers)
        && cb.Counts() == AddStrong(old(other.cb.Counts()))
    {
      Release();
      Share(other.ptr, other.cb);
    }

    /// operator=(SharedPtr&&): unless it is self-assignment, release this share, take
    /// over `other`'s share without a counter change, and empty `other`.
    method AssignMove(other: SharedPtr)
      requires Sound() && other.Sound() && other.esft == esft
      modifies this, cb, SelfRef(), other, other.cb
      ensures this == other ==> unchanged(this) && (cb != null ==> unchanged(cb))
      ensures this != other ==>
        ptr == old(other.ptr) && cb == old(other.cb) && other.ptr == null && other.cb == null
      ensures Sound() && other.Sound()
      ensures this != other && old(cb) != null && old(cb) != cb ==>
        && old(cb).Valid()
        && old(cb).owners == old(cb.owners) - {this}
        && old(cb).watchers == old(cb.watchers) - (if old(SelfLive()) then {old(SelfRef())} else {})
        && old(cb).Counts() == Released(old(cb.Counts()), old(SelfLive()))
      ensures this != other && cb != null && old(cb) != cb ==>
        && cb.owners == old(other.cb.owners) - {other} + {this}
        && cb.watchers == old(other.cb.watchers)
        && cb.Counts() == old(other.cb.Counts())
      ensures this != other && cb != null && old(cb) == cb ==>
        && cb.owners == old(cb.owners) - {other}
        && cb.watchers == old(cb.watchers) - (if old(SelfLive()) then {old(SelfRef())} else {})
        && cb.Counts() == Released(old(cb.Counts()), old(SelfLive()))
    {
      if this != other {
        if cb == other.cb {
          MoveWithinBlock(other);
        } else {
          MoveAcrossBlocks(other);
        }
      }
    }

    /// AssignMove between two handles of one block: Release, then TakeOver.
    method MoveWithinBlock(other: SharedPtr)
      requires Sound() && other.Sound() && other.esft == esft
      requires this != other && cb == other.cb
      modifies this, cb, SelfRef(), other
      ensures ptr == old(other.ptr) && cb == old(other.cb) && other.ptr == null && other.cb == null
      ensures Sound() && other.Sound()
      ensures cb != null ==>
        && cb.owners == old(cb.owners) - {other}
        && cb.watchers == old(cb.watchers) - (if old(SelfLive()) then {old(SelfRef())} else {})
        && cb.Counts() == Released(old(cb.Counts()), old(SelfLive()))
    {
      Release();
      TakeOver(other);
    }

    /// AssignMove from a handle of another block: Release, then TakeOver.
    method MoveAcrossBlocks(other: SharedPtr)
      requires Sound() && other.Sound() && other.esft == esft
      requires this != other && cb != other.cb
      modifies this, cb, SelfRef(), other, other.cb
      ensures ptr == old(other.ptr) && cb == old(other.cb) && other.ptr == null && other.cb == null
      ensures Sound() && other.Sound()
      ensures old(cb) != null ==>
        && old(cb).Valid()
        && old(cb).owners == old(cb.owners) - {this}
        && old(cb).watchers == old(cb.watchers) - (if old(SelfLive()) then {old(SelfRef())} else {})
        && old(cb).Counts() == Released(old(cb.Counts()), old(SelfLive()))
      ensures cb != null ==>
        && cb.owners == old(other.cb.owners) - {other} + {this}
        && cb.watchers == old(other.cb.watchers)
        && cb.Counts() == old(other.cb.Counts())
    {
      Release();
      TakeOver(other);
    }

    function Get(): (p: Obj?)
      reads this
      ensures Valid() && esft && cb != null ==> p == cb.obj
      ensures p == ptr
    {
      ptr
    }

    /// The number of SharedPtr handles that share this handle's block, 0 when empty.
    function UseCount(): (n: nat)
      reads this, cb
      requires Valid() && (cb != null ==> cb.Counted())
      ensures n == if cb == null then 0 else |cb.owners|
      ensures cb != null ==> n >= 1
    {
      if cb != null then cb.GetStrongRefsCount() else 0
    }

    /// operator bool: the observed pointer is non-null, whatever the block.
    function IsSet(): (b: bool)
      reads this
      ensures b <==> Get() != null
    {
      Get() != null
    }
  }

  /// operator==: compares the observed pointers only, not the blocks.
  function Equal(lhs: SharedPtr, rhs: SharedPtr): (eq: bool)
    reads lhs, rhs
    ensures eq <==> lhs.ptr == rhs.ptr
  {
    lhs.Get() == rhs.Get()
  }

  /// MakeShared: one ControlBlockHolder holds both the counters and the object.
  method MakeShared(esft: bool) returns (sp: SharedPtr)
    ensures fresh(sp) && fresh(sp.cb) && fresh(sp.ptr) && sp.Sound()
    ensures sp.ptr.weakThis != null ==> fresh(sp.ptr.weakThis)
    ensures sp.esft == esft && sp.cb.variant == HoldsInline && sp.ptr == sp.cb.obj
    ensures sp.UseCount() == 1 && sp.cb.owners == {sp}
    ensures sp.cb.Counts() == Registered(Born, esft, false)
    ensures sp.cb.watchers == if esft then {sp.ptr.weakThis} else {}
    ensures esft ==> sp.ptr.weakThis.cb == sp.cb
  {
    var holder := new ControlBlock.HoldInline(esft);
    sp := new SharedPtr.FromHolder(holder);
  }

  class WeakPtr {
    /// The element type derives from EnableSharedFromThis.
    const esft: bool
    /// This is the private weak_this_ member of an object, which only SharedPtr
    /// assigns (registration) and resets (Release).
    ghost const selfRef: bool
    var ptr: Obj?
    var cb: ControlBlock?

    /// This handle holds one weak share of its block; for a self-referencing type it
    /// observes exactly the block's object.
    ghost predicate Valid()
      reads this, cb
    {
      && (cb != null ==> this in cb.watchers && cb.obj != null && cb.obj.esft == esft)
      && (ptr != null ==> ptr.esft == esft)
      && (esft ==> if cb == null then ptr == null else ptr == cb.obj)
    }

    ghost predicate Sound()
      reads this, cb, if cb != null then cb.Footprint() else {}
    {
      Valid() && (cb != null ==> cb.Valid())
    }

    /// This handle is the weak_this_ member of its block's object.
    ghost predicate IsSelfRef()
      reads this, cb
    {
      cb != null && cb.SelfRef() == this
    }

    /// WeakPtr(): refers to nothing.
    constructor Empty(esft: bool)
      ensures this.esft == esft && !selfRef && ptr == null && cb == null && Valid()
    {
      this.esft := esft;
      selfRef := false;
      ptr, cb := null, null;
    }

    /// The same default constructor, building the weak_this_ member of a
    /// self-referencing object.
    constructor Member()
      ensures esft && selfRef && ptr == null && cb == null && Valid()
    {
      esft := true;
      selfRef := true;
      ptr, cb := null, null;
    }

    /// WeakPtr(const WeakPtr& other), and the converting copy: share the block and add
    /// a weak share.
    constructor Copy(other: WeakPtr)
      requires other.Sound()
      modifies other.cb
      ensures !selfRef
      ensures esft == other.esft && ptr == other.ptr && cb == other.cb
      ensures Sound() && other.Sound()
      ensures cb != null ==>
        && cb.watchers == old(other.cb.watchers) + {this}
        && cb.owners == old(other.cb.owners)
        && cb.Counts() == AddWeak(old(other.cb.Counts()))
    {
      esft := other.esft;
      selfRef := false;
      ptr, cb := null, null;
      new;
      Share(other.ptr, other.cb);
    }

    /// WeakPtr(WeakPtr&& other), and the converting move: take over the weak share and
    /// leave the source empty.
    constructor Move(other: WeakPtr)
      requires other.Sound()
      modifies other, other.cb
      ensures !selfRef
      ensures esft == other.esft && ptr == old(other.ptr) && cb == old(other.cb)
      ensures other.ptr == null && other.cb == null
      ensures Sound() && other.Sound()
      ensures cb != null ==>
        && cb.watchers == old(other.cb.watchers) - {other} + {this}
        && cb.owners == old(other.cb.owners)
        && cb.Counts() == old(other.cb.Counts())
    {
      esft := other.esft;
      selfRef := false;
      ptr, cb := null, null;
      new;
      TakeOver(other);
    }

    /// WeakPtr(const SharedPtr& other), demotion: add a weak share, leave strong alone.
    constructor Demote(other: SharedPtr)
      requires other.Sound()
      modifies other.cb
      ensures !selfRef
      ensures esft == other.esft && ptr == other.ptr && cb == other.cb
      ensures Sound() && other.Sound()
      ensures cb != null ==>
        && cb.watchers == old(other.cb.watchers) + {this}
        && cb.owners == old(other.cb.owners)
        && cb.Counts() == AddWeak(old(other.cb.Counts()))
    {
      esft := other.esft;
      selfRef := false;
      ptr, cb := null, null;
      new;
      other.SelfRefFacts();
      Share(other.ptr, other.cb);
    }

    /// Point an empty handle at `p` and take one more weak share of `b`, which must not
    /// have freed itself.
    method Share(p: Obj?, b: ControlBlock?)
      requires ptr == null && cb == null
      requires p != null ==> p.esft == esft
      requires b != null ==> b.Valid() && b.destructions == 0 && b.obj.esft == esft
      requires b != null && b.SelfRef() == this ==> b.strong > 0
      requires esft ==> if b == null then p == null else p == b.obj
      modifies this, b
      ensures ptr == p && cb == b && Valid()
      ensures b != null ==>
        && b.Valid()
        && b.watchers == old(b.watchers) + {this}
        && b.owners == old(b.owners)
        && b.Counts() == AddWeak(old(b.Counts()))
    {
      ptr, cb := p, b;
      if b != null {
        b.AddWeakRef();
        b.watchers := b.watchers + {this};
      }
    }

    /// Move `other`'s weak share to this empty handle and empty `other`.
    method TakeOver(other: WeakPtr)
      requires ptr == null && cb == null && this != other
      requires other.Sound() && other.esft == esft
      requires other.cb != null && other.cb.SelfRef() == this ==> other.cb.strong > 0
      modifies this, other, other.cb
      ensures ptr == old(other.ptr) && cb == old(other.cb) && Sound()
      ensures other.ptr == null && other.cb == null
      ensures cb != null ==>
        && cb.watchers == old(other.cb.watchers) - {other} + {this}
        && cb.owners == old(other.cb.owners)
        && cb.Counts() == old(other.cb.Counts())
    {
      ptr, cb := other.ptr, other.cb;
      if cb != null {
        cb.watchers := cb.watchers - {other} + {this};
      }
      other.Zeroing();
    }

    /// WeakPtr::Release: drop the weak share, Destroy the block when both counts are 0.
    method Release()
      requires Sound()
      modifies this, cb
      ensures ptr == null && cb == null
      ensures old(cb) != null ==>
        && old(cb).Valid()
        && old(cb).watchers == old(cb.watchers) - {this}
        && old(cb).owners == old(cb.owners)
        && old(cb).Counts() == DropWeak(old(cb.Counts()))
    {
      if cb != null {
        cb.RemoveWeakRef();
        cb.watchers := cb.watchers - {this};
        if cb.IsZeroStrongOwning() && cb.IsZeroWeakOwning() {
          cb.Destroy();
        }
      }
      Zeroing();
    }

    /// WeakPtr::Zeroing: forget both fields, with no counter change.
    method Zeroing()
      modifies this
      ensures ptr == null && cb == null
    {
      ptr, cb := null, null;
    }

    /// Reset(): release the weak share; the handle then refers to nothing.
    method Reset()
      requires Sound()
      modifies this, cb
      ensures ptr == null && cb == null && Sound()
      ensures old(cb) != null ==>
        && old(cb).Valid()
        && old(cb).watchers == old(cb.watchers) - {this}
        && old(cb).owners == old(cb.owners)
        && old(cb).Counts() == DropWeak(old(cb.Counts()))
    {
      Release();
    }

    /// operator=(SharedPtr&): release the old weak share, then take a weak share of
    /// `other`'s block. There is no self-assignment test. A registered self-reference
    /// is only ever assigned from a handle on its own object's block.
    method AssignShared(other: SharedPtr)
      requires Sound() && other.Sound() && other.esft == esft
      requires IsSelfRef() ==> other.cb == cb
      modifies this, cb, other.cb
      ensures ptr == other.ptr && cb == other.cb && Sound() && other.Sound()
      ensures old(cb) != null && old(cb) != cb ==>
        && old(cb).Valid()
        && old(cb).watchers == old(cb.watchers) - {this}
        && old(cb).owners == old(cb.owners)
        && old(cb).Counts() == DropWeak(old(cb.Counts()))
      ensures cb != null && old(cb) != cb ==>
        && cb.watchers == old(other.cb.watchers) + {this}
        && cb.owners == old(other.cb.owners)
        && cb.Counts() == AddWeak(old(other.cb.Counts()))
      ensures cb != null && old(cb) == cb ==>
        && cb.watchers == old(cb.watchers)
        && cb.owners == old(cb.owners)
        && cb.Counts() == old(cb.Counts())
    {
      if cb == other.cb {
        ShareWithinBlock(other);
      } else if cb == null {
        ShareUnbound(other);
      } else {
        ShareAcrossBlocks(other);
      }
    }

    /// AssignShared from an owner of this handle's own block (one code path with
    /// AcrossBlocks, split for the proof): Release, then Share.
    method ShareWithinBlock(other: SharedPtr)
      requires Sound() && other.Sound() && other.esft == esft && cb == other.cb
      modifies this, cb
      ensures ptr == other.ptr && cb == other.cb && Sound() && other.Sound()
      ensures cb != null ==> cb.watchers == old(cb.watchers) && cb.owners == old(cb.owners)
      ensures cb != null ==> cb.Counts() == old(cb.Counts())
    {
      other.SelfRefFacts();
      Release();
      Share(other.ptr, other.cb);
    }

    /// AssignShared on a handle without a block: Release (which only forgets the
    /// observed pointer), then Share.
    method ShareUnbound(other: SharedPtr)
      requires Sound() && other.Sound() && other.esft == esft && cb == null && other.cb != null
      modifies this, other.cb
      ensures ptr == other.ptr && cb == other.cb && Sound() && other.Sound()
      ensures cb.watchers == old(other.cb.watchers) + {this}
      ensures cb.owners == old(other.cb.owners)
      ensures cb.Counts() == AddWeak(old(other.cb.Counts()))
    {
      other.SelfRefFacts();
      Release();
      Share(other.ptr, other.cb);
    }

    /// AssignShared from an owner of another block: Release, then Share.
    method ShareAcrossBlocks(other: SharedPtr)
      requires Sound() && other.Sound() && other.esft == esft && cb != other.cb
      requires cb != null && !IsSelfRef()
      modifies this, cb, other.cb
      ensures ptr == other.ptr && cb == other.cb && Sound() && other.Sound()
      ensures old(cb).Valid()
      ensures old(cb).watchers == old(cb.watchers) - {this}
      ensures old(cb).owners == old(cb.owners)
      ensures old(cb).Counts() == DropWeak(old(cb.Counts()))
      ensures cb != null ==>
        && cb.watchers == old(other.cb.watchers) + {this}
        && cb.owners == old(other.cb.owners)
        && cb.Counts() == AddWeak(old(other.cb.Counts()))
    {
      other.SelfRefFacts();
      ghost var previous := cb;
      Release();
      ShareLeaving(other, previous);
    }

    /// The Share half of ShareAcrossBlocks: the block this handle has just left is not
    /// touched and stays consistent.
    method ShareLeaving(other: SharedPtr, ghost previous: ControlBlock)
      requires ptr == null && cb == null
      requires other.Sound() && other.esft == esft && other.cb != previous
      requires previous.Valid() && this !in previous.watchers && previous.SelfRef() != this
      modifies this, other.cb
      ensures ptr == other.ptr && cb == other.cb && Sound() && other.Sound()
      ensures previous.Valid()
      ensures cb != null ==>
        && cb.watchers == old(other.cb.watchers) + {this}
        && cb.owners == old(other.cb.owners)
        && cb.Counts() == AddWeak(old(other.cb.Counts()))
    {
      other.SelfRefFacts();
      Share(other.ptr, other.cb);
    }

    /// operator=(const WeakPtr&), and the converting one: unless it is
    /// self-assignment, release the old weak share and take one of `other`'s block.
    method AssignCopy(other: WeakPtr)
      requires Sound() && other.Sound() && other.esft == esft && !selfRef
      modifies this, cb, other.cb
      ensures ptr == other.ptr && cb == other.cb && Sound() && other.Sound()
      ensures this == other ==> unchanged(this) && (cb != null ==> unchanged(cb))
      ensures this != other && old(cb) != null && old(cb) != cb ==>
        && old(cb).Valid()
        && old(cb).watchers == old(cb.watchers) - {this}
        && old(cb).owners == old(cb.owners)
        && old(cb).Counts() == DropWeak(old(cb.Counts()))
      ensures this != other && cb != null && old(cb) != cb ==>
        && cb.watchers == old(other.cb.watchers) + {this}
        && cb.owners == old(other.cb.owners)
        && cb.Counts() == AddWeak(old(other.cb.Counts()))
      ensures this != other && cb != null && old(cb) == cb ==>
        && cb.watchers == old(cb.watchers)
        && cb.owners == old(cb.owners)
        && cb.Counts() == old(cb.Counts())
    {
      if this != other {
        if cb == other.cb {
          CopyWithinBlock(other);
        } else {
          CopyAcrossBlocks(other);
        }
      }
    }

    /// AssignCopy between two handles of one block: Release, then Share.
    method CopyWithinBlock(other: WeakPtr)
      requires Sound() && other.Sound() && other.esft == esft
      requires this != other && cb == other.cb && !selfRef
      modifies this, cb
      ensures ptr == other.ptr && cb == other.cb && Sound() && other.Sound()
      ensures cb != null ==> cb.watchers == old(cb.watchers) && cb.owners == old(cb.owners)
      ensures cb != null ==> cb.Counts() == old(cb.Counts())
    {
      Release();
      Share(other.ptr, other.cb);
    }

    /// AssignCopy from a handle of another block: Release, then Share.
    method CopyAcrossBlocks(other: WeakPtr)
      requires Sound() && other.Sound() && other.esft == esft
      requires this != other && cb != other.cb && !selfRef
      modifies this, cb, other.cb
      ensures ptr == other.ptr && cb == other.cb && Sound() && other.Sound()
      ensures old(cb) != null ==>
        && old(cb).Valid()
        && old(cb).watchers == old(cb.watchers) - {this}
        && old(cb).owners == old(cb.owners)
        && old(cb).Counts() == DropWeak(old(cb.Counts()))
      ensures cb != null ==>
        && cb.watchers == old(other.cb.watchers) + {this}
        && cb.owners == old(other.cb.owners)
        && cb.Counts() == AddWeak(old(other.cb.Counts()))
    {
      Release();
      Share(other.ptr, other.cb);
    }

    /// operator=(WeakPtr&&), and the converting one: unless it is self-assignment,
    /// release the old weak share, take over `other`'s, and empty `other`.
    method AssignMove(other: WeakPtr)
      requires Sound() && other.Sound() && other.esft == esft && !selfRef
      modifies this, cb, other, other.cb
      ensures this == other ==> unchanged(this) && (cb != null ==> unchanged(cb))
      ensures this != other ==>
        ptr == old(other.ptr) && cb == old(other.cb) && other.ptr == null && other.cb == null
      ensures Sound() && other.Sound()
      ensures this != other && old(cb) != null && old(cb) != cb ==>
        && old(cb).Valid()
        && old(cb).watchers == old(cb.watchers) - {this}
        && old(cb).owners == old(cb.owners)
        && old(cb).Counts() == DropWeak(old(cb.Counts()))
      ensures this != other && cb != null && old(cb) != cb ==>
        && cb.watchers == old(other.cb.watchers) - {other} + {this}
        && cb.owners == old(other.cb.owners)
        && cb.Counts() == old(other.cb.Counts())
      ensures this != other && cb != null && old(cb) == cb ==>
        && cb.watchers == old(cb.watchers) - {other}
        && cb.owners == old(cb.owners)
        && cb.Counts() == DropWeak(old(cb.Counts()))
    {
      if this != other {
        if cb == other.cb {
          MoveWithinBlock(other);
        } else {
          MoveAcrossBlocks(other);
        }
      }
    }

    /// AssignMove between two handles of one block: Release, then TakeOver.
    method MoveWithinBlock(other: WeakPtr)
      requires Sound() && other.Sound() && other.esft == esft
      requires this != other && cb == other.cb && !selfRef
      modifies this, cb, other
      ensures ptr == old(other.ptr) && cb == old(other.cb) && other.ptr == null && other.cb == null
      ensures Sound() && other.Sound()
      ensures cb != null ==>
        && cb.watchers == old(cb.watchers) - {other}
        && cb.owners == old(cb.owners)
        && cb.Counts() == DropWeak(old(cb.Counts()))
    {
      Release();
      TakeOver(other);
    }

    /// AssignMove from a handle of another block: Release, then TakeOver.
    method MoveAcrossBlocks(other: WeakPtr)
      requires Sound() && other.Sound() && other.esft == esft
      requires this != other && cb != other.cb && !selfRef
      modifies this, cb, other, other.cb
      ensures ptr == old(other.ptr) && cb == old(other.cb) && other.ptr == null && other.cb == null
      ensures Sound() && other.Sound()
      ensures old(cb) != null ==>
        && old(cb).Valid()
        && old(cb).watchers == old(cb.watchers) - {this}
        && old(cb).owners == old(cb.owners)
        && old(cb).Counts() == DropWeak(old(cb.Counts()))
      ensures cb != null ==>
        && cb.watchers == old(other.cb.watchers) - {other} + {this}
        && cb.owners == old(other.cb.owners)
        && cb.Counts() == old(other.cb.Counts())
    {
      Release();
      TakeOver(other);
    }

    /// Swap: exchange both fields; no counter changes.
    method Swap(other: WeakPtr)
      requires Sound() && other.Sound() && other.esft == esft
      requires !selfRef && !other.selfRef
      modifies this, other, cb, other.cb
      ensures ptr == old(other.ptr) && cb == old(other.cb)
      ensures other.ptr == old(ptr) && other.cb == old(cb)
      ensures Sound() && other.Sound()
      ensures cb != null ==> cb.Counts() == old(other.cb.Counts()) && cb.owners == old(other.cb.owners)
      ensures other.cb != null ==> other.cb.Counts() == old(cb.Counts()) && other.cb.owners == old(cb.owners)
      ensures old(cb) == old(other.cb) && cb != null ==> cb.watchers == old(cb.watchers)
      ensures old(cb) != old(other.cb) && cb != null ==> cb.watchers == old(other.cb.watchers) - {other} + {this}
      ensures old(cb) != old(other.cb) && other.cb != null ==> other.cb.watchers == old(cb.watchers) - {this} + {other}
    {
      if cb == other.cb {
        ptr, other.ptr := other.ptr, ptr;
      } else {
        SwapAcrossBlocks(other);
      }
    }

    /// Swap with a handle of another block: each handle's share moves with it.
    method SwapAcrossBlocks(other: WeakPtr)
      requires Sound() && other.Sound() && other.esft == esft && cb != other.cb
      requires !selfRef && !other.selfRef
      modifies this, other, cb, other.cb
      ensures ptr == old(other.ptr) && cb == old(other.cb)
      ensures other.ptr == old(ptr) && other.cb == old(cb)
      ensures Sound() && other.Sound()
      ensures cb != null ==> cb.Counts() == old(other.cb.Counts()) && cb.owners == old(other.cb.owners)
      ensures other.cb != null ==> other.cb.Counts() == old(cb.Counts()) && other.cb.owners == old(cb.owners)
      ensures cb != null ==> cb.watchers == old(other.cb.watchers) - {other} + {this}
      ensures old(cb) != old(other.cb) && other.cb != null ==> other.cb.watchers == old(cb.watchers) - {this} + {other}
    {
      var tmp := new WeakPtr.Empty(esft);
      tmp.TakeOver(this);
      FinishSwap(other, tmp);
    }

    /// The rest of a swap through a temporary that holds this handle's former share.
    method FinishSwap(other: WeakPtr, tmp: WeakPtr)
      requires ptr == null && cb == null && this != other && this != tmp && other != tmp
      requires other.Sound() && tmp.Sound() && other.esft == esft && tmp.esft == esft
      requires other.cb != tmp.cb && !selfRef && !other.selfRef && !tmp.selfRef
      modifies this, other, tmp, other.cb, tmp.cb
      ensures ptr == old(other.ptr) && cb == old(other.cb)
      ensures other.ptr == old(tmp.ptr) && other.cb == old(tmp.cb)
      ensures Sound() && other.Sound()
      ensures cb != null ==> cb.Counts() == old(other.cb.Counts()) && cb.owners == old(other.cb.owners)
      ensures other.cb != null ==> other.cb.Counts() == old(tmp.cb.Counts()) && other.cb.owners == old(tmp.cb.owners)
      ensures cb != null ==> cb.watchers == old(other.cb.watchers) - {other} + {this}
      ensures other.cb != null ==> other.cb.watchers == old(tmp.cb.watchers) - {tmp} + {other}
    {
      TakeOver(other);
      other.TakeOver(tmp);
    }

    /// The number of SharedPtr handles owning the block, 0 without a block.
    function UseCount(): (n: nat)
      reads this, cb
      requires Valid() && (cb != null ==> cb.Counted())
      ensures n == if cb == null then 0 else |cb.owners|
    {
      if cb != null then cb.GetStrongRefsCount() else 0
    }

    /// No SharedPtr owns the object any more (or there never was a block): the object
    /// has been disposed, and only a failed promotion is possible.
    function Expired(): (e: bool)
      reads this, cb
      requires Valid() && (cb != null ==> cb.Counted())
      ensures e <==> UseCount() == 0
      ensures e <==> (cb == null || cb.owners == {})
      ensures cb != null ==> (e <==> cb.disposals == 1)
    {
      UseCount() == 0
    }

    /// Lock: an empty SharedPtr if expired, otherwise a new owner of the block. Never fails.
    method Lock() returns (sp: SharedPtr)
      requires Sound()
      modifies cb
      ensures fresh(sp) && sp.esft == esft && sp.Sound() && Sound()
      ensures old(Expired()) ==> sp.ptr == null && sp.cb == null
      ensures old(Expired()) && cb != null ==> unchanged(cb)
      ensures !old(Expired()) ==>
        && sp.ptr == ptr && sp.cb == cb
        && cb.owners == old(cb.owners) + {sp}
        && cb.watchers == old(cb.watchers)
        && cb.Counts() == AddStrong(old(cb.Counts()))
    {
      if Expired() {
        sp := new SharedPtr.Empty(esft);
      } else {
        sp := new SharedPtr.FromLiveWeak(this);
      }
    }
  }
}
