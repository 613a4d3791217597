/**
  Exclusive ownership (unique/unique.h): UniquePtr<T, Deleter> and its array
  specialisation UniquePtr<T[], Deleter>, with the default deleter Slug.

  The pointer/deleter pair (a CompressedPair in the source) is two plain fields. Every
  heap allocation records, as ghost state, the UniquePtr that owns it (`owner`) and the
  deleters it has been handed so far (`freedBy`). A handle's `Valid()` says that it
  owns its allocation and that the allocation has not been freed; since only the owner
  frees, and only once while it still owns it, no allocation is ever freed twice.
*/
module Unique {

  /// The deleter stored in a UniquePtr. Slug is the default: `delete ptr` for a single
  /// object (Slug<T>), `delete[] ptr` for an array (Slug<T[]>). A user-supplied
  /// deleter is told apart from others by its identity.
  datatype Deleter = Slug(forArray: bool) | Custom(id: nat)

  /// The deleter a UniquePtr builds when none is given: Slug<T> or Slug<T[]>.
  function DefaultDeleter(isArray: bool): (d: Deleter)
    ensures d.Slug? && d.forArray == isArray
  {
    Slug(isArray)
  }

  /// A deleter call is well-formed for an allocation when a Slug applies the form of
  /// `delete` matching how the allocation was made: `delete[]` for `new T[n]`,
  /// `delete` for `new T`. A custom deleter is trusted to know its allocation.
  predicate Matches(d: Deleter, isArray: bool)
  {
    d.Slug? ==> d.forArray == isArray
  }

  /// The default deleter frees an allocation correctly exactly when the handle's
  /// specialisation (UniquePtr<T> or UniquePtr<T[]>) agrees with how the allocation
  /// was made.
  lemma DefaultDeleterMatchesAllocation(isArray: bool, allocatedAsArray: bool)
    ensures Matches(DefaultDeleter(isArray), allocatedAsArray) <==> isArray == allocatedAsArray
  {
  }

  /// One allocation made with `new T` (a single object) or `new T[n]` (an array whose
  /// elements are `cells`).
  class Allocation {
    const isArray: bool
    const cells: seq<int>
    /// The UniquePtr currently owning this allocation, if any.
    ghost var owner: UniquePtr?
    /// Every deleter call made on this allocation, in order.
    ghost var freedBy: seq<Deleter>

    constructor (isArray: bool, cells: seq<int>)
      requires !isArray ==> |cells| == 1
      ensures this.isArray == isArray && this.cells == cells
      ensures owner == null && freedBy == []
    {
      this.isArray := isArray;
      this.cells := cells;
      owner := null;
      freedBy := [];
    }

    /// Neither owned by a UniquePtr nor freed: a fresh result of `new`, or a pointer
    /// given back by Release.
    ghost predicate Loose()
      reads this
    {
      owner == null && freedBy == []
    }
  }

  class UniquePtr {
    /// The array specialisation UniquePtr<T[], Deleter>.
    const isArray: bool
    var ptr: Allocation?
    var deleter: Deleter

    /// This handle owns its allocation, which has not been freed.
    ghost predicate Valid()
      reads this, ptr
    {
      ptr != null ==> ptr.owner == this && ptr.freedBy == []
    }

    /// The handle's specialisation agrees with its allocation and its deleter, so that
    /// freeing the allocation uses the right form of `delete`.
    ghost predicate FormAgrees()
      reads this
    {
      (ptr != null ==> ptr.isArray == isArray) && Matches(deleter, isArray)
    }

    /// explicit UniquePtr(T* ptr = nullptr): adopt `p` with the default deleter.
    constructor (isArray: bool, p: Allocation?)
      requires p != null ==> p.Loose()
      modifies p
      ensures this.isArray == isArray && ptr == p && deleter == DefaultDeleter(isArray)
      ensures Valid()
      ensures FormAgrees() <==> (p == null || p.isArray == isArray)
    {
      this.isArray := isArray;
      ptr := p;
      deleter := DefaultDeleter(isArray);
      new;
      if p != null {
        p.owner := this;
      }
    }

    /// UniquePtr(T* ptr, Deleter deleter): adopt `p` with the given deleter.
    constructor WithDeleter(isArray: bool, p: Allocation?, d: Deleter)
      requires p != null ==> p.Loose()
      modifies p
      ensures this.isArray == isArray && ptr == p && deleter == d
      ensures Valid()
      ensures FormAgrees() <==> (p == null || p.isArray == isArray) && Matches(d, isArray)
    {
      this.isArray := isArray;
      ptr := p;
      deleter := d;
      new;
      if p != null {
        p.owner := this;
      }
    }

    /// UniquePtr(UniquePtr<U, D>&& other): take `other.Release()` and `other`'s deleter;
    /// nothing is freed and `other` is left empty.
    constructor Move(other: UniquePtr)
      requires other.Valid()
      modifies other, other.ptr
      ensures isArray == other.isArray && ptr == old(other.ptr) && deleter == other.deleter
      ensures other.ptr == null && other.deleter == old(other.deleter)
      ensures Valid() && other.Valid()
      ensures ptr != null ==> ptr.freedBy == []
      ensures FormAgrees() <==> old(other.FormAgrees())
    {
      isArray := other.isArray;
      ptr := null;
      deleter := other.deleter;
      new;
      var p := other.Release();
      ptr := p;
      if p != null {
        p.owner := this;
      }
    }

    /// Release: give up ownership without freeing; the handle becomes null.
    method Release() returns (r: Allocation?)
      requires Valid()
      modifies this, ptr
      ensures r == old(ptr) && ptr == null && deleter == old(deleter) && Valid()
      ensures r != null ==> r.Loose()
      ensures FormAgrees() <==> Matches(deleter, isArray)
    {
      r := ptr;
      ptr := null;
      if r != null {
        r.owner := null;
      }
    }

    /// Reset(T* ptr = nullptr): store `p` first, then hand the old pointer, if non-null,
    /// to the deleter.
    method Reset(p: Allocation?)
      requires Valid()
      requires p != null ==> p.Loose()
      modifies this, ptr, p
      ensures ptr == p && deleter == old(deleter) && Valid()
      ensures old(ptr) != null ==> old(ptr).freedBy == [deleter] && old(ptr).owner == null
      ensures FormAgrees() <==> Matches(deleter, isArray) && (p == null || p.isArray == isArray)
      ensures old(FormAgrees()) && old(ptr) != null ==> Matches(old(ptr).freedBy[0], old(ptr).isArray)
    {
      var previous := ptr;
      ptr := p;
      if p != null {
        p.owner := this;
      }
      if previous != null {
        Free(previous);
      }
    }

    /// `GetDeleter()(ptr)`: the stored deleter frees an allocation this handle owned.
    method Free(a: Allocation)
      requires a.owner == this && a.freedBy == [] && a != ptr
      modifies a
      ensures a.freedBy == [deleter] && a.owner == null
    {
      a.freedBy := a.freedBy + [deleter];
      a.owner := null;
    }

    /// operator=(UniquePtr<U, D>&&): Reset(other.Release()), then take `other`'s deleter.
    /// The old allocation is freed with the old deleter; a self-move keeps the pointer.
    method AssignMove(other: UniquePtr)
      requires Valid() && other.Valid()
      modifies this, ptr, other, other.ptr
      ensures ptr == old(other.ptr) && deleter == old(other.deleter) && Valid()
      ensures this != other ==> other.ptr == null && other.Valid()
      ensures old(ptr) != null && old(ptr) != old(other.ptr) ==>
        old(ptr).freedBy == [old(deleter)] && old(ptr).owner == null
      ensures ptr != null ==> ptr.freedBy == []
      ensures isArray == other.isArray ==> (FormAgrees() <==> old(other.FormAgrees()))
      ensures old(FormAgrees()) && old(ptr) != null && old(ptr) != old(other.ptr) ==>
        Matches(old(ptr).freedBy[0], old(ptr).isArray)
    {
      var p := other.Release();
      Reset(p);
      deleter := other.deleter;
    }

    /// operator=(nullptr): Reset().
    method AssignNull()
      requires Valid()
      modifies this, ptr
      ensures ptr == null && deleter == old(deleter) && Valid()
      ensures old(ptr) != null ==> old(ptr).freedBy == [deleter] && old(ptr).owner == null
      ensures FormAgrees() <==> Matches(deleter, isArray)
      ensures old(FormAgrees()) && old(ptr) != null ==> Matches(old(ptr).freedBy[0], old(ptr).isArray)
    {
      Reset(null);
    }

    /// ~UniquePtr: hand the pointer, if non-null, to the deleter.
    method Destruct()
      requires Valid()
      modifies ptr
      ensures ptr != null ==> ptr.freedBy == [deleter]
      ensures FormAgrees() && ptr != null ==> Matches(ptr.freedBy[0], ptr.isArray)
    {
      var current := Get();
      if current != null {
        current.freedBy := current.freedBy + [deleter];
      }
    }

    /// Swap: exchange both the pointers and the deleters.
    method Swap(other: UniquePtr)
      requires Valid() && other.Valid()
      modifies this, other, ptr, other.ptr
      ensures ptr == old(other.ptr) && deleter == old(other.deleter)
      ensures other.ptr == old(ptr) && other.deleter == old(deleter)
      ensures Valid() && other.Valid()
      ensures isArray == other.isArray ==>
        && (FormAgrees() <==> old(other.FormAgrees()))
        && (other.FormAgrees() <==> old(FormAgrees()))
    {
      ptr, other.ptr := other.ptr, ptr;
      deleter, other.deleter := other.deleter, deleter;
      if ptr != null {
        ptr.owner := this;
      }
      if other.ptr != null {
        other.ptr.owner := other;
      }
    }

    function Get(): (p: Allocation?)
      reads this
      ensures p == ptr
    {
      ptr
    }

    function GetDeleter(): (d: Deleter)
      reads this
      ensures d == deleter
    {
      deleter
    }

    /// operator bool.
    function IsSet(): (b: bool)
      reads this
      ensures b <==> ptr != null
    {
      Get() != null
    }

    /// operator[] of the array specialisation: element `i` of the owned array.
    function At(i: nat): (v: int)
      reads this, ptr
      requires isArray && ptr != null && i < |ptr.cells|
      ensures v == Get().cells[i]
    {
      ptr.cells[i]
    }
  }
}
