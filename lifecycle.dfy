/**
  The bookkeeping of one control block (IControlBlock in weak/shared.h) as a value:
  its strong and weak counters, and how many times the block has called Dispose
  (destroying the managed object) and Destroy (freeing the block itself).

  The imperative model in shared.dfy specifies every counter update of a
  SharedPtr or WeakPtr by the step functions below; the lemmas here then say
  what any interleaving of such updates can and cannot do to one block.
*/
module Lifecycle {

  datatype Counters = Counters(strong: nat, weak: nat, disposals: nat, destructions: nat)

  /// A block right after it adopted a non-null pointer or built its object in place:
  /// one strong share, no weak share, nothing disposed or destroyed yet.
  const Born: Counters := Counters(1, 0, 0, 0)

  /// The lifecycle invariant of a block that was born owned: the object has been
  /// disposed, exactly once, iff no strong share is left, and the block has been
  /// destroyed, exactly once, iff no share of either kind is left.
  predicate Consistent(c: Counters) {
    && c.disposals == (if c.strong == 0 then 1 else 0)
    && c.destructions == (if c.strong == 0 && c.weak == 0 then 1 else 0)
  }

  /// `Expired()` of a WeakPtr on this block: no strong share is left.
  predicate Expired(c: Counters) {
    c.strong == 0
  }

  /// AddStrongRef: a copy, an alias or a promotion takes one more strong share.
  function AddStrong(c: Counters): Counters {
    c.(strong := c.strong + 1)
  }

  /// AddWeakRef: a WeakPtr copy, a demotion or a self-reference registration.
  function AddWeak(c: Counters): Counters {
    c.(weak := c.weak + 1)
  }

  /// The block's side of SharedPtr::Release: drop one strong share, Dispose when the
  /// strong count reaches 0, then Destroy when both counts are 0.
  function DropStrong(c: Counters): Counters
    requires c.strong > 0
  {
    var strong := c.strong - 1;
    Counters(strong, c.weak,
             if strong == 0 then c.disposals + 1 else c.disposals,
             if strong == 0 && c.weak == 0 then c.destructions + 1 else c.destructions)
  }

  /// The block's side of WeakPtr::Release: drop one weak share, then Destroy when
  /// both counts are 0.
  function DropWeak(c: Counters): Counters
    requires c.weak > 0
  {
    var weak := c.weak - 1;
    Counters(c.strong, weak, c.disposals,
             if c.strong == 0 && weak == 0 then c.destructions + 1 else c.destructions)
  }

  /// The promoting constructor and `Lock`: fail (None) on an expired block,
  /// otherwise take one more strong share.
  function Promote(c: Counters): (r: Option<Counters>)
    ensures r.None? <==> Expired(c)
    ensures r.Some? ==> r.value.strong == c.strong + 1 && r.value.weak == c.weak
  {
    if c.strong == 0 then None else Some(AddStrong(c))
  }

  datatype Option<T> = None | Some(value: T)

  /// What a handle operation does to one block, seen from the block.
  datatype Step =
    | CopyShared    // SharedPtr copy, aliasing, copy assignment (the new share)
    | ReleaseShared // SharedPtr Release / Reset / destructor / assignment over it
    | Demote        // WeakPtr from a SharedPtr, or a self-reference registration
    | CopyWeak      // WeakPtr copy or copy assignment
    | ReleaseWeak   // WeakPtr Release / Reset / destructor, or a self-reference reset
    | TryPromote    // WeakPtr::Lock or SharedPtr(const WeakPtr&)

  /// A step is possible only when a handle it starts from is alive: something to copy,
  /// to release or to promote from.
  predicate Enabled(c: Counters, s: Step) {
    match s
    case CopyShared => c.strong > 0
    case ReleaseShared => c.strong > 0
    case Demote => c.strong > 0
    case CopyWeak => c.weak > 0
    case ReleaseWeak => c.weak > 0
    case TryPromote => c.weak > 0
  }

  function Apply(c: Counters, s: Step): Counters
    requires Enabled(c, s)
  {
    match s
    case CopyShared => AddStrong(c)
    case ReleaseShared => DropStrong(c)
    case Demote => AddWeak(c)
    case CopyWeak => AddWeak(c)
    case ReleaseWeak => DropWeak(c)
    case TryPromote => if Promote(c).Some? then Promote(c).value else c
  }

  predicate Legal(c: Counters, steps: seq<Step>)
    decreases |steps|
  {
    steps == [] || (Enabled(c, steps[0]) && Legal(Apply(c, steps[0]), steps[1..]))
  }

  function Run(c: Counters, steps: seq<Step>): Counters
    requires Legal(c, steps)
    decreases |steps|
  {
    if steps == [] then c else Run(Apply(c, steps[0]), steps[1..])
  }

  /// One step keeps the lifecycle invariant: the strong count reaching 0 disposes
  /// exactly once, both counts reaching 0 destroys exactly once.
  lemma StepKeepsConsistent(c: Counters, s: Step)
    requires Consistent(c) && Enabled(c, s)
    ensures Consistent(Apply(c, s))
  {
  }

  /// Any legal sequence of handle operations keeps the lifecycle invariant.
  lemma {:induction false} RunKeepsConsistent(c: Counters, steps: seq<Step>)
    requires Consistent(c) && Legal(c, steps)
    ensures Consistent(Run(c, steps))
    decreases |steps|
  {
    if steps != [] {
      StepKeepsConsistent(c, steps[0]);
      RunKeepsConsistent(Apply(c, steps[0]), steps[1..]);
    }
  }

  /// From birth, whatever the handles do: Dispose is called at most once, Destroy at
  /// most once, and Destroy never before Dispose.
  lemma {:induction false} DisposeAndDestroyAtMostOnce(steps: seq<Step>)
    requires Legal(Born, steps)
    ensures Run(Born, steps).disposals <= 1
    ensures Run(Born, steps).destructions <= Run(Born, steps).disposals
  {
    RunKeepsConsistent(Born, steps);
  }

  /// Once the last strong share is gone the object never comes back: every later
  /// promotion fails, the strong count stays 0 and the object is not disposed again.
  lemma {:induction false} ExpiryIsPermanent(c: Counters, steps: seq<Step>)
    requires Expired(c) && Legal(c, steps)
    ensures Expired(Run(c, steps))
    ensures Run(c, steps).disposals == c.disposals
    decreases |steps|
  {
    if steps != [] {
      ExpiryIsPermanent(Apply(c, steps[0]), steps[1..]);
    }
  }

  /// Events are never undone: the counts of Dispose and Destroy calls only grow.
  lemma {:induction false} EventsOnlyAccumulate(c: Counters, steps: seq<Step>)
    requires Legal(c, steps)
    ensures Run(c, steps).disposals >= c.disposals
    ensures Run(c, steps).destructions >= c.destructions
    decreases |steps|
  {
    if steps != [] {
      EventsOnlyAccumulate(Apply(c, steps[0]), steps[1..]);
    }
  }

  /// A destroyed block admits no further operation: no handle is left to start one.
  lemma DestroyedIsFinal(c: Counters, s: Step)
    requires Consistent(c) && c.destructions > 0
    ensures !Enabled(c, s)
  {
  }

  /// A WeakPtr keeps the block alive after the object is gone: while a weak share is
  /// left, the block is not destroyed even though the object has been disposed.
  lemma WeakShareKeepsBlock(c: Counters)
    requires Consistent(c) && c.weak > 0
    ensures c.destructions == 0
    ensures Expired(c) <==> c.disposals == 1
  {
  }

  /// The self-reference reset that SharedPtr::Release performs before dropping its own
  /// strong share never destroys the block: the releasing handle still holds a share.
  lemma SelfResetNeverDestroys(c: Counters)
    requires Consistent(c) && c.strong > 0 && c.weak > 0
    ensures DropWeak(c).destructions == 0 && Consistent(DropWeak(c))
    ensures Consistent(DropStrong(DropWeak(c)))
  {
  }
}
