/** RedisClient's connection pool: slots, the free list, and the leases handed out. Each step is
    one critical section or one thread-local update, so a run is any interleaving of threads. */
module LeasePool {
  import opened Options

  type Context = nat

  /** A Lease object. Taken: inside acquire, between the critical section and ensureConnected.
      Returned: inside release, after the critical section of releaseSlot; its thread has still to
      notify the pool and to clear the fields. */
  datatype Lease =
    | Empty
    | Taken(slot: nat)
    | Live(slot: nat, context: Option<Context>)
    | Returned(slot: nat)

  datatype Pool = Pool(
    contexts: seq<Option<Context>>, available: seq<nat>, borrowed: nat,
    stopping: bool, finished: bool, leases: map<nat, Lease>)

  function Descending(n: nat): seq<nat> {
    seq(n, i requires 0 <= i < n => n - 1 - i)
  }

  function Init(poolSize: nat): Pool {
    var n := if poolSize == 0 then 1 else poolSize;
    Pool(seq(n, _ => None), Descending(n), 0, false, false, map[])
  }

  function LeaseOf(p: Pool, id: nat): Lease {
    if id in p.leases then p.leases[id] else Empty
  }

  predicate Owns(l: Lease) { l.Taken? || l.Live? }

  predicate AtRest(l: Lease) { l.Empty? || l.Live? }

  datatype Label =
    | Acquire(id: nat)                                     // the critical section of acquire
    | Connect(id: nat, healthy: bool, made: Option<Context>)   // ensureConnected
    | Close(id: nat)
    | Release(id: nat)                                     // releaseSlot
    | Clear(id: nat)                                       // and the rest of Lease::release
    | Move(src: nat, dst: nat)                             // into a lease that holds nothing
    | BeginShutdown
    | FinishShutdown

  /** A label that is not enabled leaves the pool as it is; acquire waits while no slot is free. */
  function Step(p: Pool, a: Label): Pool {
    match a
    case Acquire(id) =>
      if LeaseOf(p, id) != Empty || p.finished || p.stopping || p.available == [] then p
      else
        var n := |p.available| - 1;
        p.(available := p.available[..n], borrowed := p.borrowed + 1, leases := p.leases[id := Taken(p.available[n])])
    case Connect(id, healthy, made) =>
      var l := LeaseOf(p, id);
      if !l.Taken? || l.slot >= |p.contexts| then p
      else
        var c := if p.contexts[l.slot].Some? && healthy then p.contexts[l.slot] else made;
        p.(contexts := p.contexts[l.slot := c], leases := p.leases[id := Live(l.slot, c)])
    case Close(id) =>
      var l := LeaseOf(p, id);
      if !l.Live? || l.slot >= |p.contexts| then p
      else p.(contexts := p.contexts[l.slot := None], leases := p.leases[id := Live(l.slot, None)])
    case Release(id) =>
      var l := LeaseOf(p, id);
      if !l.Live? then p
      else p.(borrowed := if p.borrowed > 0 then p.borrowed - 1 else 0,
              available := if p.stopping then p.available else p.available + [l.slot],
              leases := p.leases[id := Returned(l.slot)])
    case Clear(id) =>
      if !LeaseOf(p, id).Returned? then p else p.(leases := p.leases[id := Empty])
    case Move(src, dst) =>
      if src == dst || !AtRest(LeaseOf(p, src)) || LeaseOf(p, dst) != Empty then p
      else p.(leases := p.leases[dst := LeaseOf(p, src)][src := Empty])
    case BeginShutdown => p.(stopping := true)
    case FinishShutdown => if p.stopping && p.borrowed == 0 then p.(finished := true) else p
  }

  function Run(p: Pool, labels: seq<Label>): Pool {
    if labels == [] then p else Step(Run(p, labels[..|labels| - 1]), labels[|labels| - 1])
  }

  // -------------------------------------------------------------------- invariant

  function Owners(p: Pool): set<nat> {
    set id | id in p.leases && Owns(p.leases[id])
  }

  /** No slot has two owners. */
  ghost predicate Exclusive(p: Pool) {
    forall i, j :: i in Owners(p) && j in Owners(p) && i != j ==> p.leases[i].slot != p.leases[j].slot
  }

  /** Free slots are distinct, exist, and nobody owns them. */
  ghost predicate FreeList(p: Pool) {
    && (forall i, j :: 0 <= i < j < |p.available| ==> p.available[i] != p.available[j])
    && (forall i :: 0 <= i < |p.available| ==> p.available[i] < |p.contexts|)
    && (forall i, id :: 0 <= i < |p.available| && id in Owners(p) ==> p.available[i] != p.leases[id].slot)
  }

  /** A lease's slot exists, and its context is its slot's: never one that has been freed. */
  ghost predicate OwnsContext(p: Pool) {
    forall id :: id in Owners(p) ==>
      && p.leases[id].slot < |p.contexts|
      && (p.leases[id].Live? && p.leases[id].context.Some? ==> p.contexts[p.leases[id].slot] == p.leases[id].context)
  }

  /** Until shutdown every slot is free or owned. */
  ghost predicate NoneLost(p: Pool) {
    !p.stopping ==>
      && |p.available| + p.borrowed == |p.contexts|
      && forall s :: 0 <= s < |p.contexts| ==> s in p.available || exists id :: id in Owners(p) && p.leases[id].slot == s
  }

  ghost predicate Inv(p: Pool) {
    && Exclusive(p) && FreeList(p) && OwnsContext(p) && NoneLost(p)
    && p.borrowed == |Owners(p)|
    && (p.finished ==> p.stopping && p.borrowed == 0)
  }

  lemma AcquireInv(p: Pool, id: nat)
    requires Inv(p) && LeaseOf(p, id) == Empty && !p.finished && !p.stopping && p.available != []
    ensures Inv(Step(p, Acquire(id)))
  {
    var q := Step(p, Acquire(id));
    assert Owners(q) == Owners(p) + {id};
    AcquireSlots(p, q, id);
    AcquireKeepsAll(p, q, id);
  }

  lemma AcquireSlots(p: Pool, q: Pool, id: nat)
    requires Exclusive(p) && FreeList(p) && OwnsContext(p) && p.available != [] && id !in Owners(p)
    requires Owners(q) == Owners(p) + {id} && q.contexts == p.contexts
    requires q.leases == p.leases[id := Taken(p.available[|p.available| - 1])] && q.available == p.available[..|p.available| - 1]
    ensures Exclusive(q) && FreeList(q) && OwnsContext(q)
  {
  }

  lemma AcquireKeepsAll(p: Pool, q: Pool, id: nat)
    requires NoneLost(p) && !p.stopping && p.available != [] && id !in Owners(p)
    requires Owners(q) == Owners(p) + {id} && q.contexts == p.contexts && q.borrowed == p.borrowed + 1
    requires q.leases == p.leases[id := Taken(p.available[|p.available| - 1])] && q.available == p.available[..|p.available| - 1]
    ensures NoneLost(q)
  {
    var n := |p.available| - 1;
    assert p.available == p.available[..n] + [p.available[n]];
    forall s | 0 <= s < |q.contexts| ensures s in q.available || exists k :: k in Owners(q) && q.leases[k].slot == s {
      if s !in p.available {
        var k :| k in Owners(p) && p.leases[k].slot == s;
        assert k in Owners(q) && q.leases[k].slot == s;
      } else if s == p.available[n] {
        assert id in Owners(q) && q.leases[id].slot == s;
      }
    }
  }

  lemma ReleaseInv(p: Pool, id: nat)
    requires Inv(p) && LeaseOf(p, id).Live?
    ensures Inv(Step(p, Release(id)))
  {
    var q := Step(p, Release(id));
    assert id in Owners(p);
    assert Owners(q) == Owners(p) - {id};
    ReleaseSlots(p, q, id);
    ReleaseKeepsAll(p, q, id);
  }

  /** q is p with the slot of owner id given back. */
  ghost predicate Returns(p: Pool, q: Pool, id: nat) {
    && id in Owners(p) && Owners(q) == Owners(p) - {id} && q.contexts == p.contexts && q.stopping == p.stopping
    && q.leases == p.leases[id := Returned(p.leases[id].slot)]
    && q.available == if p.stopping then p.available else p.available + [p.leases[id].slot]
  }

  lemma ReleaseSlots(p: Pool, q: Pool, id: nat)
    requires Exclusive(p) && FreeList(p) && OwnsContext(p) && Returns(p, q, id)
    ensures Exclusive(q) && FreeList(q) && OwnsContext(q)
  {
  }

  lemma ReleaseKeepsAll(p: Pool, q: Pool, id: nat)
    requires NoneLost(p) && Returns(p, q, id) && (!p.stopping ==> p.borrowed == q.borrowed + 1)
    ensures NoneLost(q)
  {
    forall s | !q.stopping && 0 <= s < |q.contexts|
      ensures s in q.available || exists k :: k in Owners(q) && q.leases[k].slot == s
    {
      if s in p.available {
        var i :| 0 <= i < |p.available| && p.available[i] == s;
        assert q.available[i] == s;
      } else {
        var k :| k in Owners(p) && p.leases[k].slot == s;
        if k == id { assert q.available[|p.available|] == s; } else { assert k in Owners(q) && q.leases[k].slot == s; }
      }
    }
  }

  /** q is p with owner id renamed to `to`, which keeps the slot. */
  ghost predicate Renames(p: Pool, q: Pool, id: nat, to: nat) {
    && id in Owners(p) && (to == id || to !in Owners(p)) && Owners(q) == Owners(p) - {id} + {to}
    && to in q.leases && Owns(q.leases[to]) && q.leases[to].slot == p.leases[id].slot
    && (forall k :: k in Owners(p) && k != id ==> k in q.leases && q.leases[k] == p.leases[k])
    && q.available == p.available && |q.contexts| == |p.contexts|
  }

  lemma RenameSlots(p: Pool, q: Pool, id: nat, to: nat)
    requires Exclusive(p) && FreeList(p) && Renames(p, q, id, to)
    ensures Exclusive(q) && FreeList(q)
  {
  }

  lemma RenameContexts(p: Pool, q: Pool, id: nat, to: nat)
    requires Exclusive(p) && OwnsContext(p) && Renames(p, q, id, to)
    requires forall s :: 0 <= s < |p.contexts| && s != p.leases[id].slot ==> q.contexts[s] == p.contexts[s]
    requires q.leases[to].Live? && q.leases[to].context.Some? ==>
               q.leases[to].slot < |q.contexts| && q.contexts[q.leases[to].slot] == q.leases[to].context
    ensures OwnsContext(q)
  {
  }

  lemma RenameKeepsAll(p: Pool, q: Pool, id: nat, to: nat)
    requires NoneLost(p) && Renames(p, q, id, to) && q.borrowed == p.borrowed && q.stopping == p.stopping
    ensures NoneLost(q)
  {
    forall s | !q.stopping && 0 <= s < |q.contexts|
      ensures s in q.available || exists k :: k in Owners(q) && q.leases[k].slot == s
    {
      if s !in p.available {
        var k :| k in Owners(p) && p.leases[k].slot == s;
        assert q.leases[if k == id then to else k].slot == s;
      }
    }
  }

  /** A step that renames owners but keeps who owns what. */
  lemma RenameInv(p: Pool, q: Pool, id: nat, to: nat)
    requires Inv(p) && Renames(p, q, id, to)
    requires q.borrowed == p.borrowed && q.stopping == p.stopping && q.finished == p.finished
    requires forall s :: 0 <= s < |p.contexts| && s != p.leases[id].slot ==> q.contexts[s] == p.contexts[s]
    requires q.leases[to].Live? && q.leases[to].context.Some? ==>
               q.leases[to].slot < |q.contexts| && q.contexts[q.leases[to].slot] == q.leases[to].context
    ensures Inv(q)
  {
    RenameSlots(p, q, id, to);
    RenameContexts(p, q, id, to);
    RenameKeepsAll(p, q, id, to);
  }

  lemma FrameInv(p: Pool, q: Pool)
    requires Inv(p) && Owners(q) == Owners(p) && (forall id :: id in Owners(p) ==> q.leases[id] == p.leases[id])
    requires q.contexts == p.contexts && q.available == p.available && q.borrowed == p.borrowed
    requires (p.stopping ==> q.stopping) && (q.finished ==> q.stopping && q.borrowed == 0)
    ensures Inv(q)
  {
    forall s | !q.stopping && 0 <= s < |q.contexts|
      ensures s in q.available || exists k :: k in Owners(q) && q.leases[k].slot == s
    {
      if s !in p.available {
        var k :| k in Owners(p) && p.leases[k].slot == s;
        assert q.leases[k].slot == s;
      }
    }
  }

  /** Connect and Close change the context of one owner's slot. */
  lemma ContextInv(p: Pool, a: Label)
    requires Inv(p) && (a.Connect? || a.Close?) && Step(p, a) != p
    ensures Inv(Step(p, a))
  {
    assert a.id in Owners(p);
    assert Owners(Step(p, a)) == Owners(p) - {a.id} + {a.id};
    RenameInv(p, Step(p, a), a.id, a.id);
  }

  lemma MoveInv(p: Pool, src: nat, dst: nat)
    requires Inv(p) && Step(p, Move(src, dst)) != p
    ensures Inv(Step(p, Move(src, dst)))
  {
    var q := Step(p, Move(src, dst));
    if LeaseOf(p, src).Live? {
      assert src in Owners(p) && dst !in Owners(p);
      assert Owners(q) == Owners(p) - {src} + {dst};
      RenameInv(p, q, src, dst);
    } else {
      assert Owners(q) == Owners(p);
      FrameInv(p, q);
    }
  }

  lemma QuietInv(p: Pool, a: Label)
    requires Inv(p) && (a.Clear? || a.BeginShutdown? || a.FinishShutdown?)
    ensures Inv(Step(p, a))
  {
    assert Owners(Step(p, a)) == Owners(p);
    FrameInv(p, Step(p, a));
  }

  lemma StepInv(p: Pool, a: Label)
    requires Inv(p)
    ensures Inv(Step(p, a))
  {
    if Step(p, a) != p {
      match a
      case Acquire(id) => AcquireInv(p, id);
      case Release(id) => ReleaseInv(p, id);
      case Connect(_, _, _) => ContextInv(p, a);
      case Close(_) => ContextInv(p, a);
      case Move(src, dst) => MoveInv(p, src, dst);
      case Clear(_) => QuietInv(p, a);
      case BeginShutdown => QuietInv(p, a);
      case FinishShutdown => QuietInv(p, a);
    }
  }

  lemma InitInv(poolSize: nat)
    ensures Inv(Init(poolSize))
  {
    var p := Init(poolSize);
    forall s | 0 <= s < |p.contexts| ensures s in p.available { assert p.available[|p.contexts| - 1 - s] == s; }
  }

  /** Conservation over every run: no slot has two leases, the free slots are distinct and nobody
      owns them, borrowed counts the leases, and free + borrowed is the pool size until shutdown. */
  lemma {:induction false} PoolConserved(poolSize: nat, labels: seq<Label>)
    ensures Inv(Run(Init(poolSize), labels))
  {
    if labels == [] {
      InitInv(poolSize);
    } else {
      PoolConserved(poolSize, labels[..|labels| - 1]);
      StepInv(Run(Init(poolSize), labels[..|labels| - 1]), labels[|labels| - 1]);
    }
  }

  /** The destructor returns only when no lease is live, and none becomes live afterwards. */
  lemma NoLeaseOutlives(poolSize: nat, labels: seq<Label>, id: nat)
    requires Run(Init(poolSize), labels).finished
    ensures !Owns(LeaseOf(Run(Init(poolSize), labels), id))
  {
    PoolConserved(poolSize, labels);
    var p := Run(Init(poolSize), labels);
    assert Owns(LeaseOf(p, id)) <==> id in Owners(p);
  }

  // -------------------------------------------------- notifying a pool that is gone

  /** A thread in release has still to call notify_one on the pool. */
  ghost predicate Notifying(p: Pool) {
    exists id :: LeaseOf(p, id).Returned?
  }

  /** Once the destructor has finished nobody gets into release any more. */
  lemma GoneStep(p: Pool, a: Label)
    requires Inv(p) && p.finished
    ensures Step(p, a).finished && (Notifying(Step(p, a)) ==> Notifying(p))
  {
    var q := Step(p, a);
    assert forall id :: Owns(LeaseOf(p, id)) <==> id in Owners(p);
    if Notifying(q) {
      var id :| LeaseOf(q, id).Returned?;
      assert LeaseOf(p, id).Returned?;
    }
  }

  lemma {:induction false} GoneRun(p: Pool, more: seq<Label>)
    requires Inv(p) && p.finished
    ensures Inv(Run(p, more)) && Run(p, more).finished && (Notifying(Run(p, more)) ==> Notifying(p))
  {
    if more != [] {
      var n := |more| - 1;
      GoneRun(p, more[..n]);
      GoneStep(Run(p, more[..n]), more[n]);
      StepInv(Run(p, more[..n]), more[n]);
    }
  }

  /** Exactly when the destructor is safe to finish: from its last step on no thread will ever notify
      the destroyed pool if and only if none is inside release at that step. The count of borrowed
      slots, which is all it waits for, does not say so. */
  lemma DestroySafeIff(poolSize: nat, labels: seq<Label>)
    requires var p := Run(Init(poolSize), labels); !p.finished && Step(p, FinishShutdown).finished
    ensures var p := Run(Init(poolSize), labels);
            (forall more :: !Notifying(Run(Step(p, FinishShutdown), more))) <==> !Notifying(p)
  {
    var p := Run(Init(poolSize), labels);
    var q := Step(p, FinishShutdown);
    PoolConserved(poolSize, labels);
    StepInv(p, FinishShutdown);
    assert Notifying(q) <==> Notifying(p) by { assert forall id :: LeaseOf(q, id) == LeaseOf(p, id); }
    if Notifying(p) {
      var none: seq<Label> := [];
      assert Run(Step(p, FinishShutdown), none) == q;
    } else {
      forall more ensures !Notifying(Run(q, more)) { GoneRun(q, more); }
    }
  }

  lemma RunLast(p: Pool, labels: seq<Label>, a: Label)
    ensures Run(p, labels + [a]) == Step(Run(p, labels), a)
  {
    assert (labels + [a])[..|labels|] == labels;
  }

  /** And it can finish too early: a release has given its slot back and not yet notified when the
      destructor takes the lock, which then finds nothing borrowed and does not even wait. */
  lemma NotifyAfterDestroy(poolSize: nat) returns (labels: seq<Label>)
    ensures Run(Init(poolSize), labels).finished && Notifying(Run(Init(poolSize), labels))
  {
    var p := Init(poolSize);
    var a, b, c, d, e := Acquire(0), Connect(0, false, None), Release(0), BeginShutdown, FinishShutdown;
    RunLast(p, [], a);
    RunLast(p, [] + [a], b);
    RunLast(p, [] + [a] + [b], c);
    RunLast(p, [] + [a] + [b] + [c], d);
    RunLast(p, [] + [a] + [b] + [c] + [d], e);
    labels := [] + [a] + [b] + [c] + [d] + [e];
    assert LeaseOf(Run(p, labels), 0).Returned?;
  }

  // ------------------------------------------------------------------- the object

  /** RedisClient with all the Lease objects of the program, named by numbers. */
  class RedisClient {
    var slots: seq<Option<Context>>
    var available: seq<nat>
    var borrowed: nat
    var stopping: bool
    var destroyed: bool
    var leases: map<nat, Lease>

    ghost function View(): Pool
      reads this
    {
      Pool(slots, available, borrowed, stopping, destroyed, leases)
    }

    ghost predicate Valid()
      reads this
    {
      var holds := Inv(View());
      holds
    }

    constructor (poolSize: nat)
      ensures Valid() && View() == Init(poolSize)
      ensures |slots| == |available| == (if poolSize == 0 then 1 else poolSize)
      ensures forall i :: 0 <= i < |slots| ==> slots[i] == None && available[i] == |slots| - 1 - i
      ensures borrowed == 0 && !stopping && !destroyed && forall id :: LeaseOf(View(), id) == Empty
    {
      var n := if poolSize == 0 then 1 else poolSize;
      slots := seq(n, _ => None);
      borrowed, stopping, destroyed, leases := 0, false, false, map[];
      var free := [];
      for i := 0 to n
        invariant free == Descending(n)[..i]
      {
        free := free + [n - i - 1];
      }
      available := free;
      new;
      assert available == Descending(n) && slots == Init(poolSize).contexts;
      assert View() == Init(poolSize);
      InitInv(poolSize);
    }

    /** One go at acquire: with no slot free and no shutdown under way it waits, to be tried again
        when it is woken; while stopping it returns an empty lease. */
    method AcquireLease(id: nat, healthy: bool, made: Option<Context>) returns (waits: bool)
      requires Valid() && !destroyed && LeaseOf(View(), id) == Empty
      modifies this
      ensures Valid() && View() == Step(Step(old(View()), Acquire(id)), Connect(id, healthy, made))
      ensures waits <==> old(available) == [] && !old(stopping)
      ensures Owns(LeaseOf(View(), id)) <==> !waits && !old(stopping)
      ensures waits || old(stopping) ==> View() == old(View())
      ensures !waits && !old(stopping) ==>
                var slot := old(available)[|old(available)| - 1];
                && slot < |slots| == |old(slots)| && LeaseOf(View(), id) == Live(slot, slots[slot])
                && slots[slot] == (if healthy && old(slots)[slot].Some? then old(slots)[slot] else made)
                && available + [slot] == old(available) && borrowed == old(borrowed) + 1
      ensures forall k :: k != id ==> LeaseOf(View(), k) == LeaseOf(old(View()), k)
      ensures stopping == old(stopping) && destroyed == old(destroyed)
    {
      TwoSteps(View(), Acquire(id), Connect(id, healthy, made));
      FreeSlotExists(View());
      AcquireConnects(View(), id, healthy, made);
      waits := TakeSlot(id, healthy, made);
    }

    /** The body of acquire: the last free slot, its connection kept if it is healthy. */
    method TakeSlot(id: nat, healthy: bool, made: Option<Context>) returns (waits: bool)
      requires available != [] ==> available[|available| - 1] < |slots|
      modifies this
      ensures View() == Acquired(old(View()), id, healthy, made)
      ensures waits <==> old(available) == [] && !old(stopping)
      ensures waits || old(stopping) ==> View() == old(View())
      ensures !waits && !old(stopping) ==>
                var slot := old(available)[|old(available)| - 1];
                && slot < |slots| == |old(slots)| && LeaseOf(View(), id) == Live(slot, slots[slot])
                && slots[slot] == (if healthy && old(slots)[slot].Some? then old(slots)[slot] else made)
                && available + [slot] == old(available) && borrowed == old(borrowed) + 1
      ensures forall k :: k != id ==> LeaseOf(View(), k) == LeaseOf(old(View()), k)
      ensures stopping == old(stopping) && destroyed == old(destroyed)
    {
      if stopping { return false; }
      if available == [] { return true; }
      var slot := available[|available| - 1];
      available := available[..|available| - 1];
      borrowed := borrowed + 1;
      var context := if slots[slot].Some? && healthy then slots[slot] else made;
      slots := slots[slot := context];
      leases := leases[id := Live(slot, context)];
      return false;
    }

    method CloseLease(id: nat)
      requires Valid() && AtRest(LeaseOf(View(), id))
      modifies this
      ensures Valid() && View() == Step(old(View()), Close(id))
      ensures var was := LeaseOf(old(View()), id);
              if was.Live? then was.slot < |slots| && slots[was.slot] == None && LeaseOf(View(), id) == Live(was.slot, None)
              else View() == old(View())
      ensures forall k :: k != id ==> LeaseOf(View(), k) == LeaseOf(old(View()), k)
      ensures |slots| == |old(slots)|
      ensures forall s :: 0 <= s < |slots| && !(LeaseOf(old(View()), id).Live? && s == LeaseOf(old(View()), id).slot) ==>
                slots[s] == old(slots)[s]
      ensures available == old(available) && borrowed == old(borrowed) && stopping == old(stopping) && destroyed == old(destroyed)
    {
      StepInv(View(), Close(id));
      if id !in leases || leases[id] == Empty { return; }
      assert id in Owners(View());
      slots := slots[leases[id].slot := None];
      leases := leases[id := Live(leases[id].slot, None)];
    }

    /** Lease::release, which is also its destructor. */
    method ReleaseLease(id: nat)
      requires Valid() && AtRest(LeaseOf(View(), id))
      modifies this
      ensures Valid() && View() == Step(Step(old(View()), Release(id)), Clear(id))
      ensures LeaseOf(View(), id) == Empty
      ensures var was := LeaseOf(old(View()), id);
              available == (if was.Live? && !old(stopping) then old(available) + [was.slot] else old(available))
              && borrowed == (if was.Live? then old(borrowed) - 1 else old(borrowed))
      ensures forall k :: k != id ==> LeaseOf(View(), k) == LeaseOf(old(View()), k)
      ensures slots == old(slots) && stopping == old(stopping) && destroyed == old(destroyed)
    {
      TwoSteps(View(), Release(id), Clear(id));
      ReleaseClears(View(), id);
      if id !in leases || leases[id] == Empty { return; }
      if borrowed > 0 { borrowed := borrowed - 1; }
      if !stopping { available := available + [leases[id].slot]; }
      leases := leases[id := Empty];
    }

    method MoveConstruct(src: nat, dst: nat)
      requires Valid() && src != dst && AtRest(LeaseOf(View(), src)) && LeaseOf(View(), dst) == Empty
      modifies this
      ensures Valid() && View() == Step(old(View()), Move(src, dst))
      ensures LeaseOf(View(), dst) == LeaseOf(old(View()), src) && LeaseOf(View(), src) == Empty
      ensures forall k :: k != src && k != dst ==> LeaseOf(View(), k) == LeaseOf(old(View()), k)
      ensures slots == old(slots) && available == old(available) && borrowed == old(borrowed)
      ensures stopping == old(stopping) && destroyed == old(destroyed)
    {
      StepInv(View(), Move(src, dst));
      leases := leases[dst := if src in leases then leases[src] else Empty][src := Empty];
    }

    /** Moving a lease onto itself does nothing; otherwise the target's own slot goes back first. */
    method MoveAssign(src: nat, dst: nat)
      requires Valid() && AtRest(LeaseOf(View(), src)) && AtRest(LeaseOf(View(), dst))
      modifies this
      ensures Valid()
      ensures View() == if src == dst then old(View())
                        else Step(Step(Step(old(View()), Release(dst)), Clear(dst)), Move(src, dst))
      ensures LeaseOf(View(), dst) == LeaseOf(old(View()), src) && (src != dst ==> LeaseOf(View(), src) == Empty)
      ensures forall k :: k != src && k != dst ==> LeaseOf(View(), k) == LeaseOf(old(View()), k)
      ensures var was := LeaseOf(old(View()), dst);
              available == (if src != dst && was.Live? && !old(stopping) then old(available) + [was.slot] else old(available))
              && borrowed == (if src != dst && was.Live? then old(borrowed) - 1 else old(borrowed))
      ensures slots == old(slots) && stopping == old(stopping) && destroyed == old(destroyed)
    {
      if src != dst {
        ReleaseLease(dst);
        MoveConstruct(src, dst);
      }
    }

    /** One go at the destructor: while anything is borrowed it waits, to be woken by a release. */
    method Destroy() returns (done: bool)
      requires Valid() && !destroyed
      modifies this
      ensures Valid() && View() == Step(Step(old(View()), BeginShutdown), FinishShutdown)
      ensures done <==> old(borrowed) == 0
      ensures done ==> destroyed && forall id :: !Owns(LeaseOf(View(), id))
      ensures stopping && (destroyed <==> done) && slots == old(slots) && available == old(available)
      ensures borrowed == old(borrowed) && leases == old(leases)
    {
      TwoSteps(View(), BeginShutdown, FinishShutdown);
      NoOwners(View());
      stopping := true;
      if borrowed > 0 { return false; }
      destroyed := true;
      return true;
    }
  }

  lemma FreeSlotExists(p: Pool)
    requires Inv(p)
    ensures p.available != [] ==> p.available[|p.available| - 1] < |p.contexts|
  {
  }

  lemma NoOwners(p: Pool)
    requires Inv(p)
    ensures p.borrowed == 0 ==> forall id :: !Owns(LeaseOf(p, id))
  {
    assert forall id :: Owns(LeaseOf(p, id)) <==> id in Owners(p);
  }

  lemma TwoSteps(p: Pool, a: Label, b: Label)
    requires Inv(p)
    ensures Inv(Step(Step(p, a), b))
  {
    StepInv(p, a);
    StepInv(Step(p, a), b);
  }

  lemma ReleaseClears(p: Pool, id: nat)
    requires AtRest(LeaseOf(p, id))
    ensures Step(Step(p, Release(id)), Clear(id))
         == if LeaseOf(p, id) == Empty then p
            else p.(borrowed := if p.borrowed > 0 then p.borrowed - 1 else 0,
                    available := if p.stopping then p.available else p.available + [LeaseOf(p, id).slot],
                    leases := p.leases[id := Empty])
  {
    if LeaseOf(p, id).Live? {
      assert p.leases[id := Returned(LeaseOf(p, id).slot)][id := Empty] == p.leases[id := Empty];
    }
  }

  /** The pool after one go at acquire by a lease that holds nothing. */
  function Acquired(p: Pool, id: nat, healthy: bool, made: Option<Context>): Pool
    requires p.available != [] ==> p.available[|p.available| - 1] < |p.contexts|
  {
    if p.stopping || p.available == [] then p
    else
      var slot := p.available[|p.available| - 1];
      var c := if p.contexts[slot].Some? && healthy then p.contexts[slot] else made;
      p.(available := p.available[..|p.available| - 1], borrowed := p.borrowed + 1,
         contexts := p.contexts[slot := c], leases := p.leases[id := Live(slot, c)])
  }

  lemma AcquireConnects(p: Pool, id: nat, healthy: bool, made: Option<Context>)
    requires !p.finished && LeaseOf(p, id) == Empty
    requires p.available != [] ==> p.available[|p.available| - 1] < |p.contexts|
    ensures Step(Step(p, Acquire(id)), Connect(id, healthy, made)) == Acquired(p, id, healthy, made)
    ensures Owns(LeaseOf(Acquired(p, id, healthy, made), id)) <==> !p.stopping && p.available != []
  {
  }
}
