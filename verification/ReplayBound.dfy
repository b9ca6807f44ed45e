/**
 * How often a lease is replayed before it ends.
 */
module ReplayBound {
  import opened Wrappers
  import opened ChannelTypes
  import opened ChannelStorage
  import opened LeaseTrigger
  import opened LeaseOrder
  import opened LeasePass
  import opened LeaseIndex
  import opened LeaseDisk
  import opened ReplayBlocker
  import opened ChannelEngine
  import opened EngineInvariants
  import opened EngineSteps

  /** Whether a step replays the command of a key. */
  ghost predicate ReplaysNow(e: Engine, op: Op, k: Key) {
    && op.Loop? && !e.crashed
    && var e1 := Select(e, op.choice);
       !e1.crashed && k in Keys(e1.leases)
       && Replays(FateOf(LeaseFor(e1.leases, k), e1.ledger.bodies, Monotone(e1, op.reading)))
  }

  /** How often a lease is replayed in a run, while it stays on the list and up to the
      first restart. */
  ghost function CountReplays(e: Engine, ops: seq<Op>, k: Key): nat
    decreases |ops|
  {
    if ops == [] || k !in Keys(e.leases) || ops[0].Restart? then 0
    else (if ReplaysNow(e, ops[0], k) then 1 else 0) + CountReplays(Step(e, ops[0]), ops[1..], k)
  }

  /** Picking work adds no lease for a key that has one. */
  lemma SelectMembers(e: Engine, choice: Choice, o: Lease)
    requires o in Select(e, choice).leases && o.key in Keys(e.leases)
    ensures o in e.leases
  {
    match choice {
      case PickAdd(i) =>
        if i < |e.adds| { InsertMembers(e.leases, e.adds[i].lease); }
      case PickRemove(i) =>
        if i < |e.removes| { RemoveKeyMembers(e.leases, e.removes[i]); }
      case PickLeave(i) =>
        if i < |e.leaves| { OutsideFacts(e.leases, e.leaves[i]); }
      case PickTimer =>
    }
  }

  lemma RemoveKeyMembers(s: seq<Lease>, k: Key)
    ensures forall l :: l in RemoveKey(s, k) ==> l in s
  {
    var i := IndexOf(s, k);
    if i < |s| {
      assert s == s[..i] + [s[i]] + s[i + 1..];
    }
  }

  /** Picking work does not change a lease that stays. */
  lemma SelectKeepsLease(e: Engine, choice: Choice, k: Key)
    requires Inv(e) && k in Keys(e.leases) && k in Keys(Select(e, choice).leases)
    ensures LeaseFor(Select(e, choice).leases, k) == LeaseFor(e.leases, k)
  {
    var o := LeaseFor(Select(e, choice).leases, k);
    SelectMembers(e, choice, o);
    LeaseForMember(e.leases, k, o);
  }

  /** How a lease may change in one step: not at all, or by a replay that moves its trigger
      to the lease's end or by more than half a message life. */
  predicate Moved(l: Lease, l': Lease, replayed: bool) {
    if replayed then
      && l' == l.(trigger := l'.trigger)
      && (l'.trigger == l.originating + l.lease || l'.trigger > l.trigger + MESSAGE_LIFE / 2)
    else l' == l
  }

  lemma PassMovesTrigger(e: Engine, r: Reading, k: Key)
    requires Inv(e) && k in Keys(e.leases) && r.now <= r.later
    ensures var l, s := LeaseFor(e.leases, k), PassOver(e, r).leases;
            var f := FateOf(l, e.ledger.bodies, r);
            && (Replays(f) ==> l.trigger < l.end)
            && (k in Keys(s) ==> Moved(l, LeaseFor(s, k), Replays(f)))
  {
    var l, s := LeaseFor(e.leases, k), PassOver(e, r).leases;
    var f := FateOf(l, e.ledger.bodies, r);
    PassKeepsOrder(e.leases, e.ledger.bodies, r);
    assert l in e.leases;
    PassFate(e.leases, e.ledger.bodies, r, l);
    if f.Keep? {
      LeaseForMember(s, k, l);
    } else if f.Reschedule? {
      LeaseForMember(s, k, l.(trigger := f.trigger));
      TriggerWindow(r.later, l.originating, l.lease, Seed(r, k));
    }
  }

  lemma LoopMovesTrigger(e: Engine, choice: Choice, reading: Reading, k: Key)
    requires Inv(e) && !e.crashed && k in Keys(e.leases)
    ensures var l, s := LeaseFor(e.leases, k), StepLoop(e, choice, reading).leases;
            var replayed := ReplaysNow(e, Loop(choice, reading), k);
            && (replayed ==> l.trigger < l.end)
            && (k in Keys(s) ==> Moved(l, LeaseFor(s, k), replayed))
  {
    var e1 := Select(e, choice);
    SelectKeepsInv(e, choice);
    if k in Keys(e1.leases) {
      SelectKeepsLease(e, choice, k);
      if !e1.crashed {
        PassMovesTrigger(e1, Monotone(e1, reading), k);
      }
    } else if !e1.crashed {
      PassKeepsOrder(e1.leases, e1.ledger.bodies, Monotone(e1, reading));
    }
  }

  lemma StepMovesTrigger(e: Engine, op: Op, k: Key)
    requires Inv(e) && k in Keys(e.leases) && !op.Restart?
    ensures var l, s, replayed := LeaseFor(e.leases, k), Step(e, op).leases, ReplaysNow(e, op, k);
            && (replayed ==> l.trigger < l.end)
            && (k in Keys(s) ==> Moved(l, LeaseFor(s, k), replayed))
  {
    if op.Loop? && !e.crashed {
      StepIsLoop(e, op);
      LoopMovesTrigger(e, op.choice, op.reading, k);
    } else {
      LeasesOnlyInLoop(e, op);
    }
  }

  /** What is left of a lease after its trigger bounds the replays to come. The literal is
      MESSAGE_LIFE (LiteralIsLife), written out to keep the arithmetic linear. */
  predicate Bounded(l: Lease, n: nat) {
    if l.trigger >= l.end then n == 0
    else n * 1_800_000_000_000_000 < 2 * (l.end - l.trigger) + 1_800_000_000_000_000
  }

  lemma LiteralIsLife()
    ensures MESSAGE_LIFE == 1_800_000_000_000_000
  {
  }

  lemma OneMoreReplay(l: Lease, l': Lease, n: nat)
    requires l.end == l.originating + l.lease && l.trigger < l.end
    requires Moved(l, l', true) && Bounded(l', n)
    ensures Bounded(l, 1 + n)
  {
  }

  lemma FirstReplay(l: Lease)
    requires l.trigger < l.end
    ensures Bounded(l, 1) && Bounded(l, 0)
  {
  }

  ghost predicate EndsOnTime(e: Engine, k: Key) {
    k in Keys(e.leases) ==> LeaseFor(e.leases, k).end == LeaseFor(e.leases, k).originating + LeaseFor(e.leases, k).lease
  }

  ghost predicate BoundedFor(e: Engine, ops: seq<Op>, k: Key) {
    k in Keys(e.leases) ==> Bounded(LeaseFor(e.leases, k), CountReplays(e, ops, k))
  }

  lemma CountCons(e: Engine, ops: seq<Op>, k: Key)
    requires ops != [] && !ops[0].Restart? && k in Keys(e.leases)
    ensures CountReplays(e, ops, k)
         == (if ReplaysNow(e, ops[0], k) then 1 else 0) + CountReplays(Step(e, ops[0]), ops[1..], k)
    ensures k !in Keys(Step(e, ops[0]).leases) ==> CountReplays(Step(e, ops[0]), ops[1..], k) == 0
  {
  }

  /** Bounds carry over one step, whatever the step does to the lease. */
  lemma CombineBounds(l: Lease, stays: bool, l': Lease, replayed: bool, n: nat)
    requires l.end == l.originating + l.lease
    requires replayed ==> l.trigger < l.end
    requires if stays then Moved(l, l', replayed) && Bounded(l', n) else n == 0
    ensures Bounded(l, (if replayed then 1 else 0) + n)
  {
    if stays && replayed {
      OneMoreReplay(l, l', n);
    } else if replayed {
      FirstReplay(l);
    }
  }

  lemma OneMoreStep(e: Engine, ops: seq<Op>, k: Key)
    requires Inv(e) && EndsOnTime(e, k) && ops != [] && !ops[0].Restart? && k in Keys(e.leases)
    requires BoundedFor(Step(e, ops[0]), ops[1..], k)
    ensures BoundedFor(e, ops, k)
  {
    var l, s := LeaseFor(e.leases, k), Step(e, ops[0]).leases;
    StepMovesTrigger(e, ops[0], k);
    CountCons(e, ops, k);
    CombineBounds(l, k in Keys(s), if k in Keys(s) then LeaseFor(s, k) else l, ReplaysNow(e, ops[0], k),
                  CountReplays(Step(e, ops[0]), ops[1..], k));
  }

  lemma StepEndsOnTime(e: Engine, op: Op, k: Key)
    requires Inv(e) && EndsOnTime(e, k) && k in Keys(e.leases) && !op.Restart?
    ensures EndsOnTime(Step(e, op), k)
  {
    StepMovesTrigger(e, op, k);
  }

  lemma {:induction false} ReplaysLeft(e: Engine, ops: seq<Op>, k: Key)
    requires Inv(e) && EndsOnTime(e, k)
    ensures BoundedFor(e, ops, k)
    decreases |ops|
  {
    if ops != [] && !ops[0].Restart? && k in Keys(e.leases) {
      StepKeepsInv(e, ops[0]);
      StepEndsOnTime(e, ops[0], k);
      ReplaysLeft(Step(e, ops[0]), ops[1..], k);
      OneMoreStep(e, ops, k);
    }
  }

  lemma BoundFromSchedule(l: Lease, n: nat, scheduled: Time, seed: nat)
    requires Bounded(l, n) && l.end == l.originating + l.lease
    requires CalculateLeaseTrigger(scheduled, l.originating, l.lease, seed) == Some(l.trigger)
    ensures n * MESSAGE_LIFE < 2 * (l.end - scheduled)
  {
    TriggerWindow(scheduled, l.originating, l.lease, seed);
    DroppedExactlyWhenElapsed(scheduled, l.originating, l.lease, seed);
  }

  /** In every run, a lease with time R left when it was scheduled is replayed fewer than
      2R/MESSAGE_LIFE times from there on. */
  lemma ReplaysAreBounded(before: seq<Op>, ops: seq<Op>, k: Key, scheduled: Time, seed: nat)
    requires k in Keys(Run(Init(), before).leases)
    requires var l := LeaseFor(Run(Init(), before).leases, k);
             && l.end == l.originating + l.lease
             && CalculateLeaseTrigger(scheduled, l.originating, l.lease, seed) == Some(l.trigger)
    ensures var e := Run(Init(), before);
            CountReplays(e, ops, k) * MESSAGE_LIFE < 2 * (LeaseFor(e.leases, k).end - scheduled)
  {
    var e := Run(Init(), before);
    InitInv();
    RunKeepsInv(Init(), before);
    ReplaysLeft(e, ops, k);
    BoundFromSchedule(LeaseFor(e.leases, k), CountReplays(e, ops, k), scheduled, seed);
  }
}
