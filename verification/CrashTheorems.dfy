/**
 * When the lease thread crashes, over whole runs.
 */
module CrashTheorems {
  import opened Wrappers
  import opened ChannelTypes
  import opened ChannelStorage
  import opened LeaseTrigger
  import opened LeaseOrder
  import opened LeasePass
  import opened LeaseIndex
  import opened LeaseDisk
  import opened ReplayBlocker
  import opened ChannelEngine
  import opened EngineInvariants
  import opened EngineSteps

  /** The lease thread receives a lease for a key. */
  predicate Takes(e: Engine, op: Op, k: Key) {
    && !e.crashed && op.Loop? && op.choice.PickAdd? && op.choice.i < |e.adds|
    && e.adds[op.choice.i].lease.key == k
  }

  /** The lease thread is told to remove a key or its channel. */
  predicate ToldToDrop(e: Engine, choice: Choice, k: Key) {
    || (choice.PickRemove? && choice.i < |e.removes| && e.removes[choice.i] == k)
    || (choice.PickLeave? && choice.i < |e.leaves| && e.leaves[choice.i] == k.channel)
  }

  /** A lease ends in the pass of an iteration. */
  predicate EndsInPass(e: Engine, choice: Choice, reading: Reading, k: Key) {
    var e1 := Select(e, choice);
    !e1.crashed && k in Ended(e1.leases, e1.ledger.bodies, Monotone(e1, reading))
  }

  /** An iteration removes a key from the list if it is there. */
  predicate Drops(e: Engine, op: Op, k: Key) {
    !e.crashed && op.Loop? && (ToldToDrop(e, op.choice, k) || EndsInPass(e, op.choice, op.reading, k))
  }

  lemma TakenKeys(e: Engine, i: nat, k: Key)
    requires i < |e.adds|
    ensures k in Keys(TakeAdd(e, i).leases) <==> k in Keys(e.leases) || e.adds[i].lease.key == k
  {
    InsertMembers(e.leases, e.adds[i].lease);
  }

  lemma RemovedKeys(e: Engine, i: nat, k: Key)
    requires LeaseInv(e) && i < |e.removes|
    ensures k in Keys(TakeRemove(e, i).leases) <==> k in Keys(e.leases) && k != e.removes[i]
  {
    RemovedMembers(e.leases, e.removes[i], k);
  }

  lemma RemovedMembers(s: seq<Lease>, gone: Key, k: Key)
    requires Sorted(s) && DistinctKeys(s) && AllOk(s)
    ensures k in Keys(RemoveKey(s, gone)) <==> k in Keys(s) && k != gone
  {
    RemoveKeyFacts(s, gone);
    var n := IndexOf(s, gone);
    if n < |s| {
      assert s == s[..n] + [s[n]] + s[n + 1..];
    }
  }

  lemma LeftKeys(e: Engine, i: nat, k: Key)
    requires i < |e.leaves|
    ensures k in Keys(TakeLeave(e, i).leases) <==> k in Keys(e.leases) && k.channel != e.leaves[i]
  {
    var c := e.leaves[i];
    OutsideFacts(e.leases, c);
    if k in Keys(e.leases) && k.channel == c {
      assert k in ChannelLeaseKeys(e.leases, c);
    }
  }

  lemma SelectedKeys(e: Engine, choice: Choice, reading: Reading, k: Key)
    requires LeaseInv(e) && !e.crashed
    ensures k in Keys(Select(e, choice).leases)
       <==> (k in Keys(e.leases) || Takes(e, Loop(choice, reading), k)) && !ToldToDrop(e, choice, k)
  {
    match choice {
      case PickAdd(i) => if i < |e.adds| { TakenKeys(e, i, k); }
      case PickRemove(i) => if i < |e.removes| { RemovedKeys(e, i, k); }
      case PickLeave(i) => if i < |e.leaves| { LeftKeys(e, i, k); }
      case PickTimer =>
    }
  }

  lemma LoopKeys(e: Engine, choice: Choice, reading: Reading, k: Key)
    requires Inv(e) && !e.crashed
    ensures k in Keys(StepLoop(e, choice, reading).leases)
       <==> (k in Keys(e.leases) || Takes(e, Loop(choice, reading), k)) && !Drops(e, Loop(choice, reading), k)
  {
    SelectedKeys(e, choice, reading, k);
    SelectKeepsInv(e, choice);
    var e1 := Select(e, choice);
    if !e1.crashed {
      PassKeepsOrder(e1.leases, e1.ledger.bodies, Monotone(e1, reading));
    }
  }

  lemma StepKeys(e: Engine, op: Op, k: Key)
    requires Inv(e)
    ensures k in Keys(Step(e, op).leases) <==> (k in Keys(e.leases) || Takes(e, op, k)) && !Drops(e, op, k)
  {
    if op.Restart? {
      RestartKeys(e, op, k);
    } else if op.Loop? && !e.crashed {
      StepIsLoop(e, op);
      LoopKeys(e, op.choice, op.reading, k);
    } else {
      LeasesOnlyInLoop(e, op);
    }
  }

  /** A restart brings back the keys there were. */
  lemma RestartKeys(e: Engine, op: Op, k: Key)
    requires Inv(e) && op.Restart?
    ensures k in Keys(Step(e, op).leases) <==> k in Keys(e.leases)
  {
    RestartKeepsInv(e, op.now, op.seeds, op.loaded);
  }

  // ----- Since -----

  /** Something began before step n and has not ended since. */
  ghost predicate Since(begins: nat -> bool, ends: nat -> bool, n: nat) {
    exists i :: 0 <= i < n && Lasts(begins, ends, i, n)
  }

  ghost predicate Lasts(begins: nat -> bool, ends: nat -> bool, i: nat, n: nat) {
    begins(i) && forall j :: i <= j < n ==> !ends(j)
  }

  lemma SinceStep(begins: nat -> bool, ends: nat -> bool, n: nat)
    ensures Since(begins, ends, n + 1) <==> (Since(begins, ends, n) || begins(n)) && !ends(n)
  {
    if Since(begins, ends, n + 1) {
      var i :| 0 <= i < n + 1 && Lasts(begins, ends, i, n + 1);
      if i < n { assert Lasts(begins, ends, i, n); }
    }
    if begins(n) && !ends(n) {
      assert Lasts(begins, ends, n, n + 1);
    }
    if Since(begins, ends, n) && !ends(n) {
      var i :| 0 <= i < n && Lasts(begins, ends, i, n);
      assert Lasts(begins, ends, i, n + 1);
    }
  }

  // ----- The list over a run -----

  /** The thread takes a lease for the key in step i. */
  ghost function TakesAt(ops: seq<Op>, k: Key): nat -> bool {
    (i: nat) => i < |ops| && Takes(At(Init(), ops, i), ops[i], k)
  }

  ghost function DropsAt(ops: seq<Op>, k: Key): nat -> bool {
    (i: nat) => i < |ops| && Drops(At(Init(), ops, i), ops[i], k)
  }

  /** The lease thread took a lease for the key and has not dropped it since. */
  ghost predicate Held(ops: seq<Op>, n: nat, k: Key) {
    Since(TakesAt(ops, k), DropsAt(ops, k), n)
  }

  /** Over every run the list holds a key exactly when the thread took a lease for it and
      has not dropped it since, through restarts too. */
  lemma {:induction false} ListedExactly(ops: seq<Op>, n: nat, k: Key)
    requires n <= |ops|
    ensures k in Keys(At(Init(), ops, n).leases) <==> Held(ops, n, k)
  {
    InitInv();
    if n == 0 {
      assert ops[..0] == [];
    } else {
      ListedExactly(ops, n - 1, k);
      AtNext(Init(), ops, n - 1);
      AtKeepsInv(Init(), ops, n - 1);
      StepKeys(At(Init(), ops, n - 1), ops[n - 1], k);
      SinceStep(TakesAt(ops, k), DropsAt(ops, k), n - 1);
    }
  }

  // ----- Crashes -----

  /** The thread takes, in step i, a lease for a key it holds. */
  ghost function TakesHeldAt(ops: seq<Op>): nat -> bool {
    (i: nat) => i < |ops| && exists k :: Takes(At(Init(), ops, i), ops[i], k) && Held(ops, i, k)
  }

  ghost predicate Revives(e: Engine, op: Op) {
    op.Restart? && LoadedFrom(op.loaded, e.disk, Later(e, op.now), op.seeds)
  }

  ghost function RevivesAt(ops: seq<Op>): nat -> bool {
    (i: nat) => i < |ops| && Revives(At(Init(), ops, i), ops[i])
  }

  lemma StepCrash(e: Engine, op: Op)
    requires Inv(e)
    ensures Step(e, op).crashed <==>
              if e.crashed then !Revives(e, op)
              else exists k :: Takes(e, op, k) && k in Keys(e.leases)
  {
    if op.Restart? {
      LoadRebuilds(e.muted);
      LoadRebuilds(e.ledger.commands);
    } else if op.Loop? && !e.crashed {
      StepIsLoop(e, op);
      LoopCrash(e, op.choice, op.reading);
    } else {
      LeasesOnlyInLoop(e, op);
    }
  }

  lemma LoopCrash(e: Engine, choice: Choice, reading: Reading)
    requires !e.crashed
    ensures StepLoop(e, choice, reading).crashed
       <==> exists k :: Takes(e, Loop(choice, reading), k) && k in Keys(e.leases)
  {
    if choice.PickAdd? && choice.i < |e.adds| {
      assert Takes(e, Loop(choice, reading), e.adds[choice.i].lease.key);
    }
  }

  lemma NextCrash(ops: seq<Op>, n: nat)
    requires n < |ops|
    ensures At(Init(), ops, n + 1).crashed
       <==> (At(Init(), ops, n).crashed || TakesHeldAt(ops)(n)) && !RevivesAt(ops)(n)
  {
    InitInv();
    var e, op := At(Init(), ops, n), ops[n];
    AtNext(Init(), ops, n);
    AtKeepsInv(Init(), ops, n);
    StepCrash(e, op);
    forall k ensures k in Keys(e.leases) <==> Held(ops, n, k) { ListedExactly(ops, n, k); }
  }

  /** Along every run the lease thread is down exactly when it once took a lease for a key
      that it had taken before and not dropped since, and was not restarted after. */
  lemma {:induction false} CrashedExactly(ops: seq<Op>, n: nat)
    requires n <= |ops|
    ensures At(Init(), ops, n).crashed <==> Since(TakesHeldAt(ops), RevivesAt(ops), n)
  {
    if n == 0 {
      assert ops[..0] == [];
    } else {
      CrashedExactly(ops, n - 1);
      NextCrash(ops, n - 1);
      SinceStep(TakesHeldAt(ops), RevivesAt(ops), n - 1);
    }
  }
}
