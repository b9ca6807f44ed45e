/**
 * Actions that wait for their message: what is saved of them, how long it is kept, and
 * that one is taken along by its message when that arrives and started when it is handled.
 */
module SavedTheorems {
  import opened Wrappers
  import opened ChannelTypes
  import opened ChannelStorage
  import opened LeaseTrigger
  import opened LeaseOrder
  import opened LeasePass
  import opened LeaseIndex
  import opened LeaseDisk
  import opened ReplayBlocker
  import opened ActionSaver
  import opened MutedUsers
  import opened ChannelEngine
  import opened EngineInvariants
  import opened EngineSteps
  import opened ModelTheorems

  // ----- What is saved -----

  function SavedFor(e: Engine, c: ChannelID, m: MessageID): Option<SavedAction> {
    if Has(e.saved.table, c, m) then Some(e.saved.table[c][m]) else None
  }

  /** A deletion is saved without its payload, its originating time and its rounds. */
  predicate DeletionSaved(a: SavedAction, cmd: Command, now: Time) {
    && cmd.content.DeleteMsg? && a.received == now && a.target == cmd.content.target
    && a.command.channel == cmd.channel && a.command.messageID == cmd.messageID
    && a.command.messageType == cmd.messageType && a.command.timestamp == cmd.timestamp
    && a.command.lease == cmd.lease && a.command.fromAdmin == cmd.fromAdmin
    && a.command.originating == ZERO_TIME && a.command.content == NoContent
  }

  /** A deletion that did not find its message is saved, unless one is saved already; a pin is
      saved as it came, unless a deletion or a pin that is not older is. Nothing else of the
      saved actions changes. */
  lemma KeptExactly(e: Engine, i: nat, now: Time, seed: nat, c: ChannelID, m: MessageID)
    requires Inv(e) && !e.crashed && i < |e.jobs|
    ensures var before, after, t := SavedFor(e, c, m), SavedFor(StepAdvance(e, i, now, seed), c, m), e.jobs[i].task;
            match t
            case KeepErase(cmd) =>
              cmd.content.DeleteMsg? &&
              if (cmd.channel, cmd.content.target) != (c, m) || (before.Some? && IsDelete(before.value))
              then after == before
              else after.Some? && DeletionSaved(after.value, cmd, Later(e, now))
            case KeepPin(cmd) =>
              cmd.content.PinnedMsg? &&
              if (cmd.channel, cmd.content.target) != (c, m)
                 || (before.Some? && (IsDelete(before.value)
                                      || cmd.originating <= before.value.command.originating))
              then after == before
              else after == Some(SavedAction(Later(e, now), m, cmd))
            case _ => after == before
  {
    AdvanceSaves(e, i, now, seed);
    assert e.jobs[i] in e.jobs && JobOk(e.jobs[i]);
    match e.jobs[i].task {
      case KeepErase(cmd) =>
        PutLookup(e.saved.table, cmd.channel, cmd.content.target, SavedErase(cmd, Later(e, now)), c, m);
      case KeepPin(cmd) =>
        PutLookup(e.saved.table, cmd.channel, cmd.content.target,
                  SavedAction(Later(e, now), cmd.content.target, cmd), c, m);
      case _ =>
    }
  }

  /** A purge leaves the actions received within the last 24 hours. */
  lemma PurgeExactly(e: Engine, now: Time, c: ChannelID, m: MessageID)
    ensures var before, after := SavedFor(e, c, m), SavedFor(StepPurge(e, now), c, m);
            after == if before.Some? && Later(e, now) - before.value.received <= 24 * HOUR then before else None
  {
    PurgeTable(e.saved, Later(e, now));
    PurgedExactly(e.saved.table, Later(e, now), c, m);
  }

  /** The goroutine of an arrived message takes off whatever is saved for it. */
  lemma CleanupExactly(e: Engine, i: nat, c: ChannelID, m: MessageID)
    requires i < |e.cleanups|
    ensures SavedFor(StepCleanup(e, i), c, m) == if e.cleanups[i] == (c, m) then None else SavedFor(e, c, m)
  {
    RemoveLookup(e.saved.table, e.cleanups[i].0, e.cleanups[i].1, c, m);
  }

  // ----- A saved action and its message -----

  /** An arriving message with a saved deletion goes no further; one with another saved action
      takes it along; and what was saved is taken off by a goroutine. */
  lemma CheckExactly(e: Engine, j: Job, now: Time, seed: nat)
    requires j.task.Check?
    ensures var (e1, rest), t := RunJob(e, j, now, seed), j.task;
            var a := SavedFor(e, t.command.channel, t.command.messageID);
            && rest == (if a.Some? && IsDelete(a.value) then []
                        else [Job(Call(t.sender, t.command, t.admin, t.muted), a)])
            && e1 == e.(cleanups := if a.Some? then e.cleanups + [(t.command.channel, t.command.messageID)]
                                    else e.cleanups)
  {
  }

  /** The action is on its way: a message being handled has it along, or it is started. */
  ghost predicate Carried(e: Engine, a: SavedAction) {
    (exists j :: j in e.jobs && j.update == Some(a)) || a in e.updates
  }

  /** The action is applied in this step. */
  predicate Starts(e: Engine, op: Op, a: SavedAction) {
    !e.crashed && op.RunUpdate? && op.i < |e.updates| && e.updates[op.i] == a
  }

  /** The message that has the action along reaches no listener, and is dropped with it. */
  predicate Unheard(e: Engine, op: Op, a: SavedAction) {
    && !e.crashed && op.Advance? && op.i < |e.jobs| && e.jobs[op.i].update == Some(a)
    && match e.jobs[op.i].task
       case Call(_, cmd, admin, muted) => ReachedBy(e.handlers, cmd.messageType, admin, muted).None?
       case _ => false
  }

  /** Handling a message with an action along, it keeps the action along until the last call
      of its listener, which starts the action. */
  lemma AlongExactly(e: Engine, i: nat, now: Time, seed: nat, a: SavedAction)
    requires !e.crashed && i < |e.jobs| && e.jobs[i].update == Some(a) && !e.jobs[i].task.Check?
    requires !Unheard(e, Advance(i, now, seed), a)
    ensures var (e1, rest) := RunJob(e.(clock := Later(e, now)), e.jobs[i], Later(e, now), seed);
            && (rest == [] ==> e1.updates == e.updates + [a])
            && (rest != [] ==> rest[0].update == Some(a) && e1.updates == e.updates)
  {
    var e1, j := e.(clock := Later(e, now)), e.jobs[i];
    if j.task.Call? {
      ReachesListener(e, j.task);
      var h := HandlerFor(e, j.task);
      ListenElsewhere(e1, h.value.listener, j.task.sender, j.task.command, Later(e, now), seed);
    } else {
      ContinueElsewhere(e1, j.task, Later(e, now));
    }
  }

  /** Messages have nothing along before they are checked. */
  ghost predicate NothingEarly(e: Engine) {
    forall j :: j in e.jobs && j.task.Check? ==> j.update.None?
  }

  lemma NothingEarlyNext(e: Engine, op: Op)
    requires Inv(e) && NothingEarly(e)
    ensures NothingEarly(Step(e, op))
  {
    forall j | j in Step(e, op).jobs && j.task.Check? ensures j.update.None? {
      if j !in e.jobs {
        JobsAfter(e, op, j);
      }
    }
  }

  lemma UpdatesGrow(e: Engine, i: nat, now: Time, seed: nat)
    requires !e.crashed && i < |e.jobs|
    ensures forall b :: b in e.updates ==> b in StepAdvance(e, i, now, seed).updates
  {
    var e1, j := e.(clock := Later(e, now)), e.jobs[i];
    if j.task.Check? {
      CheckExactly(e1, j, Later(e, now), seed);
    } else if j.task.Call? {
      var h := HandlerFor(e, j.task);
      if h.Some? {
        ListenElsewhere(e1, h.value.listener, j.task.sender, j.task.command, Later(e, now), seed);
      }
    } else {
      ContinueElsewhere(e1, j.task, Later(e, now));
    }
  }

  lemma AdvanceCarries(e: Engine, i: nat, now: Time, seed: nat, a: SavedAction)
    requires Inv(e) && NothingEarly(e) && !e.crashed && i < |e.jobs| && Carried(e, a)
    requires !Unheard(e, Advance(i, now, seed), a)
    ensures Carried(StepAdvance(e, i, now, seed), a)
  {
    UpdatesGrow(e, i, now, seed);
    if a !in e.updates {
      var j :| j in e.jobs && j.update == Some(a);
      if j == e.jobs[i] {
        AlongExactly(e, i, now, seed, a);
        var rest := RunJob(e.(clock := Later(e, now)), e.jobs[i], Later(e, now), seed).1;
        if rest != [] {
          assert rest[0] in StepAdvance(e, i, now, seed).jobs;
        }
      } else {
        OthersStay(e, i, now, seed, j);
      }
    }
  }

  lemma OthersCarry(e: Engine, op: Op, a: SavedAction)
    requires Inv(e) && !e.crashed && Carried(e, a) && !op.Advance? && !op.Restart? && !Starts(e, op, a)
    ensures Carried(Step(e, op), a)
  {
    if j :| j in e.jobs && j.update == Some(a) {
      JobsStay(e, op, j);
    } else {
      UpdatesStay(e, op, a);
    }
  }

  lemma UpdatesStay(e: Engine, op: Op, a: SavedAction)
    requires Inv(e) && !e.crashed && a in e.updates && !op.Advance? && !op.Restart? && !Starts(e, op, a)
    ensures a in Step(e, op).updates
  {
    match op {
      case RunUndo(i, now, seed) => if i < |e.undos| { ExpiryNeverUndoes(e, i, now, seed); }
      case RunUpdate(i, now, seed) => if i < |e.updates| { OtherUpdatesStay(e, i, now, seed, a); }
      case Loop(choice, reading) =>
        StepIsLoop(e, op);
        LoopOnlyForgets(e, choice, reading, 0, Key(0, 0, NoContent));
      case Leave(_) =>
      case _ => LedgerUntouched(e, op);
    }
  }

  lemma OtherUpdatesStay(e: Engine, i: nat, now: Time, seed: nat, a: SavedAction)
    requires Inv(e) && i < |e.updates| && a in e.updates && e.updates[i] != a
    ensures a in StepUpdate(e, i, now, seed).updates
  {
    var e1, cmd := e.(updates := Without(e.updates, i), clock := Later(e, now)), e.updates[i].command;
    assert e.updates == e.updates[..i] + [e.updates[i]] + e.updates[i + 1..];
    var h := GetHandler(e.handlers, cmd.messageType, true, cmd.fromAdmin, false);
    if h.Some? {
      ListenElsewhere(e1, h.value.listener, ADMIN_KEY, cmd, Later(e, now), seed);
    }
  }

  /** What can end it. */
  ghost predicate Resolved(e: Engine, op: Op, a: SavedAction) {
    Starts(e, op, a) || Unheard(e, op, a) || op.Restart?
  }

  lemma StepCarries(e: Engine, op: Op, a: SavedAction)
    requires Inv(e) && NothingEarly(e) && Carried(e, a) && !Resolved(e, op, a)
    ensures Carried(Step(e, op), a)
  {
    if !e.crashed {
      if op.Advance? {
        if op.i < |e.jobs| {
          AdvanceCarries(e, op.i, op.now, op.seed, a);
        }
      } else {
        OthersCarry(e, op, a);
      }
    }
  }

  lemma {:induction false} NothingEarlyAt(ops: seq<Op>, n: nat)
    requires n <= |ops|
    ensures NothingEarly(At(Init(), ops, n))
  {
    if n == 0 {
      assert ops[..0] == [];
    } else {
      NothingEarlyAt(ops, n - 1);
      GoodAt(ops, n - 1);
      AtNext(Init(), ops, n - 1);
      NothingEarlyNext(At(Init(), ops, n - 1), ops[n - 1]);
    }
  }

  lemma GoodAt(ops: seq<Op>, n: nat)
    requires n <= |ops|
    ensures Inv(At(Init(), ops, n))
  {
    InitInv();
    AtKeepsInv(Init(), ops, n);
  }

  /** The step checks a message for which the action, not a deletion, is saved. */
  predicate TakesAlong(e: Engine, op: Op, a: SavedAction) {
    && !e.crashed && op.Advance? && op.i < |e.jobs| && !IsDelete(a)
    && match e.jobs[op.i].task
       case Check(_, cmd, _, _) => SavedFor(e, cmd.channel, cmd.messageID) == Some(a)
       case _ => false
  }

  lemma TakenAlong(e: Engine, op: Op, a: SavedAction)
    requires TakesAlong(e, op, a)
    ensures Carried(Step(e, op), a)
  {
    var e1, j := e.(clock := Later(e, op.now)), e.jobs[op.i];
    CheckExactly(e1, j, Later(e, op.now), op.seed);
    var rest := RunJob(e1, j, Later(e, op.now), op.seed).1;
    assert rest[0] in Step(e, op).jobs && rest[0].update == Some(a);
  }

  /** In every run, once a message was checked for which an action other than a deletion was
      saved, the action is on its way, until it is applied, or its message turns out to reach
      no listener, or the process ends. */
  lemma {:induction false} SavedActionIsApplied(ops: seq<Op>, p: nat, n: nat, a: SavedAction)
    requires p < n <= |ops| && TakesAlong(At(Init(), ops, p), ops[p], a)
    ensures Carried(At(Init(), ops, n), a) || exists q :: p < q < n && Resolved(At(Init(), ops, q), ops[q], a)
    decreases n
  {
    if n == p + 1 {
      AtNext(Init(), ops, p);
      TakenAlong(At(Init(), ops, p), ops[p], a);
    } else {
      SavedActionIsApplied(ops, p, n - 1, a);
      if Carried(At(Init(), ops, n - 1), a) && !Resolved(At(Init(), ops, n - 1), ops[n - 1], a) {
        CarriedAt(ops, n - 1, a);
      }
    }
  }

  lemma CarriedAt(ops: seq<Op>, n: nat, a: SavedAction)
    requires n < |ops| && Carried(At(Init(), ops, n), a) && !Resolved(At(Init(), ops, n), ops[n], a)
    ensures Carried(At(Init(), ops, n + 1), a)
  {
    GoodAt(ops, n);
    NothingEarlyAt(ops, n);
    AtNext(Init(), ops, n);
    StepCarries(At(Init(), ops, n), ops[n], a);
  }

  /** A started pin is handed to the lease system, and applied if that accepts it. */
  lemma StartedPinIsSubmitted(e: Engine, op: Op, a: SavedAction)
    requires Inv(e) && Starts(e, op, a) && a.command.content.PinnedMsg?
    ensures Submitting(e, op) == Some(a.command)
    ensures Accepted(e, op).Some? ==> Job(Pin(a.command), None) in Step(e, op).jobs
  {
    assert a in e.updates && UpdateOk(a);
    assert e.handlers[PINNED] == DEFAULTS[PINNED];
    var e1 := e.(updates := Without(e.updates, op.i), clock := Later(e, op.now));
    ListenLedger(e1, DEFAULTS[PINNED], ADMIN_KEY, a.command, Later(e, op.now), op.seed);
    VerdictIsLedgers(e, e1, a.command, Later(e, op.now), op.seed);
  }
}
