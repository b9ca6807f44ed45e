/**
 * What single steps of the engine do to its parts: which command a step submits to the
 * lease system and whether it is accepted, and where the ledger, the muted users and the
 * jobs of the next state come from.
 */
module EngineSteps {
  import opened Wrappers
  import opened ChannelTypes
  import opened ChannelStorage
  import opened LeaseTrigger
  import opened LeaseOrder
  import opened LeasePass
  import opened LeaseIndex
  import opened LeaseDisk
  import opened ReplayBlocker
  import opened ActionSaver
  import opened MutedUsers
  import opened ChannelEngine
  import opened EngineInvariants

  // ----- Submissions -----

  /** The command that a listener hands to the lease system. */
  function Handed(h: Option<Handler>, cmd: Command): Option<Command> {
    if h.None? then None
    else if h.value.listener.PinnedListener? && cmd.content.PinnedMsg? then Some(cmd)
    else if h.value.listener.MuteListener? && cmd.content.MuteMsg? && cmd.content.user.Some? then Some(cmd)
    else None
  }

  /** The command that a step hands to the lease system. */
  function Submitting(e: Engine, op: Op): Option<Command> {
    if e.crashed then None
    else match op
      case Advance(i, _, _) =>
        if i < |e.jobs| && e.jobs[i].task.Call? then Handed(HandlerFor(e, e.jobs[i].task), e.jobs[i].task.command)
        else None
      case RunUpdate(i, _, _) =>
        if i < |e.updates| then
          var cmd := e.updates[i].command;
          Handed(GetHandler(e.handlers, cmd.messageType, true, cmd.fromAdmin, false), cmd)
        else None
      case _ => None
  }

  /** The command that a step gets accepted by the lease system. */
  function Accepted(e: Engine, op: Op): Option<Command> {
    match Submitting(e, op)
    case None => None
    case Some(cmd) =>
      if (op.Advance? || op.RunUpdate?) && (cmd.content.PinnedMsg? || cmd.content.MuteMsg?)
         && Submit(e, cmd, Later(e, op.now), op.seed).0 then Some(cmd) else None
  }

  /** The ledger after an accepted or a refused command. */
  function LedgerWith(l: Ledger, accepted: Option<Command>): Ledger
    requires accepted.Some? ==> accepted.value.content.PinnedMsg? || accepted.value.content.MuteMsg?
  {
    if accepted.Some? then Accept(l, accepted.value, Sanitize(accepted.value.content)) else l
  }

  lemma AcceptedContent(e: Engine, op: Op)
    requires Accepted(e, op).Some?
    ensures var cmd := Accepted(e, op).value;
            (cmd.content.PinnedMsg? || cmd.content.MuteMsg?) && Submitting(e, op) == Some(cmd) && !e.crashed
  {
  }

  lemma AddVerdict(e: Engine, e': Engine, cmd: Command, sanitized: Content, now: Time, seed: nat)
    requires e'.ledger == e.ledger
    ensures AddLease(e', cmd, sanitized, now, seed).0 == AddLease(e, cmd, sanitized, now, seed).0
    ensures AddLease(e', cmd, sanitized, now, seed).1.ledger == AddLease(e, cmd, sanitized, now, seed).1.ledger
  {
  }

  lemma RemoveVerdict(e: Engine, e': Engine, cmd: Command, sanitized: Content, now: Time)
    requires e'.ledger == e.ledger
    ensures RemoveLease(e', cmd, sanitized, now).0 == RemoveLease(e, cmd, sanitized, now).0
    ensures RemoveLease(e', cmd, sanitized, now).1.ledger == RemoveLease(e, cmd, sanitized, now).1.ledger
  {
  }

  /** The verdict depends on the ledger alone. */
  lemma VerdictIsLedgers(e: Engine, e': Engine, cmd: Command, now: Time, seed: nat)
    requires (cmd.content.PinnedMsg? || cmd.content.MuteMsg?) && e'.ledger == e.ledger
    ensures Submit(e', cmd, now, seed).0 == Submit(e, cmd, now, seed).0
    ensures Submit(e', cmd, now, seed).1.ledger == Submit(e, cmd, now, seed).1.ledger
  {
    AddVerdict(e, e', cmd, Sanitize(cmd.content), now, seed);
    RemoveVerdict(e, e', cmd, Sanitize(cmd.content), now);
  }

  /** A listener changes the ledger exactly by what it hands over and gets accepted. */
  lemma ListenLedger(e: Engine, h: Handler, sender: PubKey, cmd: Command, now: Time, seed: nat)
    ensures var (e1, next) := Listen(e, h.listener, sender, cmd, now, seed);
            match Handed(Some(h), cmd)
            case None =>
              && e1.ledger == e.ledger && e1.adds == e.adds && e1.removes == e.removes
              && (next.Some? ==> next.value.Erase? || next.value.KeepErase?)
            case Some(_) =>
              && (cmd.content.PinnedMsg? || cmd.content.MuteMsg?)
              && e1.ledger == LedgerWith(e.ledger, if Submit(e, cmd, now, seed).0 then Some(cmd) else None)
              && (next.Some? <==> Submit(e, cmd, now, seed).0)
              && (next.Some? ==> next.value == if h.listener.MuteListener? then Silence(cmd) else Pin(cmd))
  {
    match h.listener {
      case PinnedListener => if cmd.content.PinnedMsg? { SubmitFacts(e, cmd, now, seed); }
      case MuteListener => if cmd.content.MuteMsg? && cmd.content.user.Some? { SubmitFacts(e, cmd, now, seed); }
      case DeleteListener =>
      case TextListener =>
      case ReactionListener =>
      case InvitationListener =>
      case ReplayListener =>
      case Extension(_) =>
    }
  }

  /** What a listener leaves alone. */
  lemma ListenElsewhere(e: Engine, l: Listener, sender: PubKey, cmd: Command, now: Time, seed: nat)
    ensures var e1 := Listen(e, l, sender, cmd, now, seed).0;
            SameElsewhere(e, e1) && e1.muted == e.muted && e1.saved == e.saved
  {
    match l {
      case PinnedListener => PinnedElsewhere(e, cmd, now, seed);
      case MuteListener => MuteElsewhere(e, cmd, now, seed);
      case DeleteListener => DeleteElsewhere(e, sender, cmd);
      case TextListener =>
      case ReactionListener =>
      case InvitationListener =>
      case ReplayListener =>
      case Extension(_) =>
    }
  }

  lemma PinnedElsewhere(e: Engine, cmd: Command, now: Time, seed: nat)
    ensures var e1 := ReceivePinned(e, cmd, now, seed).0;
            SameElsewhere(e, e1) && e1.muted == e.muted && e1.saved == e.saved && e1.model == e.model
  {
    if cmd.content.PinnedMsg? {
      SubmitFacts(e, cmd, now, seed);
    }
  }

  lemma MuteElsewhere(e: Engine, cmd: Command, now: Time, seed: nat)
    ensures var e1 := ReceiveMute(e, cmd, now, seed).0;
            SameElsewhere(e, e1) && e1.muted == e.muted && e1.saved == e.saved && e1.model == e.model
  {
    if cmd.content.MuteMsg? && cmd.content.user.Some? {
      SubmitFacts(e, cmd, now, seed);
    }
  }

  lemma DeleteElsewhere(e: Engine, sender: PubKey, cmd: Command)
    ensures var e1 := ReceiveDelete(e, sender, cmd).0;
            SameElsewhere(e, e1) && e1.muted == e.muted && e1.saved == e.saved
  {
  }

  lemma ContinueElsewhere(e: Engine, t: Task, now: Time)
    ensures var e1 := Continue(e, t, now).0;
            && SameElsewhere(e, e1) && e1.ledger == e.ledger && e1.adds == e.adds && e1.removes == e.removes
            && (!t.Silence? ==> e1.muted == e.muted)
  {
  }

  // ----- Expiry -----

  lemma OverMeansElapsed(now: Time, originating: Time, lease: Duration)
    requires originating + lease <= now
    ensures Sub(now, originating) >= lease
  {
  }

  lemma SubmitOfExpired(e: Engine, cmd: Command, now: Time, seed: nat)
    requires cmd.content.PinnedMsg? || cmd.content.MuteMsg?
    requires cmd.originating + cmd.lease <= now
    ensures Submit(e, cmd, now, seed) == (false, e)
  {
    OverMeansElapsed(now, cmd.originating, cmd.lease);
  }

  /** The lease thread emits an undo for every lease that is over, but the undo is itself a
      command whose lease is over, and the lease system refuses those. In every reachable
      state running such an undo changes nothing: no user is unmuted and no message
      unpinned because a lease expired. */
  lemma ExpiryNeverUndoes(e: Engine, i: nat, now: Time, seed: nat)
    requires Inv(e) && i < |e.undos|
    ensures StepUndo(e, i, now, seed) == e.(undos := Without(e.undos, i), clock := Later(e, now))
  {
    var u, t := e.undos[i], Later(e, now);
    assert u in e.undos && UndoOk(u, e.clock);
    var e1 := e.(undos := Without(e.undos, i), clock := t);
    if u.content.PinnedMsg? || u.content.MuteMsg? {
      SubmitOfExpired(e1, u, t, seed);
    }
    assert e1.handlers[u.messageType] == DEFAULTS[u.messageType];
  }

  // ----- Advancing a job -----

  lemma CallEffect(e: Engine, j: Job, now: Time, seed: nat)
    requires j.task.Call?
    ensures var (e1, rest), t := RunJob(e, j, now, seed), j.task;
            match HandlerFor(e, t)
            case None => e1 == e && rest == []
            case Some(h) =>
              var p := Listen(e, h.listener, t.sender, t.command, now, seed);
              && e1 == p.0.(updates := e1.updates)
              && rest == if p.1.Some? then [Job(p.1.value, j.update)] else []
  {
  }

  lemma ContinueEffect(e: Engine, j: Job, now: Time, seed: nat)
    requires !j.task.Call? && !j.task.Check?
    ensures var (e1, rest), p := RunJob(e, j, now, seed), Continue(e, j.task, now);
            e1 == p.0.(updates := e1.updates) && rest == if p.1.Some? then [Job(p.1.value, j.update)] else []
  {
  }

  lemma CheckEffect(e: Engine, j: Job, now: Time, seed: nat)
    requires j.task.Check?
    ensures var (e1, rest), t := RunJob(e, j, now, seed), j.task;
            && e1 == e.(cleanups := e1.cleanups)
            && (forall r :: r in rest ==> r.task == Call(t.sender, t.command, t.admin, t.muted))
            && (rest == [] <==> Has(e.saved.table, t.command.channel, t.command.messageID)
                                && IsDelete(e.saved.table[t.command.channel][t.command.messageID]))
            && e1.cleanups == e.cleanups + (if Has(e.saved.table, t.command.channel, t.command.messageID)
                                            then [(t.command.channel, t.command.messageID)] else [])
  {
  }

  /** What a step that advances a job does to ledger, muted users and lease thread. */
  lemma AdvanceEffect(e: Engine, i: nat, now: Time, seed: nat)
    requires !e.crashed && i < |e.jobs|
    ensures var e', j, acc := StepAdvance(e, i, now, seed), e.jobs[i], Accepted(e, Advance(i, now, seed));
            && (acc.Some? ==> acc.value.content.PinnedMsg? || acc.value.content.MuteMsg?)
            && e'.ledger == LedgerWith(e.ledger, acc)
            && e'.leases == e.leases && e'.disk == e.disk && e'.load == e.load && e'.crashed == e.crashed
            && e'.handlers == e.handlers && e'.clock == Later(e, now) && e'.undos == e.undos && e'.leaves == e.leaves
            && e'.muted == (if j.task.Silence? then Continue(e, j.task, now).0.muted else e.muted)
  {
    var e1, j := e.(clock := Later(e, now)), e.jobs[i];
    match j.task {
      case Check(_, _, _, _) => CheckEffect(e1, j, Later(e, now), seed);
      case Call(sender, cmd, _, _) =>
        CallEffect(e1, j, Later(e, now), seed);
        var h := HandlerFor(e, j.task);
        if h.Some? {
          ListenLedger(e1, h.value, sender, cmd, Later(e, now), seed);
          ListenElsewhere(e1, h.value.listener, sender, cmd, Later(e, now), seed);
          if Handed(h, cmd).Some? {
            VerdictIsLedgers(e, e1, cmd, Later(e, now), seed);
          }
        }
      case _ =>
        ContinueEffect(e1, j, Later(e, now), seed);
        ContinueElsewhere(e1, j.task, Later(e, now));
    }
  }

  /** The saved actions after a call of a job. */
  function SavedWith(p: SavedStore, t: Task, now: Time): SavedStore {
    match t
    case KeepErase(cmd) => if cmd.content.DeleteMsg? then AddAndStore(p, SavedErase(cmd, now)) else p
    case KeepPin(cmd) =>
      if cmd.content.PinnedMsg? then AddAndStore(p, SavedAction(now, cmd.content.target, cmd)) else p
    case _ => p
  }

  lemma CallSaves(e: Engine, j: Job, now: Time, seed: nat)
    requires j.task.Call?
    ensures RunJob(e, j, now, seed).0.saved == e.saved
  {
    CallEffect(e, j, now, seed);
    var h := HandlerFor(e, j.task);
    if h.Some? {
      ListenElsewhere(e, h.value.listener, j.task.sender, j.task.command, now, seed);
    }
  }

  lemma ContinueSaves(e: Engine, t: Task, now: Time)
    ensures Continue(e, t, now).0.saved == SavedWith(e.saved, t, now)
  {
  }

  lemma AdvanceSaves(e: Engine, i: nat, now: Time, seed: nat)
    requires i < |e.jobs|
    ensures StepAdvance(e, i, now, seed).saved == SavedWith(e.saved, e.jobs[i].task, Later(e, now))
  {
    var e1, j := e.(clock := Later(e, now)), e.jobs[i];
    if j.task.Check? {
      CheckEffect(e1, j, Later(e, now), seed);
    } else if j.task.Call? {
      CallSaves(e1, j, Later(e, now), seed);
    } else {
      ContinueEffect(e1, j, Later(e, now), seed);
      ContinueSaves(e1, j.task, Later(e, now));
    }
  }

  /** What a step that applies a saved action does to ledger, muted users and lease thread. */
  lemma UpdateEffect(e: Engine, i: nat, now: Time, seed: nat)
    requires !e.crashed && i < |e.updates|
    ensures var e', acc := StepUpdate(e, i, now, seed), Accepted(e, RunUpdate(i, now, seed));
            && (acc.Some? ==> acc.value.content.PinnedMsg? || acc.value.content.MuteMsg?)
            && e'.ledger == LedgerWith(e.ledger, acc)
            && e'.leases == e.leases && e'.disk == e.disk && e'.load == e.load && e'.crashed == e.crashed
            && e'.handlers == e.handlers && e'.muted == e.muted && e'.saved == e.saved && e'.cleanups == e.cleanups
  {
    var e1, cmd := e.(updates := Without(e.updates, i), clock := Later(e, now)), e.updates[i].command;
    var h := GetHandler(e.handlers, cmd.messageType, true, cmd.fromAdmin, false);
    if h.Some? {
      ListenLedger(e1, h.value, ADMIN_KEY, cmd, Later(e, now), seed);
      ListenElsewhere(e1, h.value.listener, ADMIN_KEY, cmd, Later(e, now), seed);
      if Handed(h, cmd).Some? {
        VerdictIsLedgers(e, e1, cmd, Later(e, now), seed);
      }
    }
  }

  // ----- The lease thread -----

  /** The lease thread only ever removes entries of the blocker, and touches neither the
      muted users nor the event model nor the saved actions nor any job. */
  ghost predicate OnlyForgets(e: Engine, e': Engine, c: ChannelID, k: Key) {
    && (Has(e'.ledger.commands.table, c, k) ==>
          Has(e.ledger.commands.table, c, k)
          && e'.ledger.commands.table[c][k] == e.ledger.commands.table[c][k])
    && e'.muted == e.muted && e'.model == e.model && e'.saved == e.saved && e'.handlers == e.handlers
    && e'.jobs == e.jobs && e'.cleanups == e.cleanups && e'.updates == e.updates
  }

  lemma RemoveChannelOnlyForgets(e: Engine, gone: ChannelID, c: ChannelID, k: Key)
    ensures OnlyForgets(e, RemoveChannel(e, gone), c, k)
  {
    DropLookup(e.ledger.commands, gone, c, k);
  }

  lemma SelectForgetsNothing(e: Engine, choice: Choice)
    requires choice.PickLeave? ==> choice.i >= |e.leaves|
    ensures var e' := Select(e, choice);
            e' == e.(adds := e'.adds, removes := e'.removes, leases := e'.leases, disk := e'.disk,
                     crashed := e'.crashed)
  {
  }

  lemma SelectOnlyForgets(e: Engine, choice: Choice, c: ChannelID, k: Key)
    ensures OnlyForgets(e, Select(e, choice), c, k)
  {
    if choice.PickLeave? && choice.i < |e.leaves| {
      RemoveChannelOnlyForgets(e.(leaves := Without(e.leaves, choice.i)), e.leaves[choice.i], c, k);
    } else {
      SelectForgetsNothing(e, choice);
    }
  }

  lemma PassOnlyForgets(e: Engine, r: Reading, c: ChannelID, k: Key)
    requires Agrees(e.ledger) && Synced(e.ledger.commands)
    ensures OnlyForgets(e, PassOver(e, r), c, k)
  {
    ForgetEachAgrees(e.ledger, Forgotten(e.leases, e.ledger.bodies, r));
  }

  /** A live step of the lease thread is an iteration of its loop. */
  lemma StepIsLoop(e: Engine, op: Op)
    requires op.Loop? && !e.crashed
    ensures op == Loop(op.choice, op.reading) && Step(e, op) == StepLoop(e, op.choice, op.reading)
  {
  }

  lemma LoopOnlyForgets(e: Engine, choice: Choice, reading: Reading, c: ChannelID, k: Key)
    requires Inv(e)
    ensures OnlyForgets(e, StepLoop(e, choice, reading), c, k)
  {
    SelectKeepsInv(e, choice);
    SelectOnlyForgets(e, choice, c, k);
    var e1 := Select(e, choice);
    if !e1.crashed {
      PassOnlyForgets(e1, Monotone(e1, reading), c, k);
    }
  }

  // ----- Steps that touch none of this -----

  predicate LeavesLedger(op: Op) {
    op.BeginUser? || op.BeginAdmin? || op.RunCleanup? || op.RunReplay? || op.Register? || op.Purge?
  }

  lemma LedgerUntouched(e: Engine, op: Op)
    requires LeavesLedger(op)
    ensures var e' := StepLive(e, op);
            && e'.ledger == e.ledger && e'.muted == e.muted && e'.leases == e.leases && e'.crashed == e.crashed
            && e'.model == e.model && e'.updates == e.updates
            && (!op.BeginUser? && !op.BeginAdmin? ==> e'.jobs == e.jobs)
  {
    match op {
      case RunReplay(i, now, seed) => ReplayTouchesAdds(e, i, now, seed);
      case BeginUser(_, _) =>
      case BeginAdmin(_) =>
      case RunCleanup(_) =>
      case Register(_, _, _, _, _) =>
      case Purge(_) =>
    }
  }

  lemma ReplayTouchesAdds(e: Engine, i: nat, now: Time, seed: nat)
    ensures var e' := StepReplay(e, i, now, seed); e' == e.(clock := e'.clock, replays := e'.replays, adds := e'.adds)
  {
  }

  /** Where the ledger of the next state comes from, outside the lease thread. */
  lemma LedgerAfter(e: Engine, op: Op)
    requires Inv(e) && !op.Loop?
    ensures var acc := Accepted(e, op);
            && (acc.Some? ==> acc.value.content.PinnedMsg? || acc.value.content.MuteMsg?)
            && Step(e, op).ledger == LedgerWith(e.ledger, acc)
  {
    if op.Restart? {
      RestartKeepsInv(e, op.now, op.seeds, op.loaded);
    } else if !e.crashed {
      match op {
        case Advance(i, now, seed) => if i < |e.jobs| { AdvanceEffect(e, i, now, seed); }
        case RunUndo(i, now, seed) => if i < |e.undos| { ExpiryNeverUndoes(e, i, now, seed); }
        case RunUpdate(i, now, seed) => if i < |e.updates| { UpdateEffect(e, i, now, seed); }
        case Leave(_) =>
        case _ => LedgerUntouched(e, op);
      }
    }
  }

  /** Only the lease thread and a restart touch the leases. */
  lemma LeasesOnlyInLoop(e: Engine, op: Op)
    requires Inv(e) && !op.Restart? && (e.crashed || !op.Loop?)
    ensures Step(e, op).leases == e.leases && Step(e, op).crashed == e.crashed
  {
    if !e.crashed {
      match op {
        case Advance(i, now, seed) => if i < |e.jobs| { AdvanceEffect(e, i, now, seed); }
        case RunUndo(i, now, seed) => if i < |e.undos| { ExpiryNeverUndoes(e, i, now, seed); }
        case RunUpdate(i, now, seed) => if i < |e.updates| { UpdateEffect(e, i, now, seed); }
        case Leave(_) =>
        case _ => LedgerUntouched(e, op);
      }
    }
  }

  // ----- Where jobs come from -----

  /** How the next call of a job relates to the one that ran. */
  predicate Follows(e: Engine, op: Op, t: Task, t': Task) {
    && t'.command == t.command
    && match t'
       case Check(_, _, _, _) => false
       case Call(sender, cmd, admin, muted) => t == Check(sender, cmd, admin, muted)
       case Silence(cmd) => t.Call? && Accepted(e, op) == Some(cmd) && cmd.content.MuteMsg?
       case Pin(cmd) => t.Call? && Accepted(e, op) == Some(cmd) && cmd.content.PinnedMsg?
       case _ => true
  }

  lemma CallFollows(e: Engine, i: nat, now: Time, seed: nat)
    requires !e.crashed && i < |e.jobs| && e.jobs[i].task.Call?
    ensures forall r :: r in RunJob(e.(clock := Later(e, now)), e.jobs[i], Later(e, now), seed).1 ==>
              Follows(e, Advance(i, now, seed), e.jobs[i].task, r.task)
  {
    var e1, j := e.(clock := Later(e, now)), e.jobs[i];
    CallEffect(e1, j, Later(e, now), seed);
    var h := HandlerFor(e, j.task);
    if h.Some? {
      ListenLedger(e1, h.value, j.task.sender, j.task.command, Later(e, now), seed);
      if Handed(h, j.task.command).Some? {
        VerdictIsLedgers(e, e1, j.task.command, Later(e, now), seed);
      } else {
        ListenCommand(e1, h.value.listener, j.task.sender, j.task.command, Later(e, now), seed);
      }
    }
  }

  lemma ListenCommand(e: Engine, l: Listener, sender: PubKey, cmd: Command, now: Time, seed: nat)
    ensures var next := Listen(e, l, sender, cmd, now, seed).1; next.Some? ==> next.value.command == cmd
  {
  }

  lemma AdvanceFollows(e: Engine, i: nat, now: Time, seed: nat)
    requires !e.crashed && i < |e.jobs|
    ensures forall j :: j in StepAdvance(e, i, now, seed).jobs ==>
              j in Without(e.jobs, i) || Follows(e, Advance(i, now, seed), e.jobs[i].task, j.task)
    ensures forall j :: j in Without(e.jobs, i) ==> j in StepAdvance(e, i, now, seed).jobs
  {
    var e1, j := e.(clock := Later(e, now)), e.jobs[i];
    if j.task.Check? {
      CheckEffect(e1, j, Later(e, now), seed);
    } else if j.task.Call? {
      CallFollows(e, i, now, seed);
    } else {
      ContinueEffect(e1, j, Later(e, now), seed);
    }
  }

  /** A saved action that is applied starts a job only for an accepted pin. */
  lemma UpdateFollows(e: Engine, i: nat, now: Time, seed: nat)
    requires Inv(e) && !e.crashed && i < |e.updates|
    ensures var js, cmd := StepUpdate(e, i, now, seed).jobs, e.updates[i].command;
            js == e.jobs || js == e.jobs + [Job(Pin(cmd), None)]
  {
    var e1, cmd := e.(updates := Without(e.updates, i), clock := Later(e, now)), e.updates[i].command;
    assert e.updates[i] in e.updates && UpdateOk(e.updates[i]);
    assert e.handlers[PINNED] == DEFAULTS[PINNED];
    ListenElsewhere(e1, PinnedListener, ADMIN_KEY, cmd, Later(e, now), seed);
  }

  /** A job of the next state was there before, began in this step, or follows a job that
      was advanced in it. */
  lemma JobsAfter(e: Engine, op: Op, j: Job)
    requires Inv(e) && j in Step(e, op).jobs && j !in e.jobs
    ensures !e.crashed
    ensures match op
            case BeginUser(sender, cmd) =>
              j.task == Check(sender, cmd.(fromAdmin := false), false, IsMuted(e.muted.table, cmd.channel, sender))
            case BeginAdmin(cmd) => j.task == Check(ADMIN_KEY, cmd.(fromAdmin := true), true, false)
            case Advance(i, now, seed) => i < |e.jobs| && Follows(e, op, e.jobs[i].task, j.task)
            case RunUpdate(i, _, _) => j.task.Pin?
            case _ => false
  {
    match op {
      case Advance(i, now, seed) =>
        if !e.crashed && i < |e.jobs| {
          AdvanceFollows(e, i, now, seed);
          WithoutMembers(e.jobs, i);
        }
      case RunUndo(i, now, seed) => if !e.crashed && i < |e.undos| { ExpiryNeverUndoes(e, i, now, seed); }
      case RunUpdate(i, now, seed) => if !e.crashed && i < |e.updates| { UpdateFollows(e, i, now, seed); }
      case Loop(choice, reading) =>
        if !e.crashed { LoopOnlyForgets(e, choice, reading, 0, Key(0, 0, NoContent)); }
      case _ =>
    }
  }

  /** A job stays until it is advanced or the process ends. */
  lemma JobsStay(e: Engine, op: Op, j: Job)
    requires Inv(e) && j in e.jobs && !op.Restart?
    requires op.Advance? && op.i < |e.jobs| && !e.crashed ==> e.jobs[op.i] != j
    ensures j in Step(e, op).jobs
  {
    match op {
      case Advance(i, now, seed) => if !e.crashed && i < |e.jobs| { OthersStay(e, i, now, seed, j); }
      case RunUndo(i, now, seed) => if !e.crashed && i < |e.undos| { ExpiryNeverUndoes(e, i, now, seed); }
      case RunUpdate(i, now, seed) => if !e.crashed && i < |e.updates| { UpdateFollows(e, i, now, seed); }
      case Loop(choice, reading) =>
        if !e.crashed {
          StepIsLoop(e, op);
          LoopOnlyForgets(e, choice, reading, 0, Key(0, 0, NoContent));
        }
      case _ =>
    }
  }

  lemma OthersStay(e: Engine, i: nat, now: Time, seed: nat, j: Job)
    requires Inv(e) && j in e.jobs && !e.crashed && i < |e.jobs| && e.jobs[i] != j
    ensures j in StepAdvance(e, i, now, seed).jobs
  {
    AdvanceFollows(e, i, now, seed);
    assert e.jobs == e.jobs[..i] + [e.jobs[i]] + e.jobs[i + 1..];
  }

  // ----- Muted users -----

  /** What a step applies to a user of a channel: Some(true) for a mute. Leaving the channel
      unmutes everyone. */
  function Applying(e: Engine, op: Op, c: ChannelID, u: PubKey): Option<bool> {
    if e.crashed then None
    else match op
      case Advance(i, _, _) =>
        if i < |e.jobs| && e.jobs[i].task.Silence? && Targets(e.jobs[i].task.command, c, u)
        then Some(!e.jobs[i].task.command.content.undo) else None
      case Leave(d) => if d == c then Some(false) else None
      case _ => None
  }

  predicate Targets(cmd: Command, c: ChannelID, u: PubKey) {
    cmd.channel == c && cmd.content.MuteMsg? && cmd.content.user == Some(u)
  }

  lemma SilenceMutes(e: Engine, t: Task, now: Time, c: ChannelID, u: PubKey)
    requires t.Silence?
    ensures IsMuted(Continue(e, t, now).0.muted.table, c, u)
       <==> if Targets(t.command, c, u) then !t.command.content.undo else IsMuted(e.muted.table, c, u)
  {
    var cmd := t.command;
    if cmd.content.MuteMsg? && cmd.content.user.Some? {
      PutLookup(e.muted.table, cmd.channel, cmd.content.user.value, (), c, u);
      RemoveLookup(e.muted.table, cmd.channel, cmd.content.user.value, c, u);
    }
  }

  /** A user is muted after a step exactly when the step applies a mute, or applies nothing
      to them and they were muted before. */
  lemma MutedAfter(e: Engine, op: Op, c: ChannelID, u: PubKey)
    requires Inv(e)
    ensures IsMuted(Step(e, op).muted.table, c, u)
       <==> match Applying(e, op, c, u) { case Some(b) => b case None => IsMuted(e.muted.table, c, u) }
  {
    if op.Restart? {
      RestartKeepsInv(e, op.now, op.seeds, op.loaded);
    } else if !e.crashed {
      match op {
        case Advance(i, now, seed) =>
          if i < |e.jobs| {
            AdvanceEffect(e, i, now, seed);
            if e.jobs[i].task.Silence? { SilenceMutes(e, e.jobs[i].task, now, c, u); }
          }
        case RunUndo(i, now, seed) => if i < |e.undos| { ExpiryNeverUndoes(e, i, now, seed); }
        case RunUpdate(i, now, seed) => if i < |e.updates| { UpdateEffect(e, i, now, seed); }
        case Loop(choice, reading) => LoopOnlyForgets(e, choice, reading, 0, Key(0, 0, NoContent));
        case Leave(d) => DropLookup(e.muted, d, c, u);
        case _ => LedgerUntouched(e, op);
      }
    }
  }
}
