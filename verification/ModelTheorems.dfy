/**
 * The messages of the event model over every run: who wrote them, who can delete them and
 * whether they are pinned.
 */
module ModelTheorems {
  import opened Wrappers
  import opened ChannelTypes
  import opened ChannelStorage
  import opened LeaseTrigger
  import opened LeaseOrder
  import opened LeasePass
  import opened LeaseIndex
  import opened LeaseDisk
  import opened ReplayBlocker
  import opened ActionSaver
  import opened MutedUsers
  import opened ChannelEngine
  import opened EngineInvariants
  import opened EngineSteps

  // ----- What a step does to the event model -----

  /** The listener that a message of a type reaches: that of its type's handler, if the handler
      takes messages from where it comes and, for a muted sender, from muted ones. */
  function ReachedBy(hs: map<MessageType, Handler>, t: MessageType, admin: bool, muted: bool): Option<Listener> {
    if t in hs && (!muted || hs[t].muted) && (if admin then hs[t].admin else hs[t].user)
    then Some(hs[t].listener) else None
  }

  lemma ReachesListener(e: Engine, t: Task)
    requires t.Call?
    ensures var h, l := HandlerFor(e, t), ReachedBy(e.handlers, t.command.messageType, t.admin, t.muted);
            (h.Some? <==> l.Some?) && (h.Some? ==> h.value.listener == l.value)
  {
  }

  predicate TakesMessages(l: Listener) {
    l.TextListener? || l.ReactionListener? || l.InvitationListener?
  }

  /** The job that a step advances. */
  function Advancing(e: Engine, op: Op): Option<Task> {
    if !e.crashed && op.Advance? && op.i < |e.jobs| then Some(e.jobs[op.i].task) else None
  }

  /** The message that a step brings into the event model, with its sender. */
  function Delivered(e: Engine, op: Op): Option<(MessageID, PubKey)> {
    match Advancing(e, op)
    case Some(Call(sender, cmd, admin, muted)) =>
      var l := ReachedBy(e.handlers, cmd.messageType, admin, muted);
      if l.Some? && TakesMessages(l.value) && cmd.content.Plain? && cmd.messageID !in e.model
      then Some((cmd.messageID, sender)) else None
    case _ => None
  }

  /** The message that a step deletes: the target of an admin's deletion as it is received, or
      of a user's deletion that was admitted. */
  function Deleted(e: Engine, op: Op): Option<MessageID> {
    match Advancing(e, op)
    case Some(Call(_, cmd, admin, muted)) =>
      if ReachedBy(e.handlers, cmd.messageType, admin, muted) == Some(DeleteListener)
         && cmd.content.DeleteMsg? && cmd.fromAdmin
      then Some(cmd.content.target) else None
    case Some(Erase(cmd)) => if cmd.content.DeleteMsg? then Some(cmd.content.target) else None
    case _ => None
  }

  /** The message that a step pins or unpins. */
  function Pinned(e: Engine, op: Op): Option<(MessageID, bool)> {
    match Advancing(e, op)
    case Some(Pin(cmd)) => if cmd.content.PinnedMsg? then Some((cmd.content.target, !cmd.content.undo)) else None
    case _ => None
  }

  /** m is a good next state of one message. */
  ghost predicate MessageAfter(e: Engine, op: Op, model: map<MessageID, Message>, m: MessageID) {
    && (m in model <==>
          (Delivered(e, op).Some? && Delivered(e, op).value.0 == m) || (m in e.model && Deleted(e, op) != Some(m)))
    && (m in model && m !in e.model ==>
          Delivered(e, op).Some? && model[m] == Message(Delivered(e, op).value.1, false))
    && (m in model && m in e.model ==>
          && model[m].sender == e.model[m].sender
          && (model[m].pinned <==>
                if Pinned(e, op).Some? && Pinned(e, op).value.0 == m then Pinned(e, op).value.1 else e.model[m].pinned))
  }

  lemma CallModel(e: Engine, i: nat, now: Time, seed: nat, m: MessageID)
    requires Inv(e) && !e.crashed && i < |e.jobs| && e.jobs[i].task.Call?
    ensures MessageAfter(e, Advance(i, now, seed), StepAdvance(e, i, now, seed).model, m)
  {
    var e1, j := e.(clock := Later(e, now)), e.jobs[i];
    CallEffect(e1, j, Later(e, now), seed);
    ReachesListener(e, j.task);
    var h := HandlerFor(e, j.task);
    if h.Some? {
      ListenModel(e1, h.value.listener, j.task.sender, j.task.command, Later(e, now), seed);
      HeardModel(e, Advance(i, now, seed), h.value.listener, StepAdvance(e, i, now, seed).model, m);
    }
  }

  /** The event model after a message reached a listener. */
  function HeardBy(model: map<MessageID, Message>, l: Listener, sender: PubKey, cmd: Command)
    : map<MessageID, Message>
  {
    if TakesMessages(l) && cmd.content.Plain? && cmd.messageID !in model
    then model[cmd.messageID := Message(sender, false)]
    else if l == DeleteListener && cmd.content.DeleteMsg? && cmd.fromAdmin
    then model - {cmd.content.target}
    else model
  }

  lemma HeardModel(e: Engine, op: Op, l: Listener, model: map<MessageID, Message>, m: MessageID)
    requires Advancing(e, op).Some? && Advancing(e, op).value.Call?
    requires var t := Advancing(e, op).value;
             && ReachedBy(e.handlers, t.command.messageType, t.admin, t.muted) == Some(l)
             && model == HeardBy(e.model, l, t.sender, t.command)
    ensures MessageAfter(e, op, model, m)
  {
  }

  /** The event model after a listener's first call. */
  lemma ListenModel(e: Engine, l: Listener, sender: PubKey, cmd: Command, now: Time, seed: nat)
    ensures Listen(e, l, sender, cmd, now, seed).0.model == HeardBy(e.model, l, sender, cmd)
  {
    match l {
      case PinnedListener => PinnedElsewhere(e, cmd, now, seed);
      case MuteListener => MuteElsewhere(e, cmd, now, seed);
      case DeleteListener =>
        if cmd.content.DeleteMsg? && cmd.content.target !in e.model {
          assert e.model - {cmd.content.target} == e.model;
        }
      case _ =>
    }
  }

  lemma ContinueModel(e: Engine, i: nat, now: Time, seed: nat, m: MessageID)
    requires !e.crashed && i < |e.jobs| && !e.jobs[i].task.Call? && !e.jobs[i].task.Check?
    ensures MessageAfter(e, Advance(i, now, seed), StepAdvance(e, i, now, seed).model, m)
  {
    ContinueEffect(e.(clock := Later(e, now)), e.jobs[i], Later(e, now), seed);
  }

  lemma AdvanceModel(e: Engine, i: nat, now: Time, seed: nat, m: MessageID)
    requires Inv(e) && !e.crashed && i < |e.jobs|
    ensures MessageAfter(e, Advance(i, now, seed), StepAdvance(e, i, now, seed).model, m)
  {
    var e1, j := e.(clock := Later(e, now)), e.jobs[i];
    if j.task.Check? {
      CheckEffect(e1, j, Later(e, now), seed);
    } else if j.task.Call? {
      CallModel(e, i, now, seed, m);
    } else {
      ContinueModel(e, i, now, seed, m);
    }
  }

  lemma UpdateModel(e: Engine, i: nat, now: Time, seed: nat)
    requires Inv(e) && !e.crashed && i < |e.updates|
    ensures StepUpdate(e, i, now, seed).model == e.model
  {
    var e1, cmd := e.(updates := Without(e.updates, i), clock := Later(e, now)), e.updates[i].command;
    assert e.updates[i] in e.updates && UpdateOk(e.updates[i]);
    assert e.handlers[PINNED] == DEFAULTS[PINNED];
    PinnedElsewhere(e1, cmd, Later(e, now), seed);
  }

  lemma OthersKeepModel(e: Engine, op: Op)
    requires Inv(e) && !op.Advance?
    ensures Step(e, op).model == e.model
  {
    if op.Restart? {
    } else if !e.crashed {
      match op {
        case RunUndo(i, now, seed) => if i < |e.undos| { ExpiryNeverUndoes(e, i, now, seed); }
        case RunUpdate(i, now, seed) => if i < |e.updates| { UpdateModel(e, i, now, seed); }
        case Loop(choice, reading) =>
          StepIsLoop(e, op);
          LoopOnlyForgets(e, choice, reading, 0, Key(0, 0, NoContent));
        case Leave(_) =>
        case _ => LedgerUntouched(e, op);
      }
    }
  }

  /** What every step does to every message: it is there afterwards exactly when the step
      brings it in, or it was there and the step does not delete it. It comes in unpinned
      under its sender, keeps its sender, and is pinned or unpinned by a pin alone. */
  lemma ModelAfter(e: Engine, op: Op, m: MessageID)
    requires Inv(e)
    ensures MessageAfter(e, op, Step(e, op).model, m)
  {
    if op.Advance? {
      if !e.crashed && op.i < |e.jobs| {
        AdvanceModel(e, op.i, op.now, op.seed, m);
      }
    } else {
      OthersKeepModel(e, op);
    }
  }

  // ----- Pins -----

  ghost function PinnedNext(e: Engine, op: Op, m: MessageID, b: bool): bool {
    if Delivered(e, op).Some? && Delivered(e, op).value.0 == m then false
    else if Pinned(e, op).Some? && Pinned(e, op).value.0 == m && m in e.model then Pinned(e, op).value.1
    else b
  }

  /** Whether the last pin or unpin applied to a message since it came in was a pin. */
  ghost function LastPinned(e: Engine, ops: seq<Op>, m: MessageID, b: bool): bool
    decreases |ops|
  {
    if ops == [] then b else LastPinned(Step(e, ops[0]), ops[1..], m, PinnedNext(e, ops[0], m, b))
  }

  lemma {:induction false} RunPins(e: Engine, ops: seq<Op>, m: MessageID, b: bool)
    requires Inv(e) && (m in e.model ==> (e.model[m].pinned <==> b))
    ensures m in Run(e, ops).model ==> (Run(e, ops).model[m].pinned <==> LastPinned(e, ops, m, b))
    decreases |ops|
  {
    if ops != [] {
      ModelAfter(e, ops[0], m);
      StepKeepsInv(e, ops[0]);
      RunPins(Step(e, ops[0]), ops[1..], m, PinnedNext(e, ops[0], m, b));
    }
  }

  /** In every run a message is pinned exactly when the last pin or unpin applied to it since
      it came in was a pin. */
  lemma PinnedIsLastApplied(ops: seq<Op>, m: MessageID)
    requires m in Run(Init(), ops).model
    ensures Run(Init(), ops).model[m].pinned <==> LastPinned(Init(), ops, m, false)
  {
    InitInv();
    RunPins(Init(), ops, m, false);
  }

  // ----- Where jobs come from -----

  /** The message that arrives in a step: its sender, the command and whether it is an
      admin's. */
  function Arriving(op: Op): Option<(PubKey, Command, bool)> {
    match op
    case BeginUser(sender, cmd) => Some((sender, cmd.(fromAdmin := false), false))
    case BeginAdmin(cmd) => Some((ADMIN_KEY, cmd.(fromAdmin := true), true))
    case _ => None
  }

  /** An arriving message waits to be checked, with whether its sender is muted; an admin's
      counts as not muted. Nothing else changes. */
  lemma ArrivesExactly(e: Engine, op: Op)
    requires !e.crashed && Arriving(op).Some?
    ensures var (sender, cmd, admin) := Arriving(op).value;
            Step(e, op) == e.(jobs := e.jobs + [Job(Check(sender, cmd, admin,
                                                          !admin && IsMuted(e.muted.table, cmd.channel, sender)),
                                                    None)])
  {
  }

  /** The message arrived before step n. */
  ghost predicate Arrived(ops: seq<Op>, n: nat, sender: PubKey, cmd: Command, admin: bool) {
    exists q :: 0 <= q < n && q < |ops| && Arriving(ops[q]) == Some((sender, cmd, admin))
  }

  /** Before step n the deletion, of a user, came to a target that its sender had written. */
  ghost predicate Admitted(ops: seq<Op>, n: nat, cmd: Command) {
    exists p, sender :: 0 <= p < n && p < |ops| && AdmittedAt(ops, p, sender, cmd)
  }

  ghost predicate AdmittedAt(ops: seq<Op>, p: nat, sender: PubKey, cmd: Command)
    requires p < |ops|
  {
    && Arrived(ops, p, sender, cmd, false) && cmd.content.DeleteMsg?
    && cmd.content.target in At(Init(), ops, p).model
    && At(Init(), ops, p).model[cmd.content.target].sender == sender
  }

  ghost predicate TaskFrom(ops: seq<Op>, n: nat, t: Task) {
    match t
    case Check(sender, cmd, admin, _) => Arrived(ops, n, sender, cmd, admin)
    case Call(sender, cmd, admin, _) => Arrived(ops, n, sender, cmd, admin)
    case Erase(cmd) => Admitted(ops, n, cmd)
    case _ => true
  }

  lemma TaskLater(ops: seq<Op>, n: nat, t: Task)
    requires TaskFrom(ops, n, t)
    ensures TaskFrom(ops, n + 1, t)
  {
  }

  /** A user's deletion goes on exactly when its sender is the author of its target in the
      event model; nothing is changed yet. */
  lemma UserDeletionExactly(e: Engine, sender: PubKey, cmd: Command)
    requires cmd.content.DeleteMsg? && !cmd.fromAdmin
    ensures var (e1, next) := ReceiveDelete(e, sender, cmd);
            var m := cmd.content.target;
            e1 == e && next == if m in e.model && e.model[m].sender == sender then Some(Erase(cmd)) else None
  {
  }

  /** A job waits to erase only if the step that made it so found the sender to be the
      author. */
  lemma EraseFollows(e: Engine, i: nat, now: Time, seed: nat, j: Job)
    requires Inv(e) && !e.crashed && i < |e.jobs| && j.task.Erase?
    requires j in RunJob(e.(clock := Later(e, now)), e.jobs[i], Later(e, now), seed).1
    ensures var t := e.jobs[i].task;
            && t.Call? && !t.admin && t.command == j.task.command && j.task.command.content.DeleteMsg?
            && j.task.command.content.target in e.model
            && e.model[j.task.command.content.target].sender == t.sender
  {
    var e1, job := e.(clock := Later(e, now)), e.jobs[i];
    assert job in e.jobs && JobOk(job);
    if job.task.Check? {
      CheckEffect(e1, job, Later(e, now), seed);
    } else if job.task.Call? {
      CallEffect(e1, job, Later(e, now), seed);
    } else {
      ContinueEffect(e1, job, Later(e, now), seed);
    }
  }

  lemma JobsFromStep(ops: seq<Op>, n: nat, j: Job)
    requires n < |ops| && j in At(Init(), ops, n + 1).jobs && j !in At(Init(), ops, n).jobs
    requires forall k :: k in At(Init(), ops, n).jobs ==> TaskFrom(ops, n, k.task)
    ensures TaskFrom(ops, n + 1, j.task)
  {
    var e, op := At(Init(), ops, n), ops[n];
    InitInv();
    AtKeepsInv(Init(), ops, n);
    AtNext(Init(), ops, n);
    JobsAfter(e, op, j);
    match op {
      case Advance(i, now, seed) =>
        assert e.jobs[i] in e.jobs;
        TaskLater(ops, n, e.jobs[i].task);
        if j.task.Erase? {
          NewJobFromRun(e, i, now, seed, j);
          EraseFollows(e, i, now, seed, j);
          assert AdmittedAt(ops, n, e.jobs[i].task.sender, j.task.command);
        }
      case BeginUser(sender, cmd) => assert Arriving(ops[n]) == Some((sender, cmd.(fromAdmin := false), false));
      case BeginAdmin(cmd) => assert Arriving(ops[n]) == Some((ADMIN_KEY, cmd.(fromAdmin := true), true));
      case _ =>
    }
  }

  lemma NewJobFromRun(e: Engine, i: nat, now: Time, seed: nat, j: Job)
    requires !e.crashed && i < |e.jobs| && j in StepAdvance(e, i, now, seed).jobs && j !in e.jobs
    ensures j in RunJob(e.(clock := Later(e, now)), e.jobs[i], Later(e, now), seed).1
  {
    WithoutMembers(e.jobs, i);
  }

  lemma {:induction false} JobsFrom(ops: seq<Op>, n: nat)
    requires n <= |ops|
    ensures forall j :: j in At(Init(), ops, n).jobs ==> TaskFrom(ops, n, j.task)
  {
    if n == 0 {
      assert ops[..0] == [];
    } else {
      JobsFrom(ops, n - 1);
      forall j | j in At(Init(), ops, n).jobs ensures TaskFrom(ops, n, j.task) {
        if j in At(Init(), ops, n - 1).jobs {
          TaskLater(ops, n - 1, j.task);
        } else {
          JobsFromStep(ops, n - 1, j);
        }
      }
    }
  }

  // ----- Deletions -----

  /** The deletion allows the message to go: it is the admin's, or a user's that was admitted
      because its sender wrote the message. */
  ghost predicate Permits(ops: seq<Op>, n: nat, cmd: Command, m: MessageID) {
    && cmd.content.DeleteMsg? && cmd.content.target == m
    && (Arrived(ops, n, ADMIN_KEY, cmd, true) || Admitted(ops, n, cmd))
  }

  /** In every run a message leaves the event model only for a deletion of it that arrived
      from the admin, or that arrived from a user who was its author in the event model when
      the deletion was received. */
  lemma DeletedWithPermission(ops: seq<Op>, n: nat, m: MessageID)
    requires n < |ops| && m in At(Init(), ops, n).model && m !in At(Init(), ops, n + 1).model
    ensures exists cmd :: Permits(ops, n, cmd, m)
  {
    var e, op := At(Init(), ops, n), ops[n];
    InitInv();
    AtKeepsInv(Init(), ops, n);
    AtNext(Init(), ops, n);
    ModelAfter(e, op, m);
    JobsFrom(ops, n);
    var j := e.jobs[op.i];
    assert j in e.jobs && JobOk(j) && TaskFrom(ops, n, j.task);
    AdminArrived(ops, n, j.task);
    assert Permits(ops, n, j.task.command, m);
  }

  /** What the admin sent arrived as the admin's. */
  lemma AdminArrived(ops: seq<Op>, n: nat, t: Task)
    requires TaskFrom(ops, n, t)
    ensures t.Call? && t.admin ==> Arrived(ops, n, ADMIN_KEY, t.command, true)
  {
  }

  // ----- Authors -----

  /** A message with this identifier arrived from the sender before step n. */
  ghost predicate Wrote(ops: seq<Op>, n: nat, sender: PubKey, m: MessageID) {
    exists q :: 0 <= q < n && q < |ops| && Arriving(ops[q]).Some?
                && Arriving(ops[q]).value.0 == sender && Arriving(ops[q]).value.1.messageID == m
  }

  lemma NewFromSender(ops: seq<Op>, n: nat)
    requires n < |ops| && Delivered(At(Init(), ops, n), ops[n]).Some?
    ensures var d := Delivered(At(Init(), ops, n), ops[n]).value; Wrote(ops, n + 1, d.1, d.0)
  {
    var e, op := At(Init(), ops, n), ops[n];
    JobsFrom(ops, n);
    var t := e.jobs[op.i].task;
    assert e.jobs[op.i] in e.jobs && Arrived(ops, n, t.sender, t.command, t.admin);
    var q :| 0 <= q < n && q < |ops| && Arriving(ops[q]) == Some((t.sender, t.command, t.admin));
    assert Arriving(ops[q]).Some?;
  }

  lemma WroteLater(ops: seq<Op>, n: nat, sender: PubKey, m: MessageID)
    requires Wrote(ops, n, sender, m)
    ensures Wrote(ops, n + 1, sender, m)
  {
  }

  /** In every run a message of the event model arrived from its author: as that user's, or as
      the admin's under the admin's key. */
  lemma {:induction false} AuthorIsSender(ops: seq<Op>, n: nat, m: MessageID)
    requires n <= |ops| && m in At(Init(), ops, n).model
    ensures Wrote(ops, n, At(Init(), ops, n).model[m].sender, m)
  {
    assert ops[..0] == [];
    if n > 0 {
      if m in At(Init(), ops, n - 1).model {
        AuthorIsSender(ops, n - 1, m);
      }
      AuthorStep(ops, n - 1, m);
    }
  }

  lemma AuthorStep(ops: seq<Op>, n: nat, m: MessageID)
    requires n < |ops| && m in At(Init(), ops, n + 1).model
    requires m in At(Init(), ops, n).model ==> Wrote(ops, n, At(Init(), ops, n).model[m].sender, m)
    ensures Wrote(ops, n + 1, At(Init(), ops, n + 1).model[m].sender, m)
  {
    var e := At(Init(), ops, n);
    InitInv();
    AtKeepsInv(Init(), ops, n);
    AtNext(Init(), ops, n);
    ModelAfter(e, ops[n], m);
    if m in e.model {
      WroteLater(ops, n, e.model[m].sender, m);
    } else {
      NewFromSender(ops, n);
    }
  }
}
