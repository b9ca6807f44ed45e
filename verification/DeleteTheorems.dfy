/**
 * A message and the admin's deletion of it, in every interleaving of their calls: the
 * message ends up absent, except when it is handed to its listener after the deletion
 * looked for it.
 */
module DeleteTheorems {
  import opened Wrappers
  import opened ChannelTypes
  import opened ChannelStorage
  import opened LeaseTrigger
  import opened LeaseOrder
  import opened ReplayBlocker
  import opened ActionSaver
  import opened MutedUsers
  import opened ChannelEngine
  import opened EngineInvariants
  import opened EngineSteps
  import opened EngineRuns

  predicate AimsAt(cmd: Command, m: MessageID) {
    cmd.messageType == DELETE && cmd.content.DeleteMsg? && cmd.content.target == m
  }

  /** A deletion of the message is saved for its arrival. */
  predicate SavedDelete(e: Engine, c: ChannelID, m: MessageID) {
    Has(e.saved.table, c, m) && IsDelete(e.saved.table[c][m])
  }

  // ----- Quiet steps -----

  /** A call that neither handles the message nor a deletion of it. */
  predicate QuietTask(t: Task, m: MessageID) {
    match t
    case Check(_, cmd, _, _) => cmd.messageID != m
    case Call(_, cmd, _, _) => cmd.messageID != m && !AimsAt(cmd, m)
    case Erase(cmd) => !AimsAt(cmd, m)
    case KeepErase(cmd) => !AimsAt(cmd, m)
    case _ => true
  }

  /** A step that neither handles the message nor a deletion of it, and drops no saved
      actions. Pins and unpins of the message, and everything about other messages, are
      quiet. */
  ghost predicate Quiet(e: Engine, op: Op, m: MessageID) {
    match op
    case BeginUser(_, cmd) => cmd.messageID != m
    case BeginAdmin(cmd) => cmd.messageID != m
    case Advance(i, _, _) => i < |e.jobs| ==> QuietTask(e.jobs[i].task, m)
    case Purge(_) => false
    case Restart(_, _, _) => false
    case _ => true
  }

  /** What quiet steps keep: whether the message is in the event model, and a saved deletion
      of it (unless its removal is under way). */
  ghost predicate StaysPut(e: Engine, e': Engine, c: ChannelID, m: MessageID) {
    && (m in e'.model <==> m in e.model)
    && ((c, m) in e'.cleanups ==> (c, m) in e.cleanups)
    && ((c, m) !in e.cleanups && SavedDelete(e, c, m) ==> SavedDelete(e', c, m))
  }

  lemma AddKeepsDelete(p: SavedStore, a: SavedAction, c: ChannelID, m: MessageID)
    requires Has(p.table, c, m) && IsDelete(p.table[c][m])
    ensures var t := AddAndStore(p, a).table; Has(t, c, m) && IsDelete(t[c][m])
  {
    PutLookup(p.table, a.command.channel, a.target, a, c, m);
  }

  lemma QuietListen(e: Engine, l: Listener, sender: PubKey, cmd: Command, now: Time, seed: nat, m: MessageID)
    requires cmd.messageID != m || l.PinnedListener? || l.MuteListener?
    requires l.DeleteListener? ==> !(cmd.content.DeleteMsg? && cmd.content.target == m)
    ensures m in Listen(e, l, sender, cmd, now, seed).0.model <==> m in e.model
  {
    match l {
      case PinnedListener => PinnedElsewhere(e, cmd, now, seed);
      case MuteListener => MuteElsewhere(e, cmd, now, seed);
      case _ =>
    }
  }

  lemma QuietCall(e: Engine, j: Job, now: Time, seed: nat, m: MessageID)
    requires HandlerInv(e) && j.task.Call? && QuietTask(j.task, m)
    ensures var e1 := RunJob(e, j, now, seed).0; (m in e1.model <==> m in e.model) && e1.cleanups == e.cleanups
  {
    var t := j.task;
    CallEffect(e, j, now, seed);
    var h := HandlerFor(e, t);
    if h.Some? {
      DispatchIsSound(e, t.command.messageType, !t.admin, t.admin, t.muted);
      QuietListen(e, h.value.listener, t.sender, t.command, now, seed, m);
      ListenElsewhere(e, h.value.listener, t.sender, t.command, now, seed);
    }
  }

  lemma QuietContinue(e: Engine, t: Task, now: Time, m: MessageID)
    requires TaskOk(t) && QuietTask(t, m)
    ensures m in Continue(e, t, now).0.model <==> m in e.model
  {
  }

  lemma QuietModel(e: Engine, i: nat, now: Time, seed: nat, c: ChannelID, m: MessageID)
    requires Inv(e) && i < |e.jobs| && QuietTask(e.jobs[i].task, m)
    ensures var e' := StepAdvance(e, i, now, seed);
            (m in e'.model <==> m in e.model) && ((c, m) in e'.cleanups ==> (c, m) in e.cleanups)
  {
    var e1, j := e.(clock := Later(e, now)), e.jobs[i];
    assert j in e.jobs && JobOk(j);
    if j.task.Check? {
      CheckEffect(e1, j, Later(e, now), seed);
    } else if j.task.Call? {
      QuietCall(e1, j, Later(e, now), seed, m);
    } else {
      ContinueEffect(e1, j, Later(e, now), seed);
      ContinueElsewhere(e1, j.task, Later(e, now));
      QuietContinue(e1, j.task, Later(e, now), m);
    }
  }

  lemma AdvanceKeepsDelete(e: Engine, i: nat, now: Time, seed: nat, c: ChannelID, m: MessageID)
    requires i < |e.jobs| && SavedDelete(e, c, m)
    ensures SavedDelete(StepAdvance(e, i, now, seed), c, m)
  {
    AdvanceSaves(e, i, now, seed);
    match e.jobs[i].task {
      case KeepErase(cmd) =>
        if cmd.content.DeleteMsg? { AddKeepsDelete(e.saved, SavedErase(cmd, Later(e, now)), c, m); }
      case KeepPin(cmd) =>
        if cmd.content.PinnedMsg? {
          AddKeepsDelete(e.saved, SavedAction(Later(e, now), cmd.content.target, cmd), c, m);
        }
      case _ =>
    }
  }

  lemma QuietUpdate(e: Engine, i: nat, now: Time, seed: nat, c: ChannelID, m: MessageID)
    requires Inv(e) && !e.crashed && i < |e.updates|
    ensures StaysPut(e, StepUpdate(e, i, now, seed), c, m)
  {
    var e1, cmd := e.(updates := Without(e.updates, i), clock := Later(e, now)), e.updates[i].command;
    assert e.updates[i] in e.updates && UpdateOk(e.updates[i]);
    assert e.handlers[PINNED] == DEFAULTS[PINNED];
    PinnedElsewhere(e1, cmd, Later(e, now), seed);
  }

  lemma QuietCleanup(e: Engine, i: nat, c: ChannelID, m: MessageID)
    ensures StaysPut(e, StepCleanup(e, i), c, m)
  {
    if i < |e.cleanups| {
      assert e.cleanups[i] in e.cleanups;
      RemoveLookup(e.saved.table, e.cleanups[i].0, e.cleanups[i].1, c, m);
    }
  }

  lemma QuietStep(e: Engine, op: Op, c: ChannelID, m: MessageID)
    requires Inv(e) && Quiet(e, op, m)
    ensures StaysPut(e, Step(e, op), c, m)
  {
    if !e.crashed {
      match op {
        case Advance(i, now, seed) =>
          if i < |e.jobs| {
            QuietModel(e, i, now, seed, c, m);
            if SavedDelete(e, c, m) { AdvanceKeepsDelete(e, i, now, seed, c, m); }
          }
        case RunUndo(i, now, seed) => if i < |e.undos| { ExpiryNeverUndoes(e, i, now, seed); }
        case RunUpdate(i, now, seed) => if i < |e.updates| { QuietUpdate(e, i, now, seed, c, m); }
        case RunCleanup(i) => QuietCleanup(e, i, c, m);
        case Loop(choice, reading) => LoopOnlyForgets(e, choice, reading, 0, Key(0, 0, NoContent));
        case _ =>
      }
    }
  }

  // ----- The events -----

  /** The message arrives. */
  predicate Arrives(op: Op, c: ChannelID, m: MessageID) {
    (op.BeginUser? || op.BeginAdmin?) && op.command.channel == c && op.command.messageID == m
  }

  /** The step makes the next call of a job. */
  predicate Runs(e: Engine, op: Op) {
    !e.crashed && op.Advance? && op.i < |e.jobs|
  }

  /** The message's saved actions are checked. */
  predicate Checks(e: Engine, op: Op, c: ChannelID, m: MessageID) {
    Runs(e, op) && e.jobs[op.i].task.Check?
    && e.jobs[op.i].task.command.channel == c && e.jobs[op.i].task.command.messageID == m
  }

  /** The message, checked before, is handed to its listener. */
  predicate Delivers(e: Engine, op: Op, m: MessageID) {
    Runs(e, op) && e.jobs[op.i].task.Call?
    && e.jobs[op.i].task.command.messageID == m && !AimsAt(e.jobs[op.i].task.command, m)
  }

  /** The admin's deletion looks for the message. */
  predicate Tries(e: Engine, op: Op, c: ChannelID, m: MessageID) {
    Runs(e, op) && e.jobs[op.i].task.Call? && e.jobs[op.i].task.admin
    && AimsAt(e.jobs[op.i].task.command, m) && e.jobs[op.i].task.command.channel == c
  }

  /** A deletion that did not find the message is saved. */
  predicate Saves(e: Engine, op: Op, c: ChannelID, m: MessageID) {
    Runs(e, op) && e.jobs[op.i].task.KeepErase?
    && AimsAt(e.jobs[op.i].task.command, m) && e.jobs[op.i].task.command.channel == c
  }

  /** The listener puts the message in the event model. */
  predicate Inserts(e: Engine, op: Op) {
    Runs(e, op) && e.jobs[op.i].task.Call? &&
    match HandlerFor(e, e.jobs[op.i].task)
    case None => false
    case Some(h) =>
      (h.listener.TextListener? || h.listener.ReactionListener? || h.listener.InvitationListener?)
      && e.jobs[op.i].task.command.content.Plain?
  }

  /** A deletion removes the message if it finds it. */
  lemma TryStep(e: Engine, op: Op, c: ChannelID, m: MessageID)
    requires HandlerInv(e) && Tries(e, op, c, m) && JobOk(e.jobs[op.i])
    ensures m !in Step(e, op).model && Step(e, op).cleanups == e.cleanups
    ensures Step(e, op).saved == e.saved
  {
    var e1, j := e.(clock := Later(e, op.now)), e.jobs[op.i];
    CallEffect(e1, j, Later(e, op.now), op.seed);
    assert e.handlers[DELETE] == DEFAULTS[DELETE];
    assert HandlerFor(e1, j.task) == Some(DEFAULTS[DELETE]);
  }

  /** A deletion that is saved is there for the check of the message. */
  lemma SaveStep(e: Engine, op: Op, c: ChannelID, m: MessageID)
    requires Saves(e, op, c, m)
    ensures SavedDelete(Step(e, op), c, m)
    ensures Step(e, op).model == e.model && Step(e, op).cleanups == e.cleanups
  {
    var e1, j, t := e.(clock := Later(e, op.now)), e.jobs[op.i], Later(e, op.now);
    ContinueEffect(e1, j, t, op.seed);
    AdvanceSaves(e, op.i, op.now, op.seed);
    var a := SavedErase(j.task.command, t);
    PutLookup(e.saved.table, c, m, a, c, m);
  }

  /** Handing the message to its listener inserts it or leaves the event model's answer. */
  lemma DeliveryStep(e: Engine, op: Op, m: MessageID)
    requires HandlerInv(e) && Delivers(e, op, m)
    ensures m in Step(e, op).model <==> m in e.model || Inserts(e, op)
  {
    var e1, j := e.(clock := Later(e, op.now)), e.jobs[op.i];
    var t := j.task;
    CallEffect(e1, j, Later(e, op.now), op.seed);
    var h := HandlerFor(e, t);
    if h.Some? {
      DispatchIsSound(e, t.command.messageType, !t.admin, t.admin, t.muted);
      DeliverListen(e1, h.value.listener, t.sender, t.command, Later(e, op.now), op.seed, m);
    }
  }

  lemma DeliverListen(e: Engine, l: Listener, sender: PubKey, cmd: Command, now: Time, seed: nat, m: MessageID)
    requires cmd.messageID == m
    requires l.DeleteListener? ==> !(cmd.content.DeleteMsg? && cmd.content.target == m)
    ensures m in Listen(e, l, sender, cmd, now, seed).0.model
       <==> || m in e.model
            || ((l.TextListener? || l.ReactionListener? || l.InvitationListener?) && cmd.content.Plain?)
  {
    match l {
      case PinnedListener => PinnedElsewhere(e, cmd, now, seed);
      case MuteListener => MuteElsewhere(e, cmd, now, seed);
      case _ =>
    }
  }

  // ----- Every interleaving -----

  /** How far the message and its deletion have come. */
  datatype Phase = Phase(
    arrived: bool,    // the message arrived
    checked: bool,    // its saved actions were checked
    dropped: bool,    // and a saved deletion was found
    tried: bool,      // the deletion looked for the message
    kept: bool)       // and was saved because it was not there

  const Fresh := Phase(false, false, false, false, false)

  function NextPhase(e: Engine, op: Op, c: ChannelID, m: MessageID, p: Phase): Phase {
    if Arrives(op, c, m) then p.(arrived := true)
    else if Checks(e, op, c, m) then p.(checked := true, dropped := p.kept)
    else if Tries(e, op, c, m) then p.(tried := true)
    else if Saves(e, op, c, m) then p.(kept := true)
    else p
  }

  /** The message arrives once and is checked once, one deletion of it is tried once and
      saved at most once, and all other steps but the delivery of the message are quiet. */
  ghost predicate StoryStep(e: Engine, op: Op, c: ChannelID, m: MessageID, p: Phase) {
    || Quiet(e, op, m)
    || (Arrives(op, c, m) && !p.arrived)
    || (Checks(e, op, c, m) && !p.checked)
    || (Tries(e, op, c, m) && !p.tried)
    || (Saves(e, op, c, m) && p.tried && !p.kept)
    || Delivers(e, op, m)
  }

  ghost predicate Story(e: Engine, ops: seq<Op>, c: ChannelID, m: MessageID, p: Phase)
    decreases |ops|
  {
    ops != [] ==>
      StoryStep(e, ops[0], c, m, p) && Story(Step(e, ops[0]), ops[1..], c, m, NextPhase(e, ops[0], c, m, p))
  }

  ghost function EndPhase(e: Engine, ops: seq<Op>, c: ChannelID, m: MessageID, p: Phase): Phase
    decreases |ops|
  {
    if ops == [] then p else EndPhase(Step(e, ops[0]), ops[1..], c, m, NextPhase(e, ops[0], c, m, p))
  }

  /** The message is handed to a listener that accepts it after the deletion looked for it. */
  ghost predicate Overtaken(e: Engine, ops: seq<Op>, c: ChannelID, m: MessageID, p: Phase)
    decreases |ops|
  {
    ops != [] &&
    ((p.tried && Delivers(e, ops[0], m) && Inserts(e, ops[0]))
     || Overtaken(Step(e, ops[0]), ops[1..], c, m, NextPhase(e, ops[0], c, m, p)))
  }

  /** The message is on its way to its listener. */
  ghost predicate Waiting(e: Engine, m: MessageID) {
    exists j :: j in e.jobs && WaitingAs(j, m)
  }

  predicate WaitingAs(j: Job, m: MessageID) {
    j.task.Call? && j.task.command.messageID == m && !AimsAt(j.task.command, m)
  }

  ghost predicate PhaseInv(e: Engine, c: ChannelID, m: MessageID, p: Phase) {
    && (!p.checked ==> m !in e.model && (c, m) !in e.cleanups && !Waiting(e, m) && (p.kept ==> SavedDelete(e, c, m)))
    && (p.dropped ==> p.checked && m !in e.model && !Waiting(e, m))
  }

  /** No step but its check puts the message on its way. */
  lemma NoNewWaiting(e: Engine, op: Op, c: ChannelID, m: MessageID)
    requires Inv(e) && !Waiting(e, m)
    requires Runs(e, op) ==> !(e.jobs[op.i].task.Check? && e.jobs[op.i].task.command.messageID == m)
    ensures !Waiting(Step(e, op), m)
  {
    if Waiting(Step(e, op), m) {
      var j :| j in Step(e, op).jobs && WaitingAs(j, m);
      JobsAfter(e, op, j);
      assert false;
    }
  }

  lemma QuietPhase(e: Engine, op: Op, c: ChannelID, m: MessageID, p: Phase)
    requires Inv(e) && PhaseInv(e, c, m, p) && Quiet(e, op, m)
    ensures PhaseInv(Step(e, op), c, m, p) && NextPhase(e, op, c, m, p) == p
    ensures m in Step(e, op).model <==> m in e.model
  {
    QuietStep(e, op, c, m);
    if !Waiting(e, m) {
      NoNewWaiting(e, op, c, m);
    }
  }

  lemma ArrivalPhase(e: Engine, op: Op, c: ChannelID, m: MessageID, p: Phase)
    requires Inv(e) && PhaseInv(e, c, m, p) && Arrives(op, c, m)
    ensures PhaseInv(Step(e, op), c, m, NextPhase(e, op, c, m, p)) && Step(e, op).model == e.model
  {
    if !Waiting(e, m) {
      NoNewWaiting(e, op, c, m);
    }
  }

  lemma CheckPhase(e: Engine, op: Op, c: ChannelID, m: MessageID, p: Phase)
    requires Inv(e) && PhaseInv(e, c, m, p) && Checks(e, op, c, m) && !p.checked
    ensures PhaseInv(Step(e, op), c, m, NextPhase(e, op, c, m, p)) && Step(e, op).model == e.model
  {
    var e1, j := e.(clock := Later(e, op.now)), e.jobs[op.i];
    CheckEffect(e1, j, Later(e, op.now), op.seed);
    if p.kept {
      WithoutMembers(e.jobs, op.i);
      forall j | j in Step(e, op).jobs ensures !WaitingAs(j, m) {
        assert j in e.jobs;
      }
    }
  }

  lemma TryPhase(e: Engine, op: Op, c: ChannelID, m: MessageID, p: Phase)
    requires Inv(e) && PhaseInv(e, c, m, p) && Tries(e, op, c, m)
    ensures PhaseInv(Step(e, op), c, m, NextPhase(e, op, c, m, p)) && m !in Step(e, op).model
  {
    assert e.jobs[op.i] in e.jobs;
    TryStep(e, op, c, m);
    if !Waiting(e, m) {
      NoNewWaiting(e, op, c, m);
    }
  }

  lemma SavePhase(e: Engine, op: Op, c: ChannelID, m: MessageID, p: Phase)
    requires Inv(e) && PhaseInv(e, c, m, p) && Saves(e, op, c, m)
    ensures PhaseInv(Step(e, op), c, m, NextPhase(e, op, c, m, p)) && Step(e, op).model == e.model
  {
    SaveStep(e, op, c, m);
    if !Waiting(e, m) {
      NoNewWaiting(e, op, c, m);
    }
  }

  /** A waiting message was checked and not dropped. */
  lemma DeliveryPhase(e: Engine, op: Op, c: ChannelID, m: MessageID, p: Phase)
    requires Inv(e) && PhaseInv(e, c, m, p) && Delivers(e, op, m)
    ensures p.checked && !p.dropped && NextPhase(e, op, c, m, p) == p && PhaseInv(Step(e, op), c, m, p)
    ensures m in Step(e, op).model <==> m in e.model || Inserts(e, op)
  {
    assert e.jobs[op.i] in e.jobs && WaitingAs(e.jobs[op.i], m);
    DeliveryStep(e, op, m);
  }

  lemma {:induction false} StoryEnds(e: Engine, ops: seq<Op>, c: ChannelID, m: MessageID, p: Phase)
    requires Inv(e) && PhaseInv(e, c, m, p) && Story(e, ops, c, m, p)
    requires EndPhase(e, ops, c, m, p).tried
    ensures m in Run(e, ops).model <==> Overtaken(e, ops, c, m, p) || (p.tried && m in e.model)
    ensures PhaseInv(Run(e, ops), c, m, EndPhase(e, ops, c, m, p))
    decreases |ops|
  {
    if ops != [] {
      var op := ops[0];
      StepKeepsInv(e, op);
      StoryPhase(e, op, c, m, p);
      StoryEnds(Step(e, op), ops[1..], c, m, NextPhase(e, op, c, m, p));
    }
  }

  /** One step of the story. */
  lemma StoryPhase(e: Engine, op: Op, c: ChannelID, m: MessageID, p: Phase)
    requires Inv(e) && PhaseInv(e, c, m, p) && StoryStep(e, op, c, m, p)
    ensures PhaseInv(Step(e, op), c, m, NextPhase(e, op, c, m, p))
    ensures var p', now := NextPhase(e, op, c, m, p), Delivers(e, op, m) && Inserts(e, op);
            && (p.tried ==> p'.tried)
            && (p.tried ==> (m in Step(e, op).model <==> m in e.model || now))
            && (p'.tried && !p.tried ==> m !in Step(e, op).model)
  {
    if Quiet(e, op, m) {
      QuietPhase(e, op, c, m, p);
    } else if Arrives(op, c, m) {
      ArrivalPhase(e, op, c, m, p);
    } else if Checks(e, op, c, m) {
      CheckPhase(e, op, c, m, p);
    } else if Tries(e, op, c, m) {
      TryPhase(e, op, c, m, p);
    } else if Saves(e, op, c, m) {
      SavePhase(e, op, c, m, p);
    } else {
      DeliveryPhase(e, op, c, m, p);
    }
  }

  /** One arrival of a message, one admin deletion of it and any number of pins, unpins and
      other steps, in every interleaving of their calls: in the end the message is absent,
      except exactly when an accepting listener got it after the deletion had looked for it
      in vain. That takes a check of the message before the deletion is saved: a message
      checked after that is dropped. */
  lemma DeleteConfluence(e: Engine, ops: seq<Op>, c: ChannelID, m: MessageID)
    requires Inv(e) && PhaseInv(e, c, m, Fresh) && Story(e, ops, c, m, Fresh)
    requires EndPhase(e, ops, c, m, Fresh).tried
    ensures m in Run(e, ops).model <==> Overtaken(e, ops, c, m, Fresh)
    ensures EndPhase(e, ops, c, m, Fresh).dropped ==> m !in Run(e, ops).model
  {
    StoryEnds(e, ops, c, m, Fresh);
  }

  // ----- The two ways to lose a deletion -----

  /** Both messages wait for their listeners. */
  ghost predicate Ready(e: Engine, text: Command, sender: PubKey, deletion: Command) {
    && HandlerInv(e) && !e.crashed && e.clock == 0 && e.saved.table == map[]
    && e.jobs == [Job(Call(sender, text, false, false), None), Job(Call(ADMIN_KEY, deletion, true, false), None)]
    && text.messageID !in e.model
    && text.messageType == TEXT && text.content.Plain?
    && AimsAt(deletion, text.messageID) && deletion.fromAdmin && deletion.channel == text.channel
  }

  /** The deletion looks for the message and is saved, then the message is delivered. */
  lemma LostAfterCheck(e: Engine, text: Command, sender: PubKey, deletion: Command)
    requires Ready(e, text, sender, deletion)
    ensures var e' := Run(e, [Advance(1, 0, 0), Advance(1, 0, 0), Advance(0, 0, 0)]);
            text.messageID in e'.model && SavedDelete(e', text.channel, text.messageID) && e'.jobs == []
  {
    RunThree(e, Advance(1, 0, 0), Advance(1, 0, 0), Advance(0, 0, 0));
    LooksInVain(e, 1, deletion);
    var e1 := Step(e, Advance(1, 0, 0));
    assert e1.jobs == [e.jobs[0], Job(KeepErase(deletion), None)];
    SavesDeletion(e1, 1, deletion);
    var e2 := Step(e1, Advance(1, 0, 0));
    assert e2.jobs == [e.jobs[0]];
    DeliversText(e2, 0, text, sender);
  }

  lemma LooksInVain(e: Engine, i: nat, deletion: Command)
    requires HandlerInv(e) && !e.crashed && e.clock == 0 && i < |e.jobs|
    requires e.jobs[i] == Job(Call(ADMIN_KEY, deletion, true, false), None)
    requires deletion.messageType == DELETE && deletion.content.DeleteMsg? && deletion.fromAdmin
    requires deletion.content.target !in e.model
    ensures Step(e, Advance(i, 0, 0)) == e.(jobs := Without(e.jobs, i) + [Job(KeepErase(deletion), None)])
  {
    assert e.handlers[DELETE] == DEFAULTS[DELETE];
    assert HandlerFor(e, e.jobs[i].task) == Some(DEFAULTS[DELETE]);
    assert RunJob(e, e.jobs[i], 0, 0) == (e, [Job(KeepErase(deletion), None)]);
  }

  lemma SavesDeletion(e: Engine, i: nat, deletion: Command)
    requires !e.crashed && e.clock == 0 && i < |e.jobs| && e.jobs[i] == Job(KeepErase(deletion), None)
    requires deletion.messageType == DELETE && deletion.content.DeleteMsg?
    ensures var e' := Step(e, Advance(i, 0, 0));
            && e' == e.(saved := e'.saved, jobs := Without(e.jobs, i))
            && SavedDelete(e', deletion.channel, deletion.content.target)
  {
    SaveStep(e, Advance(i, 0, 0), deletion.channel, deletion.content.target);
    assert Without(e.jobs, i) + [] == Without(e.jobs, i);
  }

  lemma DeliversText(e: Engine, i: nat, text: Command, sender: PubKey)
    requires HandlerInv(e) && !e.crashed && e.clock == 0 && i < |e.jobs|
    requires e.jobs[i] == Job(Call(sender, text, false, false), None)
    requires text.messageType == TEXT && text.content.Plain?
    ensures var e' := Step(e, Advance(i, 0, 0));
            e' == e.(model := e'.model, jobs := Without(e.jobs, i)) && text.messageID in e'.model
  {
    assert e.handlers[TEXT] == DEFAULTS[TEXT];
    assert Without(e.jobs, i) + [] == Without(e.jobs, i);
  }

  /** Both messages begin and are checked. */
  function BothBegin(text: Command, sender: PubKey, deletion: Command): seq<Op> {
    [BeginUser(sender, text), Advance(0, 0, 0)] + [BeginAdmin(deletion), Advance(1, 0, 0)]
  }

  lemma RunTwo(e: Engine, a: Op, b: Op)
    ensures Run(e, [a, b]) == Step(Step(e, a), b)
  {
    assert [a, b][1..] == [b];
    RunOne(Step(e, a), b);
  }

  lemma BothAreReady(text: Command, sender: PubKey, deletion: Command)
    requires text.messageType == TEXT && text.content.Plain? && !text.fromAdmin
    requires AimsAt(deletion, text.messageID) && deletion.fromAdmin && deletion.channel == text.channel
    ensures Ready(Run(Init(), BothBegin(text, sender, deletion)), text, sender, deletion)
  {
    InitInv();
    var e0 := Init();
    assert text.(fromAdmin := false) == text && deletion.(fromAdmin := true) == deletion;
    RunTwo(e0, BeginUser(sender, text), Advance(0, 0, 0));
    BeginAndCheck(e0, sender, text, false, 0);
    var e1 := e0.(jobs := [Job(Call(sender, text, false, false), None)]);
    assert Run(e0, [BeginUser(sender, text), Advance(0, 0, 0)]) == e1;
    RunTwo(e1, BeginAdmin(deletion), Advance(1, 0, 0));
    BeginAndCheck(e1, ADMIN_KEY, deletion, true, 0);
    RunAppend(e0, [BeginUser(sender, text), Advance(0, 0, 0)], [BeginAdmin(deletion), Advance(1, 0, 0)]);
  }

  /** The deletion looks for the message before it arrives. */
  lemma TriedFirst(deletion: Command)
    requires deletion.messageType == DELETE && deletion.content.DeleteMsg? && deletion.fromAdmin
    ensures Run(Init(), Submission(deletion, 0, 0)) == Init().(jobs := [Job(KeepErase(deletion), None)])
  {
    InitInv();
    var e0 := Init();
    RunThree(e0, BeginAdmin(deletion), Advance(0, 0, 0), Advance(0, 0, 0));
    assert deletion.(fromAdmin := true) == deletion;
    BeginAndCheck(e0, ADMIN_KEY, deletion, true, 0);
    LooksInVainAlone(e0.(jobs := [Job(Call(ADMIN_KEY, deletion, true, false), None)]), deletion);
  }

  lemma LooksInVainAlone(e: Engine, deletion: Command)
    requires HandlerInv(e) && !e.crashed && e.clock == 0
    requires e.jobs == [Job(Call(ADMIN_KEY, deletion, true, false), None)]
    requires deletion.messageType == DELETE && deletion.content.DeleteMsg? && deletion.fromAdmin
    requires deletion.content.target !in e.model
    ensures Step(e, Advance(0, 0, 0)) == e.(jobs := [Job(KeepErase(deletion), None)])
  {
    LooksInVain(e, 0, deletion);
    assert Without(e.jobs, 0) + [Job(KeepErase(deletion), None)] == [Job(KeepErase(deletion), None)];
  }

  /** The message arrives, is checked and delivered, and then the deletion is saved. */
  lemma SavedLast(e: Engine, text: Command, sender: PubKey, deletion: Command)
    requires HandlerInv(e) && !e.crashed && e.clock == 0 && e.saved.table == map[] && e.muted.table == map[]
    requires e.jobs == [Job(KeepErase(deletion), None)]
    requires text.messageType == TEXT && text.content.Plain? && !text.fromAdmin
    requires AimsAt(deletion, text.messageID) && deletion.channel == text.channel
    ensures var e' := Run(e, [BeginUser(sender, text), Advance(1, 0, 0), Advance(1, 0, 0)] + [Advance(0, 0, 0)]);
            text.messageID in e'.model && SavedDelete(e', text.channel, text.messageID) && e'.jobs == []
  {
    assert text.(fromAdmin := false) == text;
    RunThree(e, BeginUser(sender, text), Advance(1, 0, 0), Advance(1, 0, 0));
    BeginAndCheck(e, sender, text, false, 0);
    var e1 := e.(jobs := e.jobs + [Job(Call(sender, text, false, false), None)]);
    DeliversText(e1, 1, text, sender);
    var e2 := Step(e1, Advance(1, 0, 0));
    assert e2.jobs == e.jobs;
    SavesDeletion(e2, 0, deletion);
    RunOne(e2, Advance(0, 0, 0));
    RunAppend(e, [BeginUser(sender, text), Advance(1, 0, 0), Advance(1, 0, 0)], [Advance(0, 0, 0)]);
  }

  /** Two runs from the start that end with the message present and its deletion saved: in
      the first the deletion is handled between the check of the message and its delivery,
      in the second the message is handled between the two calls of the deletion. */
  lemma DeletionCanBeLost(text: Command, deletion: Command, sender: PubKey)
    requires text.messageType == TEXT && text.content.Plain? && !text.fromAdmin
    requires AimsAt(deletion, text.messageID) && deletion.fromAdmin && deletion.channel == text.channel
    ensures var e := Run(Init(), BothBegin(text, sender, deletion)
                                 + [Advance(1, 0, 0), Advance(1, 0, 0), Advance(0, 0, 0)]);
            var f := Run(Init(), Submission(deletion, 0, 0)
                                 + ([BeginUser(sender, text), Advance(1, 0, 0), Advance(1, 0, 0)]
                                    + [Advance(0, 0, 0)]));
            && text.messageID in e.model && SavedDelete(e, text.channel, text.messageID) && e.jobs == []
            && text.messageID in f.model && SavedDelete(f, text.channel, text.messageID) && f.jobs == []
  {
    InitInv();
    var ops := BothBegin(text, sender, deletion);
    BothAreReady(text, sender, deletion);
    LostAfterCheck(Run(Init(), ops), text, sender, deletion);
    RunAppend(Init(), ops, [Advance(1, 0, 0), Advance(1, 0, 0), Advance(0, 0, 0)]);
    TriedFirst(deletion);
    SavedLast(Init().(jobs := [Job(KeepErase(deletion), None)]), text, sender, deletion);
    RunAppend(Init(), Submission(deletion, 0, 0),
              [BeginUser(sender, text), Advance(1, 0, 0), Advance(1, 0, 0)] + [Advance(0, 0, 0)]);
  }
}
