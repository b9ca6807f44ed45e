/**
 * channels/eventModel.go as it runs: the dispatcher, its handlers and the components it
 * changes. Every step of the engine has a method that performs exactly that step, so what
 * is proved of the engine's runs holds of the dispatcher.
 */
module Events {
  import opened Wrappers
  import opened ChannelTypes
  import opened ChannelStorage
  import opened LeaseTrigger
  import opened LeaseOrder
  import opened LeasePass
  import opened LeaseIndex
  import opened LeaseDisk
  import opened ReplayBlocker
  import opened ActionLeaseList
  import opened ActionSaver
  import opened MutedUsers
  import opened ChannelEngine

  class Dispatcher {
    const leases: LeaseList
    const mutedUsers: MutedUserManager
    const saver: Saver
    var crashed: bool
    var clock: Time
    var registered: map<MessageType, Handler>
    var model: map<MessageID, Message>
    var addLeaseMessage: seq<Packet>
    var removeLeaseMessage: seq<Key>
    var removeChannelCh: seq<ChannelID>
    var jobs: seq<Job>
    var undos: seq<Command>
    var updates: seq<SavedAction>

    ghost predicate Valid()
      reads this, leases, leases.blocker, mutedUsers, saver
    {
      leases.Valid() && mutedUsers.Valid() && saver.Valid()
    }

    ghost function State(): Engine
      reads this, leases, leases.blocker, leases.blocker.store, mutedUsers, saver
      requires AllLinked(leases.leases, leases.messagesByChannel)
    {
      Engine(crashed, clock, registered, model, mutedUsers.State(), saver.State(), leases.blocker.State(),
             leases.List(), leases.image, leases.load, addLeaseMessage, removeLeaseMessage, removeChannelCh, jobs,
             leases.blocker.replays, undos, updates, saver.cleanups)
    }

    /** initEvents over empty storage. */
    constructor ()
      ensures Valid() && State() == Init()
    {
      var store := new CommandStore();
      var blocker := new Blocker(store);
      leases := new LeaseList(blocker);
      mutedUsers := new MutedUserManager();
      saver := new Saver();
      crashed, clock, registered, model := false, 0, DEFAULTS, map[];
      addLeaseMessage, removeLeaseMessage, removeChannelCh := [], [], [];
      jobs, undos, updates := [], [], [];
    }

    // ----- The lease system's entry points -----

    /** ActionLeaseList.AddMessage. */
    method AddLeaseMessage(cmd: Command, sanitized: Content, now: Time, seed: nat) returns (ok: bool)
      requires Valid()
      modifies this`addLeaseMessage, leases.blocker, leases.blocker.store
      ensures Valid() && (ok, State()) == AddLease(old(State()), cmd, sanitized, now, seed)
    {
      var trigger := CalculateLeaseTrigger(now, cmd.originating, cmd.lease, seed);
      if trigger.None? {
        return false;
      }
      var verified := leases.blocker.VerifyReplay(cmd, sanitized);
      if !verified {
        return false;
      }
      var k := SanitizedKey(cmd, sanitized);
      var l := Lease(k, cmd.originating, cmd.lease, cmd.originating + cmd.lease, trigger.value);
      addLeaseMessage := addLeaseMessage + [Packet(l, cmd.(content := sanitized))];
      ok := true;
    }

    /** ActionLeaseList.RemoveMessage. */
    method RemoveLeaseMessage(cmd: Command, sanitized: Content, now: Time) returns (ok: bool)
      requires Valid()
      modifies this`removeLeaseMessage, leases.blocker, leases.blocker.store
      ensures Valid() && (ok, State()) == RemoveLease(old(State()), cmd, sanitized, now)
    {
      if Sub(now, cmd.originating) >= cmd.lease {
        return false;
      }
      var verified := leases.blocker.VerifyReplay(cmd, sanitized);
      if !verified {
        return false;
      }
      removeLeaseMessage := removeLeaseMessage + [SanitizedKey(cmd, sanitized)];
      ok := true;
    }

    /** ActionLeaseList.AddOrOverwrite. */
    method AddOrOverwrite(k: Key, now: Time, seed: nat)
      requires Valid()
      modifies this`addLeaseMessage
      ensures Valid() && State() == QuickReplay(old(State()), k, now, seed)
    {
      var cm := leases.blocker.store.LoadCommand(k);
      if cm.None? {
        return;
      }
      var t := now + RandDurationInRange(QUICK_REPLAY_FLOOR, QUICK_REPLAY_CEILING, seed);
      var l := Lease(k, cm.value.originating, cm.value.lease, cm.value.originating + cm.value.lease, t);
      addLeaseMessage := addLeaseMessage + [Packet(l, cm.value)];
    }

    // ----- Listeners, call by call -----

    /** receiveTextMessage, receiveReaction and receiveInvitation. */
    method ReceiveMessage(sender: PubKey, cmd: Command)
      requires Valid()
      modifies this`model
      ensures Valid() && State() == ReceivePlain(old(State()), sender, cmd)
    {
      if cmd.content.Plain? && cmd.messageID !in model {
        model := model[cmd.messageID := Message(sender, false)];
      }
    }

    /** The call of DeleteMessage in receiveDelete. */
    method DeleteMessage(cmd: Command) returns (next: Option<Task>)
      requires Valid() && cmd.content.DeleteMsg?
      modifies this`model
      ensures Valid() && (State(), next) == EraseMessage(old(State()), cmd)
    {
      var m := cmd.content.target;
      if m !in model {
        return Some(KeepErase(cmd));
      }
      model := model - {m};
      next := None;
    }

    /** receiveDelete up to its first call. */
    method ReceiveDeletion(sender: PubKey, cmd: Command) returns (next: Option<Task>)
      requires Valid()
      modifies this`model
      ensures Valid() && (State(), next) == ReceiveDelete(old(State()), sender, cmd)
    {
      if !cmd.content.DeleteMsg? {
        return None;
      }
      if !cmd.fromAdmin {
        var m := cmd.content.target;
        if m !in model {
          return None;
        }
        if model[m].sender != sender {
          return None;
        }
        return Some(Erase(cmd));
      }
      next := DeleteMessage(cmd);
    }

    /** The part receivePinned and receiveMute share: the lease system's verdict. */
    method SubmitCommand(cmd: Command, now: Time, seed: nat) returns (ok: bool)
      requires Valid() && (cmd.content.PinnedMsg? || cmd.content.MuteMsg?)
      modifies this`addLeaseMessage, this`removeLeaseMessage, leases.blocker, leases.blocker.store
      ensures Valid() && (ok, State()) == Submit(old(State()), cmd, now, seed)
    {
      var payload := Sanitize(cmd.content);
      if cmd.content.undo {
        ok := RemoveLeaseMessage(cmd, payload, now);
      } else {
        ok := AddLeaseMessage(cmd, payload, now, seed);
      }
    }

    /** receivePinned up to the verdict. */
    method ReceivePin(cmd: Command, now: Time, seed: nat) returns (next: Option<Task>)
      requires Valid()
      modifies this`addLeaseMessage, this`removeLeaseMessage, leases.blocker, leases.blocker.store
      ensures Valid() && (State(), next) == ReceivePinned(old(State()), cmd, now, seed)
    {
      if !cmd.content.PinnedMsg? {
        return None;
      }
      var ok := SubmitCommand(cmd, now, seed);
      next := if ok then Some(Pin(cmd)) else None;
    }

    /** receiveMute up to the verdict. */
    method ReceiveMuting(cmd: Command, now: Time, seed: nat) returns (next: Option<Task>)
      requires Valid()
      modifies this`addLeaseMessage, this`removeLeaseMessage, leases.blocker, leases.blocker.store
      ensures Valid() && (State(), next) == ReceiveMute(old(State()), cmd, now, seed)
    {
      if !cmd.content.MuteMsg? || cmd.content.user.None? {
        return None;
      }
      var ok := SubmitCommand(cmd, now, seed);
      next := if ok then Some(Silence(cmd)) else None;
    }

    /** A listener up to its first call. */
    method CallListener(l: Listener, sender: PubKey, cmd: Command, now: Time, seed: nat) returns (next: Option<Task>)
      requires Valid()
      modifies this`model, this`addLeaseMessage, this`removeLeaseMessage, leases.blocker, leases.blocker.store
      ensures Valid() && (State(), next) == Listen(old(State()), l, sender, cmd, now, seed)
    {
      next := None;
      match l {
        case TextListener => ReceiveMessage(sender, cmd);
        case ReactionListener => ReceiveMessage(sender, cmd);
        case InvitationListener => ReceiveMessage(sender, cmd);
        case DeleteListener => next := ReceiveDeletion(sender, cmd);
        case PinnedListener => next := ReceivePin(cmd, now, seed);
        case MuteListener => next := ReceiveMuting(cmd, now, seed);
        case ReplayListener =>
        case Extension(_) =>
      }
    }

    /** The call of UpdateFromMessageID in receivePinned. */
    method UpdatePinned(cmd: Command) returns (next: Option<Task>)
      requires Valid() && cmd.content.PinnedMsg?
      modifies this`model
      ensures Valid() && (State(), next) == PinMessage(old(State()), cmd)
    {
      var m := cmd.content.target;
      if m !in model {
        return Some(KeepPin(cmd));
      }
      model := model[m := model[m].(pinned := !cmd.content.undo)];
      next := None;
    }

    /** The end of receiveMute. */
    method ApplyMute(cmd: Command)
      requires Valid() && cmd.content.MuteMsg? && cmd.content.user.Some?
      modifies mutedUsers
      ensures Valid() && State() == SilenceUser(old(State()), cmd)
    {
      if cmd.content.undo {
        mutedUsers.UnmuteUser(cmd.channel, cmd.content.user.value);
      } else {
        mutedUsers.MuteUser(cmd.channel, cmd.content.user.value);
      }
    }

    method Save(a: SavedAction)
      requires Valid()
      modifies saver
      ensures Valid() && State() == SaveAction(old(State()), a)
    {
      saver.AddAction(a);
    }

    /** The calls of a listener after its first. */
    method ContinueListener(t: Task, now: Time) returns (next: Option<Task>)
      requires Valid()
      modifies this`model, mutedUsers, saver
      ensures Valid() && (State(), next) == Continue(old(State()), t, now)
    {
      next := None;
      match t {
        case Erase(cmd) => if cmd.content.DeleteMsg? { next := DeleteMessage(cmd); }
        case KeepErase(cmd) => if cmd.content.DeleteMsg? { Save(SavedErase(cmd, now)); }
        case Pin(cmd) => if cmd.content.PinnedMsg? { next := UpdatePinned(cmd); }
        case KeepPin(cmd) => if cmd.content.PinnedMsg? { Save(SavedAction(now, cmd.content.target, cmd)); }
        case Silence(cmd) => if cmd.content.MuteMsg? && cmd.content.user.Some? { ApplyMute(cmd); }
        case _ =>
      }
    }

    // ----- Triggers -----

    /** getHandler. */
    method FindHandler(t: MessageType, user: bool, admin: bool, muted: bool) returns (h: Option<Handler>)
      ensures h == GetHandler(registered, t, user, admin, muted)
    {
      if t !in registered {
        return None;
      }
      var handler := registered[t];
      if !handler.muted && muted {
        return None;
      }
      if handler.user && user {
        return Some(handler);
      }
      if handler.admin && admin {
        return Some(handler);
      }
      return None;
    }

    /** triggerEvent and triggerAdminEvent up to the mute check. */
    method BeginMessage(sender: PubKey, cmd: Command, admin: bool)
      requires Valid()
      modifies this`jobs
      ensures Valid() && State() == Begin(old(State()), sender, cmd, admin)
    {
      var muted := false;
      if !admin {
        muted := mutedUsers.IsMutedIn(cmd.channel, sender);
      }
      jobs := jobs + [Job(Check(sender, cmd.(fromAdmin := admin), admin, muted), None)];
    }

    /** The check of saved actions in triggerEvent and triggerAdminEvent. */
    method CheckMessage(sender: PubKey, cmd: Command, admin: bool, muted: bool) returns (rest: seq<Job>)
      requires Valid()
      modifies saver
      ensures Valid() && (State(), rest) == CheckSaved(old(State()), sender, cmd, admin, muted)
    {
      ghost var before := saver.cleanups;
      var update, deleted := saver.CheckSavedActions(cmd.channel, cmd.messageID);
      assert before + [] == before;
      if deleted {
        return [];
      }
      rest := [Job(Call(sender, cmd, admin, muted), update)];
    }

    /** What follows a call: the listener's next one, or the saved action. */
    method FinishCall(next: Option<Task>, update: Option<SavedAction>) returns (rest: seq<Job>)
      requires Valid()
      modifies this`updates
      ensures Valid() && (State(), rest) == After((old(State()), next), update)
    {
      if next.Some? {
        return [Job(next.value, update)];
      }
      if update.Some? {
        updates := updates + [update.value];
      }
      rest := [];
    }

    /** The listener call in triggerEvent and triggerAdminEvent. */
    method CallMessage(j: Job, now: Time, seed: nat) returns (rest: seq<Job>)
      requires Valid() && j.task.Call?
      modifies this`model, this`addLeaseMessage, this`removeLeaseMessage, this`updates
      modifies leases.blocker, leases.blocker.store
      ensures Valid() && (State(), rest) == RunJob(old(State()), j, now, seed)
    {
      var t := j.task;
      var h := FindHandler(t.command.messageType, !t.admin, t.admin, t.muted);
      if h.None? {
        return [];
      }
      var next := CallListener(h.value.listener, t.sender, t.command, now, seed);
      rest := FinishCall(next, j.update);
    }

    /** The later calls of a listener. */
    method ContinueMessage(j: Job, now: Time, seed: nat) returns (rest: seq<Job>)
      requires Valid() && !j.task.Check? && !j.task.Call?
      modifies this`model, this`updates, mutedUsers, saver
      ensures Valid() && (State(), rest) == RunJob(old(State()), j, now, seed)
    {
      var next := ContinueListener(j.task, now);
      rest := FinishCall(next, j.update);
    }

    /** triggerActionEvent up to the listener's first call. */
    method TriggerActionEvent(cmd: Command, now: Time, seed: nat)
      requires Valid()
      modifies this`model, this`addLeaseMessage, this`removeLeaseMessage, this`jobs
      modifies leases.blocker, leases.blocker.store
      ensures Valid() && State() == TriggerAction(old(State()), cmd, now, seed)
    {
      var h := FindHandler(cmd.messageType, true, cmd.fromAdmin, false);
      if h.Some? {
        var next := CallListener(h.value.listener, ADMIN_KEY, cmd, now, seed);
        if next.Some? {
          jobs := jobs + [Job(next.value, None)];
        }
      }
    }

    // ----- The steps of the engine -----

    /** A reading of the clock. */
    method Tick(now: Time) returns (t: Time)
      requires Valid()
      modifies this`clock
      ensures Valid() && t == Later(old(State()), now) && State() == old(State()).(clock := t)
    {
      t := if now >= clock then now else clock;
      clock := t;
    }

    /** A user's message arrives. */
    method UserMessage(sender: PubKey, cmd: Command)
      requires Valid() && !crashed
      modifies this`jobs
      ensures Valid() && State() == Step(old(State()), BeginUser(sender, cmd))
    {
      BeginMessage(sender, cmd, false);
    }

    /** An admin's message arrives. */
    method AdminMessage(cmd: Command)
      requires Valid() && !crashed
      modifies this`jobs
      ensures Valid() && State() == Step(old(State()), BeginAdmin(cmd))
    {
      BeginMessage(ADMIN_KEY, cmd, true);
    }

    /** One call of a job. */
    method RunOneCall(j: Job, now: Time, seed: nat) returns (rest: seq<Job>)
      requires Valid()
      modifies this`model, this`addLeaseMessage, this`removeLeaseMessage, this`updates
      modifies leases.blocker, leases.blocker.store, mutedUsers, saver
      ensures Valid() && (State(), rest) == RunJob(old(State()), j, now, seed)
    {
      match j.task {
        case Check(sender, cmd, admin, muted) => rest := CheckMessage(sender, cmd, admin, muted);
        case Call(_, _, _, _) => rest := CallMessage(j, now, seed);
        case _ => rest := ContinueMessage(j, now, seed);
      }
    }

    /** A message being handled makes its next call. */
    method AdvanceJob(i: nat, now: Time, seed: nat)
      requires Valid() && !crashed
      modifies this, leases.blocker, leases.blocker.store, mutedUsers, saver
      ensures Valid() && State() == Step(old(State()), Advance(i, now, seed))
    {
      if i < |jobs| {
        var j := jobs[i];
        var t := Tick(now);
        var rest := RunOneCall(j, t, seed);
        jobs := Without(jobs, i) + rest;
      }
    }

    /** The goroutine of an expired lease starts. */
    method StartUndo(i: nat, now: Time) returns (cmd: Command)
      requires Valid() && i < |undos|
      modifies this`undos, this`clock
      ensures Valid() && cmd == old(undos)[i]
      ensures State() == old(State()).(undos := Without(old(undos), i), clock := Later(old(State()), now))
    {
      cmd := undos[i];
      undos := Without(undos, i);
      clock := if now >= clock then now else clock;
    }

    /** The goroutine of an expired lease. */
    method RunUndoAt(i: nat, now: Time, seed: nat)
      requires Valid() && !crashed
      modifies this, leases.blocker, leases.blocker.store
      ensures Valid() && State() == Step(old(State()), RunUndo(i, now, seed))
    {
      if i < |undos| {
        var cmd := StartUndo(i, now);
        TriggerActionEvent(cmd, clock, seed);
      }
    }

    /** The goroutine of a saved action starts. */
    method StartUpdate(i: nat, now: Time) returns (cmd: Command)
      requires Valid() && i < |updates|
      modifies this`updates, this`clock
      ensures Valid() && cmd == old(updates)[i].command
      ensures State() == old(State()).(updates := Without(old(updates), i), clock := Later(old(State()), now))
    {
      cmd := updates[i].command;
      updates := Without(updates, i);
      clock := if now >= clock then now else clock;
    }

    /** The goroutine of a saved action. */
    method RunUpdateAt(i: nat, now: Time, seed: nat)
      requires Valid() && !crashed
      modifies this, leases.blocker, leases.blocker.store
      ensures Valid() && State() == Step(old(State()), RunUpdate(i, now, seed))
    {
      if i < |updates| {
        var cmd := StartUpdate(i, now);
        TriggerActionEvent(cmd, clock, seed);
      }
    }

    /** The goroutine that deletes a saved action. */
    method RunCleanupAt(i: nat)
      requires Valid() && !crashed
      modifies saver
      ensures Valid() && State() == Step(old(State()), RunCleanup(i))
    {
      if i < |saver.cleanups| {
        var target := saver.cleanups[i];
        saver.cleanups := Without(saver.cleanups, i);
        saver.DeleteAction(target.0, target.1);
      }
    }

    /** The goroutine that replays a current command. */
    method RunReplayAt(i: nat, now: Time, seed: nat)
      requires Valid() && !crashed
      modifies this`clock, this`addLeaseMessage, leases.blocker
      ensures Valid() && State() == Step(old(State()), RunReplay(i, now, seed))
    {
      if i < |leases.blocker.replays| {
        var k := leases.blocker.replays[i];
        leases.blocker.replays := Without(leases.blocker.replays, i);
        var t := Tick(now);
        AddOrOverwrite(k, t, seed);
      }
    }

    /** RegisterReceiveHandler, for an extension. */
    method RegisterReceiveHandler(t: MessageType, id: nat, user: bool, admin: bool, muted: bool) returns (ok: bool)
      requires Valid() && !crashed
      modifies this`registered
      ensures Valid() && ok == (t !in old(registered))
      ensures State() == Step(old(State()), Register(t, id, user, admin, muted))
    {
      if t in registered {
        return false;
      }
      registered := registered[t := Handler(Extension(id), user, admin, muted)];
      ok := true;
    }

    /** The purge of stale saved actions. */
    method PurgeActions(now: Time)
      requires Valid() && !crashed
      modifies this`clock, saver
      ensures Valid() && State() == Step(old(State()), Op.Purge(now))
    {
      var t := Tick(now);
      saver.Purge(t);
    }

    /** Leaving a channel, as far as the engine goes. */
    method LeaveChannel(c: ChannelID)
      requires Valid() && !crashed
      modifies this`removeChannelCh, mutedUsers
      ensures Valid() && State() == Step(old(State()), Leave(c))
    {
      mutedUsers.RemoveChannel(c);
      removeChannelCh := removeChannelCh + [c];
    }

    // ----- The lease thread -----

    /** A lease arrives at the lease thread. */
    method PickAddition(i: nat)
      requires Valid() && i < |addLeaseMessage|
      modifies this`crashed, this`addLeaseMessage, leases
      ensures Valid() && State() == TakeAdd(old(State()), i)
    {
      var packet := addLeaseMessage[i];
      addLeaseMessage := Without(addLeaseMessage, i);
      var panicked := leases.AddMessage(packet.lease);
      if panicked {
        crashed := true;
      }
    }

    /** A removal arrives at the lease thread. */
    method PickRemoval(i: nat)
      requires Valid() && i < |removeLeaseMessage|
      modifies this`removeLeaseMessage, leases, leases.blocker, leases.blocker.store
      ensures Valid() && State() == TakeRemove(old(State()), i)
    {
      var k := removeLeaseMessage[i];
      removeLeaseMessage := Without(removeLeaseMessage, i);
      leases.RemoveMessage(k, false);
    }

    /** A channel to remove arrives at the lease thread. */
    method PickLeaving(i: nat)
      requires Valid() && i < |removeChannelCh|
      modifies this`removeChannelCh, leases, leases.blocker, leases.blocker.store
      ensures Valid() && State() == TakeLeave(old(State()), i)
    {
      var c := removeChannelCh[i];
      removeChannelCh := Without(removeChannelCh, i);
      DropLeases(c);
    }

    method DropLeases(c: ChannelID)
      requires Valid()
      modifies leases, leases.blocker, leases.blocker.store
      ensures Valid() && State() == ChannelEngine.RemoveChannel(old(State()), c)
    {
      ChannelKeysOfList(leases.State(), leases.load, c);
      leases.RemoveChannel(c);
    }

    /** The select of updateLeasesThread. */
    method PickWork(choice: Choice)
      requires Valid()
      modifies this`crashed, this`addLeaseMessage, this`removeLeaseMessage, this`removeChannelCh
      modifies leases, leases.blocker, leases.blocker.store
      ensures Valid() && State() == Select(old(State()), choice)
    {
      match choice {
        case PickAdd(i) => if i < |addLeaseMessage| { PickAddition(i); }
        case PickRemove(i) => if i < |removeLeaseMessage| { PickRemoval(i); }
        case PickLeave(i) => if i < |removeChannelCh| { PickLeaving(i); }
        case PickTimer =>
      }
    }

    /** The rest of an iteration of updateLeasesThread. */
    method RunPass(readings: seq<Time>, later: Time, seeds: map<Key, nat>)
      returns (n: nat, sent: seq<(ChannelID, Blob)>, alarm: Option<Time>)
      requires Valid() && |readings| == |leases.leases| + 1 && readings[|leases.leases|] <= later
      requires forall i, j :: 0 <= i < j < |readings| ==> readings[i] <= readings[j]
      modifies this`undos, this`clock, leases, leases.blocker, leases.blocker.store
      ensures Valid() && n <= |old(leases.leases)|
      ensures State() == PassOver(old(State()), Reading(readings[n], later, seeds))
      ensures var ls, kv, r := old(leases.List()), old(leases.blocker.store.kv), Reading(readings[n], later, seeds);
              && sent == Sends(Replayed(ls, kv, r), kv)
              && alarm == (if Kept(ls, r.now) == [] then None else Some(Kept(ls, r.now)[0].trigger))
    {
      var emitted;
      n, emitted, sent, alarm := leases.Pass(readings, later, seeds);
      undos := undos + emitted;
      clock := later;
    }

    /** An iteration of updateLeasesThread. The clock is read once more for every lease that
        the scan looks at; reading n is the one at which it stops. */
    method Iterate(choice: Choice, readings: seq<Time>, later: Time, seeds: map<Key, nat>)
      returns (n: nat, sent: seq<(ChannelID, Blob)>, alarm: Option<Time>)
      requires Valid() && !crashed && |readings| == |leases.leases| + 2
      requires forall i :: 0 <= i < |readings| ==> clock <= readings[i] <= later
      requires forall i, j :: 0 <= i < j < |readings| ==> readings[i] <= readings[j]
      modifies this`crashed, this`addLeaseMessage, this`removeLeaseMessage, this`removeChannelCh
      modifies this`undos, this`clock, leases, leases.blocker, leases.blocker.store
      ensures Valid() && n < |readings|
      ensures State() == Step(old(State()), Loop(choice, Reading(readings[n], later, seeds)))
      ensures var e1, r := Select(old(State()), choice), Reading(readings[n], later, seeds);
              if e1.crashed then sent == [] && alarm == None
              else sent == Sends(Replayed(e1.leases, e1.ledger.bodies, r), e1.ledger.bodies)
                   && alarm == Alarm(e1.leases, r.now)
    {
      n, sent, alarm := 0, [], None;
      ghost var e := State();
      SelectGrowsByOne(e, choice);
      PickWork(choice);
      if !crashed {
        n, sent, alarm := RunPass(readings[..|leases.leases| + 1], later, seeds);
      }
      IterationIsLoop(e, choice, Reading(readings[n], later, seeds));
    }

    // ----- Restart -----

    /** The components of a new process over the same storage. */
    method ReopenComponents(t: Time, seeds: map<Key, nat>)
      requires Valid()
      modifies leases, leases.blocker, mutedUsers, saver
      ensures Valid() && LoadedFrom(leases.List(), leases.image, t, seeds)
      ensures leases.image == old(leases.image) && leases.load == Loading(t, seeds)
      ensures leases.blocker.State() == old(leases.blocker.State()) && leases.blocker.replays == []
      ensures mutedUsers.State() == old(mutedUsers.State())
      ensures saver.State() == Persisted(map[], old(saver.image)) && saver.cleanups == []
    {
      leases.blocker.Reopen();
      leases.Reopen(t, seeds);
      mutedUsers.Reopen();
      saver.Reopen();
    }

    /** The dispatcher of a new process over the same storage. */
    method ReopenDispatcher(t: Time, seeds: map<Key, nat>)
      requires Valid()
      modifies this, leases, leases.blocker, mutedUsers, saver
      ensures Valid() && LoadedFrom(leases.List(), old(leases.image), t, seeds)
      ensures State() == Reopened(old(State()), t, seeds, leases.List())
    {
      ReopenComponents(t, seeds);
      crashed, clock, registered := false, t, DEFAULTS;
      addLeaseMessage, removeLeaseMessage, removeChannelCh := [], [], [];
      jobs, undos, updates := [], [], [];
    }

    /** A new process over the same storage. */
    method Reopen(now: Time, seeds: map<Key, nat>) returns (ghost loaded: seq<Lease>)
      requires Valid()
      modifies this, leases, leases.blocker, mutedUsers, saver
      ensures Valid() && State() == Step(old(State()), Restart(now, seeds, loaded))
      ensures loaded == leases.List()
    {
      ghost var e := State();
      ReopenDispatcher(if now >= clock then now else clock, seeds);
      loaded := leases.List();
      RestartIsReopening(e, now, seeds, loaded);
    }
  }

  /** What a restart leaves of a synced engine. */
  function Reopened(e: Engine, t: Time, seeds: map<Key, nat>, loaded: seq<Lease>): Engine {
    Init().(clock := t, model := e.model, muted := e.muted, saved := e.saved.(table := map[]),
            ledger := e.ledger, leases := loaded, disk := e.disk, load := Loading(t, seeds))
  }

  /** With clock readings that do not run backwards, an iteration is a step. */
  lemma IterationIsLoop(e: Engine, choice: Choice, r: Reading)
    requires !e.crashed && e.clock <= r.now <= r.later
    ensures var e1 := Select(e, choice);
            Step(e, Loop(choice, r)) == if e1.crashed then e1 else PassOver(e1, r)
  {
    SelectKeepsClock(e, choice);
  }

  lemma SelectKeepsClock(e: Engine, choice: Choice)
    ensures Select(e, choice).clock == e.clock
  {
  }

  lemma RestartIsReopening(e: Engine, now: Time, seeds: map<Key, nat>, loaded: seq<Lease>)
    requires Synced(e.muted) && Synced(e.ledger.commands) && LoadedFrom(loaded, e.disk, Later(e, now), seeds)
    ensures Step(e, Restart(now, seeds, loaded)) == Reopened(e, Later(e, now), seeds, loaded)
  {
    LoadRebuilds(e.muted);
    LoadRebuilds(e.ledger.commands);
  }

  /** Picking work adds at most one lease. */
  lemma SelectGrowsByOne(e: Engine, choice: Choice)
    ensures |Select(e, choice).leases| <= |e.leases| + 1
  {
    match choice {
      case PickLeave(i) => if i < |e.leaves| { OutsideShrinks(e.leases, e.leaves[i]); }
      case _ =>
    }
  }

  lemma {:induction false} OutsideShrinks(s: seq<Lease>, c: ChannelID)
    ensures |Outside(s, c)| <= |s|
  {
    if s != [] {
      OutsideShrinks(s[1..], c);
    }
  }
}
