/**
 * The channel command engine as a state machine: the event dispatcher and its handlers
 * (channels/eventModel.go) over the lease list, the replay blocker, the command store, the
 * action saver and the muted users, together with the goroutines and Go channels between
 * them. Every call into another component is a step of its own: a message is handled as a
 * job that advances from one such call to the next, in any interleaving with other jobs.
 * Each iteration of the lease thread is one step.
 */
module ChannelEngine {
  import opened Wrappers
  import opened ChannelTypes
  import opened ChannelStorage
  import opened LeaseTrigger
  import opened LeaseOrder
  import opened LeasePass
  import opened LeaseIndex
  import opened LeaseDisk
  import opened ReplayBlocker
  import opened ActionSaver
  import opened MutedUsers

  // ----- Handlers -----

  datatype Listener =
    | TextListener | ReactionListener | InvitationListener
    | DeleteListener | PinnedListener | MuteListener | ReplayListener
    | Extension(id: nat)

  /** A listener and the spaces it receives from. */
  datatype Handler = Handler(listener: Listener, user: bool, admin: bool, muted: bool)

  const DEFAULTS: map<MessageType, Handler> := map[
    TEXT := Handler(TextListener, true, false, false),
    ADMIN_TEXT := Handler(TextListener, false, true, false),
    REACTION := Handler(ReactionListener, true, false, false),
    INVITATION := Handler(InvitationListener, true, false, false),
    DELETE := Handler(DeleteListener, true, true, false),
    PINNED := Handler(PinnedListener, false, true, false),
    MUTE := Handler(MuteListener, false, true, false),
    ADMIN_REPLAY := Handler(ReplayListener, true, true, false)
  ]

  /** A muted sender is refused unless the handler takes muted senders; otherwise one
      matching space is enough. */
  predicate CheckSpace(h: Handler, user: bool, admin: bool, muted: bool) {
    if !h.muted && muted then false
    else (h.user && user) || (h.admin && admin)
  }

  function GetHandler(hs: map<MessageType, Handler>, t: MessageType, user: bool, admin: bool, muted: bool)
    : Option<Handler>
  {
    if t in hs && CheckSpace(hs[t], user, admin, muted) then Some(hs[t]) else None
  }

  /** RegisterReceiveHandler: a type that has a handler keeps it. */
  function RegisterHandler(hs: map<MessageType, Handler>, t: MessageType, h: Handler): map<MessageType, Handler> {
    if t in hs then hs else hs[t := h]
  }

  // ----- State -----

  const ADMIN_KEY: PubKey := 0

  /** The event model's record of a message. */
  datatype Message = Message(sender: PubKey, pinned: bool)

  /** A lease on its way to the lease thread, with its command. */
  datatype Packet = Packet(lease: Lease, command: Command)

  /** The next call that the handling of a message makes. */
  datatype Task =
    | Check(sender: PubKey, command: Command, admin: bool, muted: bool)  // CheckSavedActions
    | Call(sender: PubKey, command: Command, admin: bool, muted: bool)   // the listener
    | Erase(command: Command)                                            // DeleteMessage, permission given
    | KeepErase(command: Command)                                        // AddAction of a deletion
    | Pin(command: Command)                                              // UpdateFromMessageID, lease accepted
    | KeepPin(command: Command)                                          // AddAction of a pin
    | Silence(command: Command)                                          // muteUser or unmuteUser, lease accepted

  /** A message being handled, with the saved action to apply when its listener is done. */
  datatype Job = Job(task: Task, update: Option<SavedAction>)

  datatype Engine = Engine(
    crashed: bool,
    clock: Time,
    handlers: map<MessageType, Handler>,
    model: map<MessageID, Message>,
    muted: Persisted<PubKey, ()>,
    saved: SavedStore,
    ledger: Ledger,
    leases: seq<Lease>,
    disk: Disk,                                 // the stored leases
    load: Loading,                                 // when the leases were last loaded
    adds: seq<Packet>,                          // bound for the lease thread
    removes: seq<Key>,                          // bound for the lease thread
    leaves: seq<ChannelID>,                     // bound for the lease thread
    jobs: seq<Job>,                             // messages being handled
    replays: seq<Key>,                          // goroutines started by the blocker
    undos: seq<Command>,                        // goroutines started by the lease thread
    updates: seq<SavedAction>,                  // goroutines started after a message arrives
    cleanups: seq<(ChannelID, MessageID)>)      // goroutines started by the action saver

  function Init(): Engine {
    Engine(false, 0, DEFAULTS, map[], Persisted(map[], Image({}, map[])), Persisted(map[], Image({}, map[])),
           Ledger(Persisted(map[], Image({}, map[])), map[]), [], Image({}, map[]), Loading(0, map[]),
           [], [], [], [], [], [], [], [])
  }

  function Later(e: Engine, now: Time): Time {
    if now >= e.clock then now else e.clock
  }

  function Without<T>(s: seq<T>, i: nat): seq<T>
    requires i < |s|
  {
    s[..i] + s[i + 1..]
  }

  // ----- The lease system's entry points -----

  /** AddMessage. The flag says whether the command was accepted. */
  function AddLease(e: Engine, cmd: Command, sanitized: Content, now: Time, seed: nat): (bool, Engine) {
    match CalculateLeaseTrigger(now, cmd.originating, cmd.lease, seed)
    case None => (false, e)
    case Some(t) =>
      var k := SanitizedKey(cmd, sanitized);
      if Blocked(e.ledger.commands.table, cmd, sanitized) then
        (false, e.(replays := e.replays + [k]))
      else
        var l := Lease(k, cmd.originating, cmd.lease, cmd.originating + cmd.lease, t);
        (true, e.(ledger := Accept(e.ledger, cmd, sanitized),
                  adds := e.adds + [Packet(l, cmd.(content := sanitized))]))
  }

  /** RemoveMessage. */
  function RemoveLease(e: Engine, cmd: Command, sanitized: Content, now: Time): (bool, Engine) {
    if Sub(now, cmd.originating) >= cmd.lease then
      (false, e)
    else
      var k := SanitizedKey(cmd, sanitized);
      if Blocked(e.ledger.commands.table, cmd, sanitized) then
        (false, e.(replays := e.replays + [k]))
      else
        (true, e.(ledger := Accept(e.ledger, cmd, sanitized), removes := e.removes + [k]))
  }

  /** AddOrOverwrite: schedules a stored command to be replayed in 3 to 10 minutes. */
  function QuickReplay(e: Engine, k: Key, now: Time, seed: nat): Engine {
    if k !in e.ledger.bodies then e
    else
      var cm := e.ledger.bodies[k];
      var t := now + RandDurationInRange(QUICK_REPLAY_FLOOR, QUICK_REPLAY_CEILING, seed);
      var l := Lease(k, cm.originating, cm.lease, cm.originating + cm.lease, t);
      e.(adds := e.adds + [Packet(l, cm)])
  }

  // ----- Listeners -----

  /** An engine and the next call of the job that ran, if it has one. */
  type Progress = (Engine, Option<Task>)

  /** Text, reactions and invitations go to the event model. */
  function ReceivePlain(e: Engine, sender: PubKey, cmd: Command): Engine {
    if cmd.content.Plain? && cmd.messageID !in e.model
    then e.(model := e.model[cmd.messageID := Message(sender, false)])
    else e
  }

  /** DeleteMessage: a message that is not there leaves the deletion to be saved. */
  function EraseMessage(e: Engine, cmd: Command): Progress
    requires cmd.content.DeleteMsg?
  {
    var m := cmd.content.target;
    if m in e.model then (e.(model := e.model - {m}), None) else (e, Some(KeepErase(cmd)))
  }

  /** receiveDelete up to its first call: a user must have sent the message to delete. */
  function ReceiveDelete(e: Engine, sender: PubKey, cmd: Command): Progress {
    if !cmd.content.DeleteMsg? then (e, None)
    else
      var m := cmd.content.target;
      if cmd.fromAdmin then EraseMessage(e, cmd)
      else if m in e.model && e.model[m].sender == sender then (e, Some(Erase(cmd)))
      else (e, None)
  }

  /** What is saved of a deletion. */
  function SavedErase(cmd: Command, now: Time): SavedAction
    requires cmd.content.DeleteMsg?
  {
    SavedAction(now, cmd.content.target,
                cmd.(content := NoContent, encrypted := 0, originating := ZERO_TIME, originatingRound := 0, round := 0))
  }

  /** The lease system's verdict on a pin or mute. */
  function Submit(e: Engine, cmd: Command, now: Time, seed: nat): (bool, Engine)
    requires cmd.content.PinnedMsg? || cmd.content.MuteMsg?
  {
    if cmd.content.undo then RemoveLease(e, cmd, Sanitize(cmd.content), now)
    else AddLease(e, cmd, Sanitize(cmd.content), now, seed)
  }

  /** receivePinned up to the verdict. */
  function ReceivePinned(e: Engine, cmd: Command, now: Time, seed: nat): Progress {
    if !cmd.content.PinnedMsg? then (e, None)
    else
      var (ok, e1) := Submit(e, cmd, now, seed);
      (e1, if ok then Some(Pin(cmd)) else None)
  }

  /** receiveMute up to the verdict. */
  function ReceiveMute(e: Engine, cmd: Command, now: Time, seed: nat): Progress {
    if !cmd.content.MuteMsg? || cmd.content.user.None? then (e, None)
    else
      var (ok, e1) := Submit(e, cmd, now, seed);
      (e1, if ok then Some(Silence(cmd)) else None)
  }

  /** A listener up to its first call. A replayed admin message is dispatched again as a
      message of its own; an extension has no effect on the engine. */
  function Listen(e: Engine, l: Listener, sender: PubKey, cmd: Command, now: Time, seed: nat): Progress {
    match l
    case TextListener => (ReceivePlain(e, sender, cmd), None)
    case ReactionListener => (ReceivePlain(e, sender, cmd), None)
    case InvitationListener => (ReceivePlain(e, sender, cmd), None)
    case DeleteListener => ReceiveDelete(e, sender, cmd)
    case PinnedListener => ReceivePinned(e, cmd, now, seed)
    case MuteListener => ReceiveMute(e, cmd, now, seed)
    case ReplayListener => (e, None)
    case Extension(_) => (e, None)
  }

  /** UpdateFromMessageID: a message that is not there leaves the pin to be saved. */
  function PinMessage(e: Engine, cmd: Command): Progress
    requires cmd.content.PinnedMsg?
  {
    var m := cmd.content.target;
    if m in e.model then (e.(model := e.model[m := e.model[m].(pinned := !cmd.content.undo)]), None)
    else (e, Some(KeepPin(cmd)))
  }

  /** muteUser or unmuteUser. */
  function SilenceUser(e: Engine, cmd: Command): Engine
    requires cmd.content.MuteMsg? && cmd.content.user.Some?
  {
    var u := cmd.content.user.value;
    if cmd.content.undo then e.(muted := RemoveSaved(e.muted, cmd.channel, u))
    else e.(muted := PutSaved(e.muted, cmd.channel, u, ()))
  }

  function SaveAction(e: Engine, a: SavedAction): Engine {
    e.(saved := AddAndStore(e.saved, a))
  }

  /** The calls of a listener after its first. */
  function Continue(e: Engine, t: Task, now: Time): Progress {
    match t
    case Erase(cmd) => if cmd.content.DeleteMsg? then EraseMessage(e, cmd) else (e, None)
    case KeepErase(cmd) => (if cmd.content.DeleteMsg? then SaveAction(e, SavedErase(cmd, now)) else e, None)
    case Pin(cmd) => if cmd.content.PinnedMsg? then PinMessage(e, cmd) else (e, None)
    case KeepPin(cmd) =>
      (if cmd.content.PinnedMsg? then SaveAction(e, SavedAction(now, cmd.content.target, cmd)) else e, None)
    case Silence(cmd) =>
      (if cmd.content.MuteMsg? && cmd.content.user.Some? then SilenceUser(e, cmd) else e, None)
    case _ => (e, None)
  }

  // ----- Triggers -----

  /** triggerEvent and triggerAdminEvent up to the check whether the sender is muted. */
  function Begin(e: Engine, sender: PubKey, cmd: Command, admin: bool): Engine {
    var muted := !admin && IsMuted(e.muted.table, cmd.channel, sender);
    e.(jobs := e.jobs + [Job(Check(sender, cmd.(fromAdmin := admin), admin, muted), None)])
  }

  /** CheckSavedActions: a message with a saved deletion is dropped. */
  function CheckSaved(e: Engine, sender: PubKey, cmd: Command, admin: bool, muted: bool): (Engine, seq<Job>) {
    var c, m := cmd.channel, cmd.messageID;
    if !Has(e.saved.table, c, m) then (e, [Job(Call(sender, cmd, admin, muted), None)])
    else
      var e1, a := e.(cleanups := e.cleanups + [(c, m)]), e.saved.table[c][m];
      if IsDelete(a) then (e1, []) else (e1, [Job(Call(sender, cmd, admin, muted), Some(a))])
  }

  /** The handler for a message that is about to reach its listener. */
  function HandlerFor(e: Engine, t: Task): Option<Handler>
    requires t.Call?
  {
    GetHandler(e.handlers, t.command.messageType, !t.admin, t.admin, t.muted)
  }

  /** A listener that is done starts the saved action. */
  function After(p: Progress, update: Option<SavedAction>): (Engine, seq<Job>) {
    match p.1
    case Some(t) => (p.0, [Job(t, update)])
    case None => (if update.Some? then p.0.(updates := p.0.updates + [update.value]) else p.0, [])
  }

  /** One call of a job, and what is left of the job. */
  function RunJob(e: Engine, j: Job, now: Time, seed: nat): (Engine, seq<Job>) {
    match j.task
    case Check(sender, cmd, admin, muted) => CheckSaved(e, sender, cmd, admin, muted)
    case Call(sender, cmd, admin, muted) =>
      (match HandlerFor(e, j.task)
       case None => (e, [])
       case Some(h) => After(Listen(e, h.listener, sender, cmd, now, seed), j.update))
    case _ => After(Continue(e, j.task, now), j.update)
  }

  /** triggerActionEvent up to the listener's first call. */
  function TriggerAction(e: Engine, cmd: Command, now: Time, seed: nat): Engine {
    match GetHandler(e.handlers, cmd.messageType, true, cmd.fromAdmin, false)
    case None => e
    case Some(h) =>
      var (e1, next) := Listen(e, h.listener, ADMIN_KEY, cmd, now, seed);
      if next.Some? then e1.(jobs := e1.jobs + [Job(next.value, None)]) else e1
  }

  // ----- The lease thread -----

  /** removeChannel does nothing for a channel without a lease. */
  function RemoveChannel(e: Engine, c: ChannelID): Engine {
    var ks := ChannelLeaseKeys(e.leases, c);
    if ks == {} then e
    else e.(leases := Outside(e.leases, c), disk := StoreDrop(e.disk, e.leases, c),
            ledger := ForgetChannel(e.ledger, c, ks))
  }

  /** What the select of the lease thread picked. A sender may be delayed between the
      verdict and its send, so any of those waiting can come first. */
  datatype Choice = PickAdd(i: nat) | PickRemove(i: nat) | PickLeave(i: nat) | PickTimer

  function TakeAdd(e: Engine, i: nat): Engine
    requires i < |e.adds|
  {
    var e1, l := e.(adds := Without(e.adds, i)), e.adds[i].lease;
    if l.key in Keys(e.leases) then e1.(crashed := true)
    else
      var s := Insert(e.leases, l);
      e1.(leases := s, disk := Store(e.disk, e.leases, s, l.key.channel))
  }

  function TakeRemove(e: Engine, i: nat): Engine
    requires i < |e.removes|
  {
    var k := e.removes[i];
    var s := RemoveKey(e.leases, k);
    e.(removes := Without(e.removes, i), leases := s, disk := StoreKey(e.disk, e.leases, s, k))
  }

  function TakeLeave(e: Engine, i: nat): Engine
    requires i < |e.leaves|
  {
    RemoveChannel(e.(leaves := Without(e.leaves, i)), e.leaves[i])
  }

  function Select(e: Engine, choice: Choice): Engine {
    match choice
    case PickAdd(i) => if i < |e.adds| then TakeAdd(e, i) else e
    case PickRemove(i) => if i < |e.removes| then TakeRemove(e, i) else e
    case PickLeave(i) => if i < |e.leaves| then TakeLeave(e, i) else e
    case PickTimer => e
  }

  function PassOver(e: Engine, r: Reading): Engine {
    e.(leases := AfterPass(e.leases, e.ledger.bodies, r),
       disk := StorePass(e.disk, e.leases, e.ledger.bodies, r),
       ledger := ForgetEach(e.ledger, Forgotten(e.leases, e.ledger.bodies, r)),
       undos := e.undos + Undos(e.leases, e.ledger.bodies, r),
       clock := r.later)
  }

  /** Clock readings never run backwards. */
  function Monotone(e: Engine, r: Reading): Reading {
    var now := Later(e, r.now);
    r.(now := now, later := if r.later >= now then r.later else now)
  }

  // ----- Steps and runs -----

  datatype Op =
    | BeginUser(sender: PubKey, command: Command)
    | BeginAdmin(command: Command)
    | Advance(i: nat, now: Time, seed: nat)
    | RunUndo(i: nat, now: Time, seed: nat)
    | RunUpdate(i: nat, now: Time, seed: nat)
    | RunCleanup(i: nat)
    | RunReplay(i: nat, now: Time, seed: nat)
    | Loop(choice: Choice, reading: Reading)
    | Register(messageType: MessageType, id: nat, user: bool, admin: bool, muted: bool)
    | Purge(now: Time)
    | Leave(channel: ChannelID)
    | Restart(now: Time, seeds: map<Key, nat>, loaded: seq<Lease>)

  /** A new process over the same storage. Saved actions are not loaded, queues and
      goroutines are lost, and extensions have to register again. */
  ghost function Restarted(e: Engine, now: Time, seeds: map<Key, nat>, loaded: seq<Lease>): Engine {
    if !LoadedFrom(loaded, e.disk, Later(e, now), seeds) || Load(e.muted.image).None?
       || Load(e.ledger.commands.image).None? then e
    else Init().(
      clock := Later(e, now),
      model := e.model,
      muted := e.muted.(table := Load(e.muted.image).value),
      saved := e.saved.(table := map[]),
      ledger := e.ledger.(commands := e.ledger.commands.(table := Load(e.ledger.commands.image).value)),
      leases := loaded,
      disk := e.disk,
      load := Loading(Later(e, now), seeds))
  }

  function StepAdvance(e: Engine, i: nat, now: Time, seed: nat): Engine {
    if i >= |e.jobs| then e
    else
      var (e1, rest) := RunJob(e.(clock := Later(e, now)), e.jobs[i], Later(e, now), seed);
      e1.(jobs := Without(e.jobs, i) + rest)
  }

  function StepUndo(e: Engine, i: nat, now: Time, seed: nat): Engine {
    if i >= |e.undos| then e
    else TriggerAction(e.(undos := Without(e.undos, i), clock := Later(e, now)), e.undos[i], Later(e, now), seed)
  }

  function StepUpdate(e: Engine, i: nat, now: Time, seed: nat): Engine {
    if i >= |e.updates| then e
    else TriggerAction(e.(updates := Without(e.updates, i), clock := Later(e, now)), e.updates[i].command,
                       Later(e, now), seed)
  }

  function StepCleanup(e: Engine, i: nat): Engine {
    if i >= |e.cleanups| then e
    else e.(cleanups := Without(e.cleanups, i), saved := RemoveSaved(e.saved, e.cleanups[i].0, e.cleanups[i].1))
  }

  function StepReplay(e: Engine, i: nat, now: Time, seed: nat): Engine {
    if i >= |e.replays| then e
    else QuickReplay(e.(replays := Without(e.replays, i), clock := Later(e, now)), e.replays[i], Later(e, now), seed)
  }

  function StepLoop(e: Engine, choice: Choice, reading: Reading): Engine {
    var e1 := Select(e, choice);
    if e1.crashed then e1 else PassOver(e1, Monotone(e1, reading))
  }

  function StepRegister(e: Engine, t: MessageType, h: Handler): Engine {
    e.(handlers := RegisterHandler(e.handlers, t, h))
  }

  function StepPurge(e: Engine, now: Time): Engine {
    e.(saved := PurgeAndStore(e.saved, Later(e, now)), clock := Later(e, now))
  }

  function StepLeave(e: Engine, c: ChannelID): Engine {
    e.(muted := DropChannel(e.muted, c), leaves := e.leaves + [c])
  }

  ghost function StepLive(e: Engine, op: Op): Engine {
    match op
    case BeginUser(sender, cmd) => Begin(e, sender, cmd, false)
    case BeginAdmin(cmd) => Begin(e, ADMIN_KEY, cmd, true)
    case Advance(i, now, seed) => StepAdvance(e, i, now, seed)
    case RunUndo(i, now, seed) => StepUndo(e, i, now, seed)
    case RunUpdate(i, now, seed) => StepUpdate(e, i, now, seed)
    case RunCleanup(i) => StepCleanup(e, i)
    case RunReplay(i, now, seed) => StepReplay(e, i, now, seed)
    case Loop(choice, reading) => StepLoop(e, choice, reading)
    case Register(t, id, user, admin, muted) => StepRegister(e, t, Handler(Extension(id), user, admin, muted))
    case Purge(now) => StepPurge(e, now)
    case Leave(c) => StepLeave(e, c)
    case Restart(now, seeds, loaded) => Restarted(e, now, seeds, loaded)
  }

  /** After a crash only a restart does anything. */
  ghost function Step(e: Engine, op: Op): Engine {
    if e.crashed && !op.Restart? then e else StepLive(e, op)
  }

  ghost function Run(e: Engine, ops: seq<Op>): Engine
    decreases |ops|
  {
    if ops == [] then e else Run(Step(e, ops[0]), ops[1..])
  }
}
