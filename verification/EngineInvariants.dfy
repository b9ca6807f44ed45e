/**
 * What every step of the engine keeps.
 */
module EngineInvariants {
  import opened Wrappers
  import opened ChannelTypes
  import opened ChannelStorage
  import opened LeaseTrigger
  import opened LeaseOrder
  import opened LeasePass
  import opened LeaseIndex
  import opened LeaseDisk
  import opened ReplayBlocker
  import opened ActionSaver
  import opened MutedUsers
  import opened ChannelEngine

  /** Disk mirrors memory, and the command store agrees with the replay blocker. */
  ghost predicate StorageInv(e: Engine) {
    Synced(e.ledger.commands) && Agrees(e.ledger) && Synced(e.muted) && Backed(e.saved)
  }

  ghost predicate LeaseInv(e: Engine) {
    && Sound(e.leases, e.disk, e.load) && e.load.at <= e.clock
    && (forall p :: p in e.adds ==> LeaseOk(p.lease))
  }

  /** An undo handed out by the lease thread is of a lease that is over. */
  predicate UndoOk(u: Command, clock: Time) {
    u.originating + u.lease <= clock && Leasable(u.messageType)
  }

  ghost predicate UndoInv(e: Engine) {
    forall u :: u in e.undos ==> UndoOk(u, e.clock)
  }

  /** Default handlers are never replaced, and no other type reaches a default listener. */
  ghost predicate HandlerInv(e: Engine) {
    && (forall t :: t in DEFAULTS ==> t in e.handlers && e.handlers[t] == DEFAULTS[t])
    && (forall t :: t in e.handlers && !e.handlers[t].listener.Extension? ==> t in DEFAULTS)
  }

  /** A saved action is a deletion, or a pin from the admin. */
  predicate SavedOk(a: SavedAction) {
    IsDelete(a) || UpdateOk(a)
  }

  predicate UpdateOk(a: SavedAction) {
    a.command.fromAdmin && a.command.messageType == PINNED
  }

  predicate TaskOk(t: Task) {
    match t
    case Check(_, cmd, admin, muted) => cmd.fromAdmin == admin && (admin ==> !muted)
    case Call(_, cmd, admin, muted) => cmd.fromAdmin == admin && (admin ==> !muted)
    case Erase(cmd) => cmd.messageType == DELETE && cmd.content.DeleteMsg? && !cmd.fromAdmin
    case KeepErase(cmd) => cmd.messageType == DELETE && cmd.content.DeleteMsg?
    case Pin(cmd) => cmd.messageType == PINNED && cmd.content.PinnedMsg? && cmd.fromAdmin
    case KeepPin(cmd) => cmd.messageType == PINNED && cmd.content.PinnedMsg? && cmd.fromAdmin
    case Silence(cmd) => cmd.messageType == MUTE && cmd.content.MuteMsg? && cmd.content.user.Some? && cmd.fromAdmin
  }

  predicate JobOk(j: Job) {
    TaskOk(j.task) && (j.update.Some? ==> UpdateOk(j.update.value))
  }

  ghost predicate SavedInv(t: SavedTable) {
    forall c, m :: Has(t, c, m) ==> SavedOk(t[c][m])
  }

  /** Everything that can be replayed, undone or applied later is of a type that can, and
      came from the admin unless it is a deletion. */
  ghost predicate AdminInv(e: Engine) {
    && (forall k :: k in e.ledger.bodies ==> e.ledger.bodies[k].fromAdmin && Leasable(k.action))
    && (forall p :: p in e.adds ==> p.command.fromAdmin)
    && SavedInv(e.saved.table)
    && (forall a :: a in e.updates ==> UpdateOk(a))
    && (forall u :: u in e.undos ==> u.fromAdmin)
    && (forall j :: j in e.jobs ==> JobOk(j))
  }

  ghost predicate Inv(e: Engine) {
    StorageInv(e) && LeaseInv(e) && UndoInv(e) && HandlerInv(e) && AdminInv(e)
  }

  // ----- Submitting a command -----

  /** The parts of the engine that neither a listener nor its later calls touch. */
  ghost predicate SameElsewhere(e: Engine, e': Engine) {
    && e'.crashed == e.crashed && e'.clock == e.clock && e'.handlers == e.handlers
    && e'.leases == e.leases && e'.disk == e.disk && e'.load == e.load && e'.leaves == e.leaves
    && e'.jobs == e.jobs && e'.undos == e.undos && e'.updates == e.updates && e'.cleanups == e.cleanups
  }

  predicate PacketFrom(p: Packet, cmd: Command) {
    && p.lease.key.action == cmd.messageType
    && p.lease.end == p.lease.originating + p.lease.lease
    && p.command.fromAdmin == cmd.fromAdmin
  }

  /** What submitting a command does to the rest of the engine. */
  ghost predicate Submitted(e: Engine, cmd: Command, ok: bool, e1: Engine)
    requires cmd.content.PinnedMsg? || cmd.content.MuteMsg?
  {
    && SameElsewhere(e, e1)
    && e1.model == e.model && e1.saved == e.saved && e1.muted == e.muted
    && e1.ledger == (if ok then Accept(e.ledger, cmd, Sanitize(cmd.content)) else e.ledger)
    && (ok ==> !Blocked(e.ledger.commands.table, cmd, Sanitize(cmd.content)))
    && (forall p :: p in e1.adds ==> p in e.adds || PacketFrom(p, cmd))
  }

  lemma AddLeaseFacts(e: Engine, cmd: Command, now: Time, seed: nat)
    requires cmd.content.PinnedMsg? || cmd.content.MuteMsg?
    ensures var (ok, e1) := AddLease(e, cmd, Sanitize(cmd.content), now, seed); Submitted(e, cmd, ok, e1)
  {
  }

  lemma RemoveLeaseFacts(e: Engine, cmd: Command, now: Time)
    requires cmd.content.PinnedMsg? || cmd.content.MuteMsg?
    ensures var (ok, e1) := RemoveLease(e, cmd, Sanitize(cmd.content), now); Submitted(e, cmd, ok, e1)
  {
  }

  /** An accepted command is entered in the ledger; a refused one changes nothing but the
      replays that are due. */
  lemma SubmitFacts(e: Engine, cmd: Command, now: Time, seed: nat)
    requires cmd.content.PinnedMsg? || cmd.content.MuteMsg?
    ensures var (ok, e1) := Submit(e, cmd, now, seed); Submitted(e, cmd, ok, e1)
  {
    if cmd.content.undo {
      RemoveLeaseFacts(e, cmd, now);
    } else {
      AddLeaseFacts(e, cmd, now, seed);
    }
  }

  lemma WithModel(e: Engine, m: map<MessageID, Message>)
    requires Inv(e)
    ensures Inv(e.(model := m))
  {
  }

  lemma WithSaved(e: Engine, p: SavedStore)
    requires Inv(e) && Backed(p) && SavedInv(p.table)
    ensures Inv(e.(saved := p))
  {
  }

  lemma WithMuted(e: Engine, p: Persisted<PubKey, ()>)
    requires Inv(e) && Synced(p)
    ensures Inv(e.(muted := p))
  {
  }

  lemma WithJobs(e: Engine, js: seq<Job>)
    requires Inv(e) && forall j :: j in js ==> JobOk(j)
    ensures Inv(e.(jobs := js))
  {
  }

  lemma WithUpdates(e: Engine, us: seq<SavedAction>)
    requires Inv(e) && forall a :: a in us ==> UpdateOk(a)
    ensures Inv(e.(updates := us))
  {
  }

  lemma SubmitKeepsInv(e: Engine, cmd: Command, now: Time, seed: nat)
    requires Inv(e) && (cmd.content.PinnedMsg? || cmd.content.MuteMsg?)
    requires cmd.fromAdmin && Leasable(cmd.messageType)
    ensures Inv(Submit(e, cmd, now, seed).1)
  {
    SubmitFacts(e, cmd, now, seed);
    var s := Sanitize(cmd.content);
    AcceptAgrees(e.ledger, cmd, s);
    OperationsStaySynced(e.ledger.commands, cmd.channel, SanitizedKey(cmd, s), NewEntry(cmd, s));
  }

  // ----- Listeners and their later calls -----

  /** What a call leaves: a good engine, the same elsewhere, and a good next call. */
  ghost predicate GoodProgress(e: Engine, p: Progress) {
    Inv(p.0) && SameElsewhere(e, p.0) && (p.1.Some? ==> TaskOk(p.1.value))
  }

  lemma EraseIsGood(e: Engine, cmd: Command)
    requires Inv(e) && cmd.messageType == DELETE && cmd.content.DeleteMsg?
    ensures GoodProgress(e, EraseMessage(e, cmd))
  {
    WithModel(e, e.model - {cmd.content.target});
  }

  lemma PinnedIsGood(e: Engine, cmd: Command, now: Time, seed: nat)
    requires Inv(e) && cmd.messageType == PINNED && cmd.fromAdmin
    ensures GoodProgress(e, ReceivePinned(e, cmd, now, seed))
  {
    if cmd.content.PinnedMsg? {
      SubmitFacts(e, cmd, now, seed);
      SubmitKeepsInv(e, cmd, now, seed);
    }
  }

  lemma MuteIsGood(e: Engine, cmd: Command, now: Time, seed: nat)
    requires Inv(e) && cmd.messageType == MUTE && cmd.fromAdmin
    ensures GoodProgress(e, ReceiveMute(e, cmd, now, seed))
  {
    if cmd.content.MuteMsg? && cmd.content.user.Some? {
      SubmitFacts(e, cmd, now, seed);
      SubmitKeepsInv(e, cmd, now, seed);
    }
  }

  lemma PlainIsGood(e: Engine, sender: PubKey, cmd: Command)
    requires Inv(e)
    ensures GoodProgress(e, (ReceivePlain(e, sender, cmd), None))
  {
    WithModel(e, e.model[cmd.messageID := Message(sender, false)]);
  }

  lemma DeleteIsGood(e: Engine, sender: PubKey, cmd: Command)
    requires Inv(e) && cmd.messageType == DELETE
    ensures GoodProgress(e, ReceiveDelete(e, sender, cmd))
  {
    if cmd.content.DeleteMsg? {
      EraseIsGood(e, cmd);
    }
  }

  /** A listener call keeps the invariant, provided it is one the dispatcher can make. */
  lemma ListenIsGood(e: Engine, l: Listener, sender: PubKey, cmd: Command, now: Time, seed: nat)
    requires Inv(e)
    requires l.DeleteListener? ==> cmd.messageType == DELETE
    requires l.PinnedListener? ==> cmd.messageType == PINNED && cmd.fromAdmin
    requires l.MuteListener? ==> cmd.messageType == MUTE && cmd.fromAdmin
    ensures GoodProgress(e, Listen(e, l, sender, cmd, now, seed))
  {
    match l {
      case DeleteListener => DeleteIsGood(e, sender, cmd);
      case PinnedListener => PinnedIsGood(e, cmd, now, seed);
      case MuteListener => MuteIsGood(e, cmd, now, seed);
      case TextListener => PlainIsGood(e, sender, cmd);
      case ReactionListener => PlainIsGood(e, sender, cmd);
      case InvitationListener => PlainIsGood(e, sender, cmd);
      case ReplayListener =>
      case Extension(_) =>
    }
  }

  lemma SaveIsGood(e: Engine, a: SavedAction)
    requires Inv(e) && SavedOk(a)
    ensures Inv(SaveAction(e, a))
  {
    var c, p := a.command.channel, AddAndStore(e.saved, a);
    OperationsStayBacked(e.saved, c, a.target, a);
    forall d, m | Has(p.table, d, m) ensures SavedOk(p.table[d][m]) {
      PutLookup(e.saved.table, c, a.target, a, d, m);
    }
    WithSaved(e, p);
  }

  lemma SilenceIsGood(e: Engine, cmd: Command)
    requires Inv(e) && cmd.content.MuteMsg? && cmd.content.user.Some?
    ensures Inv(SilenceUser(e, cmd)) && SameElsewhere(e, SilenceUser(e, cmd))
  {
    var u := cmd.content.user.value;
    OperationsStaySynced(e.muted, cmd.channel, u, ());
    WithMuted(e, RemoveSaved(e.muted, cmd.channel, u));
    WithMuted(e, PutSaved(e.muted, cmd.channel, u, ()));
  }

  lemma PinIsGood(e: Engine, cmd: Command)
    requires Inv(e) && TaskOk(Pin(cmd))
    ensures GoodProgress(e, PinMessage(e, cmd))
  {
    var m := cmd.content.target;
    if m in e.model {
      WithModel(e, e.model[m := e.model[m].(pinned := !cmd.content.undo)]);
    }
  }

  lemma ContinueIsGood(e: Engine, t: Task, now: Time)
    requires Inv(e) && TaskOk(t)
    ensures GoodProgress(e, Continue(e, t, now))
  {
    match t {
      case Erase(cmd) => EraseIsGood(e, cmd);
      case KeepErase(cmd) => SaveIsGood(e, SavedErase(cmd, now));
      case Pin(cmd) => PinIsGood(e, cmd);
      case KeepPin(cmd) => SaveIsGood(e, SavedAction(now, cmd.content.target, cmd));
      case Silence(cmd) => SilenceIsGood(e, cmd);
      case _ =>
    }
  }

  /** The dispatcher makes only calls that a listener can take. */
  lemma DispatchIsSound(e: Engine, t: MessageType, user: bool, admin: bool, muted: bool)
    requires HandlerInv(e) && GetHandler(e.handlers, t, user, admin, muted).Some?
    ensures var l := GetHandler(e.handlers, t, user, admin, muted).value.listener;
            && (l.DeleteListener? ==> t == DELETE)
            && (l.PinnedListener? ==> t == PINNED && admin)
            && (l.MuteListener? ==> t == MUTE && admin)
            && (!l.Extension? ==> !muted)
  {
    var h := e.handlers[t];
    if !h.listener.Extension? {
      assert t in DEFAULTS && h == DEFAULTS[t];
    }
  }

  // ----- Jobs -----

  /** What one call of a job leaves. */
  ghost predicate GoodRun(e: Engine, r: (Engine, seq<Job>)) {
    && Inv(r.0) && r.0.clock == e.clock && r.0.jobs == e.jobs && r.0.crashed == e.crashed
    && (forall j :: j in r.1 ==> JobOk(j))
  }

  lemma AfterIsGood(e: Engine, p: Progress, update: Option<SavedAction>)
    requires GoodProgress(e, p) && (update.Some? ==> UpdateOk(update.value))
    ensures GoodRun(e, After(p, update))
  {
    if p.1.None? && update.Some? {
      WithUpdates(p.0, p.0.updates + [update.value]);
    }
  }

  lemma CheckIsGood(e: Engine, sender: PubKey, cmd: Command, admin: bool, muted: bool)
    requires Inv(e) && TaskOk(Check(sender, cmd, admin, muted))
    ensures GoodRun(e, CheckSaved(e, sender, cmd, admin, muted))
  {
    var c, m := cmd.channel, cmd.messageID;
    if Has(e.saved.table, c, m) {
      assert SavedOk(e.saved.table[c][m]);
      FewerKeepsInv(e, e.(cleanups := e.cleanups + [(c, m)]));
    }
  }

  lemma CallIsGood(e: Engine, j: Job, now: Time, seed: nat)
    requires Inv(e) && JobOk(j) && j.task.Call?
    ensures GoodRun(e, RunJob(e, j, now, seed))
  {
    var t := j.task;
    var h := HandlerFor(e, t);
    if h.Some? {
      DispatchIsSound(e, t.command.messageType, !t.admin, t.admin, t.muted);
      ListenIsGood(e, h.value.listener, t.sender, t.command, now, seed);
      AfterIsGood(e, Listen(e, h.value.listener, t.sender, t.command, now, seed), j.update);
    }
  }

  lemma RunJobIsGood(e: Engine, j: Job, now: Time, seed: nat)
    requires Inv(e) && JobOk(j)
    ensures GoodRun(e, RunJob(e, j, now, seed))
  {
    match j.task {
      case Check(sender, cmd, admin, muted) => CheckIsGood(e, sender, cmd, admin, muted);
      case Call(_, _, _, _) => CallIsGood(e, j, now, seed);
      case _ =>
        ContinueIsGood(e, j.task, now);
        AfterIsGood(e, Continue(e, j.task, now), j.update);
    }
  }

  // ----- Steps -----

  lemma BeginKeepsInv(e: Engine, sender: PubKey, cmd: Command, admin: bool)
    requires Inv(e)
    ensures Inv(Begin(e, sender, cmd, admin)) && Begin(e, sender, cmd, admin).clock == e.clock
  {
    WithJobs(e, Begin(e, sender, cmd, admin).jobs);
  }

  /** Dropping an element of a queue and advancing the clock keep the invariant. */
  ghost predicate Fewer(e: Engine, e': Engine) {
    && e'.crashed == e.crashed && e'.clock >= e.clock && e'.handlers == e.handlers && e'.model == e.model
    && e'.muted == e.muted && e'.saved == e.saved && e'.ledger == e.ledger && e'.leases == e.leases
    && e'.disk == e.disk && e'.load == e.load
    && e'.adds == e.adds && e'.removes == e.removes && e'.leaves == e.leaves && e'.jobs == e.jobs
    && (forall u :: u in e'.undos ==> u in e.undos)
    && (forall a :: a in e'.updates ==> a in e.updates)
  }

  lemma FewerKeepsInv(e: Engine, e': Engine)
    requires Inv(e) && Fewer(e, e')
    ensures Inv(e')
  {
  }

  lemma TriggerActionKeepsInv(e: Engine, cmd: Command, now: Time, seed: nat)
    requires Inv(e) && cmd.fromAdmin
    ensures Inv(TriggerAction(e, cmd, now, seed)) && TriggerAction(e, cmd, now, seed).clock == e.clock
  {
    var h := GetHandler(e.handlers, cmd.messageType, true, cmd.fromAdmin, false);
    if h.Some? {
      DispatchIsSound(e, cmd.messageType, true, cmd.fromAdmin, false);
      ListenIsGood(e, h.value.listener, ADMIN_KEY, cmd, now, seed);
      var (e1, next) := Listen(e, h.value.listener, ADMIN_KEY, cmd, now, seed);
      if next.Some? {
        WithJobs(e1, e1.jobs + [Job(next.value, None)]);
      }
    }
  }

  lemma QuickReplayKeepsInv(e: Engine, k: Key, now: Time, seed: nat)
    requires Inv(e)
    ensures Inv(QuickReplay(e, k, now, seed))
  {
    var e' := QuickReplay(e, k, now, seed);
    forall p | p in e'.adds ensures LeaseOk(p.lease) && p.command.fromAdmin {
      if p !in e.adds {
        assert k in e.ledger.bodies;
      }
    }
  }

  lemma {:induction false} UndoOrigin(s: seq<Lease>, bodies: map<Key, Command>, r: Reading, u: Command)
    returns (l: Lease)
    requires u in Undos(s, bodies, r)
    ensures l in s && FateOf(l, bodies, r).Undo? && u == UndoCall(l, bodies[l.key])
  {
    if FateOf(s[0], bodies, r).Undo? && u == UndoCall(s[0], bodies[s[0].key]) {
      l := s[0];
    } else {
      l := UndoOrigin(s[1..], bodies, r, u);
      assert s == [s[0]] + s[1..];
    }
  }

  lemma WithLeases(e: Engine, s: seq<Lease>, disk: Disk)
    requires Inv(e) && Sound(s, disk, e.load)
    ensures Inv(e.(leases := s, disk := disk))
  {
  }

  lemma WithLedger(e: Engine, l: Ledger)
    requires Inv(e) && Agrees(l) && Synced(l.commands)
    requires forall k :: k in l.bodies ==> k in e.ledger.bodies && l.bodies[k] == e.ledger.bodies[k]
    ensures Inv(e.(ledger := l))
  {
  }

  lemma WithUndos(e: Engine, us: seq<Command>, clock: Time)
    requires Inv(e) && clock >= e.clock
    requires forall u :: u in us ==> UndoOk(u, clock) && u.fromAdmin
    ensures Inv(e.(undos := e.undos + us, clock := clock))
  {
  }

  /** A lease is undone only when it is over. */
  lemma PassUndosOk(e: Engine, r: Reading, u: Command)
    requires Inv(e) && r.now <= r.later && u in Undos(e.leases, e.ledger.bodies, r)
    ensures UndoOk(u, r.later) && u.fromAdmin
  {
    var l := UndoOrigin(e.leases, e.ledger.bodies, r, u);
    assert LeaseOk(l);
  }

  lemma PassKeepsInv(e: Engine, r: Reading)
    requires Inv(e) && e.clock <= r.now <= r.later
    ensures Inv(PassOver(e, r))
  {
    var s', us := AfterPass(e.leases, e.ledger.bodies, r), Undos(e.leases, e.ledger.bodies, r);
    var disk' := StorePass(e.disk, e.leases, e.ledger.bodies, r);
    var l' := ForgetEach(e.ledger, Forgotten(e.leases, e.ledger.bodies, r));
    PassSound(e.leases, e.disk, e.load, e.ledger.bodies, r);
    WithLeases(e, s', disk');
    ForgetEachAgrees(e.ledger, Forgotten(e.leases, e.ledger.bodies, r));
    var e1 := e.(leases := s', disk := disk');
    WithLedger(e1, l');
    forall u | u in us ensures UndoOk(u, r.later) && u.fromAdmin { PassUndosOk(e, r, u); }
    WithUndos(e1.(ledger := l'), us, r.later);
  }

  lemma RemoveChannelKeepsInv(e: Engine, c: ChannelID)
    requires Inv(e)
    ensures Inv(RemoveChannel(e, c))
  {
    var ks := ChannelLeaseKeys(e.leases, c);
    if ks != {} {
      var s', disk' := Outside(e.leases, c), StoreDrop(e.disk, e.leases, c);
      DropSound(e.leases, e.disk, e.load, c);
      WithLeases(e, s', disk');
      ForgetChannelAgrees(e.ledger, c, ks);
      var l' := ForgetChannel(e.ledger, c, ks);
      assert Synced(l'.commands) by { DropStaysSynced(e.ledger.commands, c); }
      WithLedger(e.(leases := s', disk := disk'), l');
    }
  }

  lemma DropStaysSynced<K, V>(p: Persisted<K, V>, c: ChannelID)
    requires Synced(p)
    ensures Synced(DropChannel(p, c))
  {
  }

  lemma WithQueues(e: Engine, adds: seq<Packet>, removes: seq<Key>, leaves: seq<ChannelID>)
    requires Inv(e) && forall p :: p in adds ==> p in e.adds
    ensures Inv(e.(adds := adds, removes := removes, leaves := leaves))
  {
  }

  lemma WithoutMembers<T>(s: seq<T>, i: nat)
    requires i < |s|
    ensures forall x :: x in Without(s, i) ==> x in s
  {
  }

  lemma TakeAddKeepsInv(e: Engine, i: nat)
    requires Inv(e) && i < |e.adds|
    ensures Inv(TakeAdd(e, i)) && TakeAdd(e, i).clock == e.clock
  {
    var l, e1 := e.adds[i].lease, e.(adds := Without(e.adds, i));
    assert e.adds[i] in e.adds;
    WithoutMembers(e.adds, i);
    WithQueues(e, e1.adds, e.removes, e.leaves);
    if l.key !in Keys(e.leases) {
      InsertSound(e.leases, e.disk, e.load, l);
      WithLeases(e1, Insert(e.leases, l), Store(e.disk, e.leases, Insert(e.leases, l), l.key.channel));
    }
  }

  lemma TakeRemoveKeepsInv(e: Engine, i: nat)
    requires Inv(e) && i < |e.removes|
    ensures Inv(TakeRemove(e, i)) && TakeRemove(e, i).clock == e.clock
  {
    var k := e.removes[i];
    WithQueues(e, e.adds, Without(e.removes, i), e.leaves);
    RemoveSound(e.leases, e.disk, e.load, k);
    WithLeases(e.(removes := Without(e.removes, i)), RemoveKey(e.leases, k),
               StoreKey(e.disk, e.leases, RemoveKey(e.leases, k), k));
  }

  lemma SelectKeepsInv(e: Engine, choice: Choice)
    requires Inv(e)
    ensures Inv(Select(e, choice)) && Select(e, choice).clock == e.clock
  {
    match choice {
      case PickAdd(i) => if i < |e.adds| { TakeAddKeepsInv(e, i); }
      case PickRemove(i) => if i < |e.removes| { TakeRemoveKeepsInv(e, i); }
      case PickLeave(i) =>
        if i < |e.leaves| {
          WithQueues(e, e.adds, e.removes, Without(e.leaves, i));
          RemoveChannelKeepsInv(e.(leaves := Without(e.leaves, i)), e.leaves[i]);
        }
      case PickTimer =>
    }
  }

  /** A restart keeps blocker, command store and muted users, and the leases' keys. */
  lemma RestartKeepsInv(e: Engine, now: Time, seeds: map<Key, nat>, loaded: seq<Lease>)
    requires Inv(e)
    ensures Inv(Restarted(e, now, seeds, loaded)) && Restarted(e, now, seeds, loaded).clock >= e.clock
    ensures Restarted(e, now, seeds, loaded).muted == e.muted && Restarted(e, now, seeds, loaded).ledger == e.ledger
    ensures Keys(Restarted(e, now, seeds, loaded).leases) == Keys(e.leases)
  {
    LoadRebuilds(e.muted);
    LoadRebuilds(e.ledger.commands);
    if LoadedFrom(loaded, e.disk, Later(e, now), seeds) {
      LoadSound(e.leases, e.disk, e.load, loaded, Later(e, now), seeds);
    }
  }

  lemma PurgeKeepsInv(e: Engine, now: Time)
    requires Inv(e)
    ensures Inv(StepPurge(e, now)) && StepPurge(e, now).clock >= e.clock
  {
    var t := Later(e, now);
    var p := PurgeAndStore(e.saved, t);
    PurgeStaysBacked(e.saved, t, e.saved.table.Keys);
    PurgeTable(e.saved, t);
    forall c, m | Has(p.table, c, m) ensures SavedOk(p.table[c][m]) {
      assert Has(e.saved.table, c, m) && p.table[c][m] == e.saved.table[c][m];
    }
    WithSaved(e, p);
    FewerKeepsInv(e.(saved := p), e.(saved := p, clock := t));
  }

  /** Every step keeps the invariant. */
  lemma StepKeepsInv(e: Engine, op: Op)
    requires Inv(e)
    ensures Inv(Step(e, op)) && Step(e, op).clock >= e.clock
  {
    if !e.crashed || op.Restart? {
      StepLiveKeepsInv(e, op);
    }
  }

  lemma AdvanceKeepsInv(e: Engine, i: nat, now: Time, seed: nat)
    requires Inv(e) && i < |e.jobs|
    ensures Inv(StepAdvance(e, i, now, seed)) && StepAdvance(e, i, now, seed).clock >= e.clock
  {
    var e1 := e.(clock := Later(e, now));
    FewerKeepsInv(e, e1);
    assert e.jobs[i] in e.jobs;
    RunJobIsGood(e1, e.jobs[i], Later(e, now), seed);
    var (e2, rest) := RunJob(e1, e.jobs[i], Later(e, now), seed);
    WithoutMembers(e.jobs, i);
    WithJobs(e2, Without(e.jobs, i) + rest);
  }

  lemma RunUndoKeepsInv(e: Engine, i: nat, now: Time, seed: nat)
    requires Inv(e) && i < |e.undos|
    ensures Inv(StepUndo(e, i, now, seed)) && StepUndo(e, i, now, seed).clock >= e.clock
  {
    var e1 := e.(undos := Without(e.undos, i), clock := Later(e, now));
    WithoutMembers(e.undos, i);
    FewerKeepsInv(e, e1);
    assert e.undos[i] in e.undos;
    TriggerActionKeepsInv(e1, e.undos[i], Later(e, now), seed);
  }

  lemma RunUpdateKeepsInv(e: Engine, i: nat, now: Time, seed: nat)
    requires Inv(e) && i < |e.updates|
    ensures Inv(StepUpdate(e, i, now, seed)) && StepUpdate(e, i, now, seed).clock >= e.clock
  {
    var e1 := e.(updates := Without(e.updates, i), clock := Later(e, now));
    WithoutMembers(e.updates, i);
    FewerKeepsInv(e, e1);
    assert e.updates[i] in e.updates;
    TriggerActionKeepsInv(e1, e.updates[i].command, Later(e, now), seed);
  }

  lemma RunReplayKeepsInv(e: Engine, i: nat, now: Time, seed: nat)
    requires Inv(e) && i < |e.replays|
    ensures Inv(StepReplay(e, i, now, seed)) && StepReplay(e, i, now, seed).clock >= e.clock
  {
    var e1 := e.(replays := Without(e.replays, i), clock := Later(e, now));
    FewerKeepsInv(e, e1);
    QuickReplayKeepsInv(e1, e.replays[i], Later(e, now), seed);
  }

  lemma RunCleanupKeepsInv(e: Engine, i: nat)
    requires Inv(e) && i < |e.cleanups|
    ensures Inv(StepCleanup(e, i)) && StepCleanup(e, i).clock >= e.clock
  {
    var c, m := e.cleanups[i].0, e.cleanups[i].1;
    var p := RemoveSaved(e.saved, c, m);
    if Has(e.saved.table, c, m) {
      OperationsStayBacked(e.saved, c, m, e.saved.table[c][m]);
    }
    forall d, n | Has(p.table, d, n) ensures SavedOk(p.table[d][n]) {
      RemoveLookup(e.saved.table, c, m, d, n);
    }
    WithSaved(e, p);
    FewerKeepsInv(e.(saved := p), e.(saved := p, cleanups := Without(e.cleanups, i)));
  }

  lemma LoopKeepsInv(e: Engine, choice: Choice, reading: Reading)
    requires Inv(e)
    ensures Inv(StepLoop(e, choice, reading)) && StepLoop(e, choice, reading).clock >= e.clock
  {
    SelectKeepsInv(e, choice);
    var e1 := Select(e, choice);
    if !e1.crashed {
      PassKeepsInv(e1, Monotone(e1, reading));
    }
  }

  lemma LeaveKeepsInv(e: Engine, c: ChannelID)
    requires Inv(e)
    ensures Inv(StepLeave(e, c)) && StepLeave(e, c).clock == e.clock
  {
    DropStaysSynced(e.muted, c);
    WithMuted(e, DropChannel(e.muted, c));
    WithQueues(e.(muted := DropChannel(e.muted, c)), e.adds, e.removes, e.leaves + [c]);
  }

  lemma RegisterKeepsInv(e: Engine, t: MessageType, id: nat, user: bool, admin: bool, muted: bool)
    requires Inv(e)
    ensures Inv(StepRegister(e, t, Handler(Extension(id), user, admin, muted)))
  {
  }

  predicate IsMessage(op: Op) {
    op.BeginUser? || op.BeginAdmin? || op.Advance?
  }

  predicate IsGoroutine(op: Op) {
    op.RunUndo? || op.RunUpdate? || op.RunReplay? || op.RunCleanup?
  }

  lemma MessagesKeepInv(e: Engine, op: Op)
    requires Inv(e) && IsMessage(op)
    ensures Inv(StepLive(e, op)) && StepLive(e, op).clock >= e.clock
  {
    match op {
      case BeginUser(sender, cmd) => BeginKeepsInv(e, sender, cmd, false);
      case BeginAdmin(cmd) => BeginKeepsInv(e, ADMIN_KEY, cmd, true);
      case Advance(i, now, seed) => if i < |e.jobs| { AdvanceKeepsInv(e, i, now, seed); }
    }
  }

  lemma GoroutinesKeepInv(e: Engine, op: Op)
    requires Inv(e) && IsGoroutine(op)
    ensures Inv(StepLive(e, op)) && StepLive(e, op).clock >= e.clock
  {
    match op {
      case RunUndo(i, now, seed) => if i < |e.undos| { RunUndoKeepsInv(e, i, now, seed); }
      case RunUpdate(i, now, seed) => if i < |e.updates| { RunUpdateKeepsInv(e, i, now, seed); }
      case RunReplay(i, now, seed) => if i < |e.replays| { RunReplayKeepsInv(e, i, now, seed); }
      case RunCleanup(i) => if i < |e.cleanups| { RunCleanupKeepsInv(e, i); }
    }
  }

  lemma StepLiveKeepsInv(e: Engine, op: Op)
    requires Inv(e)
    ensures Inv(StepLive(e, op)) && StepLive(e, op).clock >= e.clock
  {
    if IsMessage(op) {
      MessagesKeepInv(e, op);
    } else if IsGoroutine(op) {
      GoroutinesKeepInv(e, op);
    } else {
      match op {
        case Loop(choice, reading) => LoopKeepsInv(e, choice, reading);
        case Register(t, id, user, admin, muted) => RegisterKeepsInv(e, t, id, user, admin, muted);
        case Purge(now) => PurgeKeepsInv(e, now);
        case Leave(c) => LeaveKeepsInv(e, c);
        case Restart(now, seeds, loaded) => RestartKeepsInv(e, now, seeds, loaded);
      }
    }
  }

  lemma InitInv()
    ensures Inv(Init())
  {
    assert TableOf([]) == map[];
  }

  /** Every reachable state satisfies the invariant. */
  lemma {:induction false} RunKeepsInv(e: Engine, ops: seq<Op>)
    requires Inv(e)
    ensures Inv(Run(e, ops)) && Run(e, ops).clock >= e.clock
    decreases |ops|
  {
    if ops != [] {
      StepKeepsInv(e, ops[0]);
      RunKeepsInv(Step(e, ops[0]), ops[1..]);
    }
  }

  /** A run in two parts. */
  lemma {:induction false} RunAppend(e: Engine, a: seq<Op>, b: seq<Op>)
    ensures Run(e, a + b) == Run(Run(e, a), b)
    decreases |a|
  {
    if a == [] {
      assert a + b == b;
    } else {
      assert (a + b)[1..] == a[1..] + b;
      RunAppend(Step(e, a[0]), a[1..], b);
    }
  }

  /** The state after n steps of a run. */
  ghost function At(e: Engine, ops: seq<Op>, n: nat): Engine
    requires n <= |ops|
  {
    Run(e, ops[..n])
  }

  lemma AtNext(e: Engine, ops: seq<Op>, n: nat)
    requires n < |ops|
    ensures At(e, ops, n + 1) == Step(At(e, ops, n), ops[n])
  {
    assert ops[..n + 1] == ops[..n] + [ops[n]];
    RunAppend(e, ops[..n], [ops[n]]);
    assert [ops[n]][1..] == [];
  }

  lemma AtKeepsInv(e: Engine, ops: seq<Op>, n: nat)
    requires Inv(e) && n <= |ops|
    ensures Inv(At(e, ops, n))
  {
    RunKeepsInv(e, ops[..n]);
  }
}
