/**
 * Runs from the start in which the engine departs from what its documentation says.
 */
module Departures {
  import opened Wrappers
  import opened ChannelTypes
  import opened ChannelStorage
  import opened LeaseTrigger
  import opened LeaseOrder
  import opened LeasePass
  import opened LeaseIndex
  import opened LeaseDisk
  import opened ReplayBlocker
  import opened ActionSaver
  import opened MutedUsers
  import opened ChannelEngine
  import opened EngineInvariants
  import opened EngineSteps
  import opened EngineRuns

  /** Handling a mute or unmute at time zero, from beginning to end. */
  function Handling(cmd: Command): seq<Op> {
    Submission(cmd, 0, 0) + [Advance(0, 0, 0)]
  }

  /** A first mute is handled and its lease taken. */
  function FirstMute(c: ChannelID, u: PubKey, v: nat): seq<Op> {
    Handling(MuteCommand(c, u, v, false, 1)) + [Loop(PickAdd(0), ZeroReading)]
  }

  /** What the first mute leaves: the user muted, one entry, one body, one lease. */
  ghost predicate Muted(e: Engine, c: ChannelID, u: PubKey, v: nat) {
    && Inv(e) && !e.crashed && e.clock == 0 && e.jobs == [] && e.saved.table == map[]
    && e.adds == [] && e.removes == [] && e.leaves == [] && e.undos == []
    && IsMuted(e.muted.table, c, u)
    && e.leases == [MuteLease(c, u, v)]
    && Has(e.ledger.commands.table, c, MuteKey(c, u, v))
    && e.ledger.commands.table[c][MuteKey(c, u, v)].unsanitized == MuteMsg(v, Some(u), false)
    && e.ledger.commands.table[c][MuteKey(c, u, v)].round == 1
  }

  lemma FirstMuteIsMuted(c: ChannelID, u: PubKey, v: nat)
    ensures Muted(Run(Init(), FirstMute(c, u, v)), c, u, v)
  {
    var a, e0 := MuteCommand(c, u, v, false, 1), Init();
    InitInv();
    MuteIsAccepted(e0, c, u, v, false, 1, 0);
    HandleOne(e0, a);
    SubmitQueues(e0, c, u, v, 1);
    SubmitFacts(e0, a, 0, 0);
    var e1 := Handled(e0, a);
    PutLookup(e0.ledger.commands.table, c, MuteKey(c, u, v), NewEntry(a, Sanitize(a.content)), c, MuteKey(c, u, v));
    PutLookup(e0.muted.table, c, u, (), c, u);
    RunAppend(e0, Handling(a), [Loop(PickAdd(0), ZeroReading)]);
    RunOne(e1, Loop(PickAdd(0), ZeroReading));
    TakesMute(e1, c, u, v);
    assert e1.adds[1..] == [];
    RunKeepsInv(e0, FirstMute(c, u, v));
  }

  // ----- A command delivered twice -----

  lemma CrashOnTake(e: Engine, l: Lease, r: Reading)
    requires !e.crashed && |e.adds| > 0 && e.adds[0].lease.key == l.key && l in e.leases
    ensures Run(e, [Loop(PickAdd(0), r)]).crashed
  {
    RunOne(e, Loop(PickAdd(0), r));
  }

  /** The same mute is delivered twice: the second lease brings the thread down. */
  lemma RepeatedMuteCrashes(c: ChannelID, u: PubKey, v: nat)
    ensures Run(Init(), FirstMute(c, u, v) + (Handling(MuteCommand(c, u, v, false, 1))
                                             + [Loop(PickAdd(0), ZeroReading)])).crashed
  {
    FirstMuteIsMuted(c, u, v);
    SecondMuteCrashes(Run(Init(), FirstMute(c, u, v)), c, u, v);
    RunAppend(Init(), FirstMute(c, u, v),
              Handling(MuteCommand(c, u, v, false, 1)) + [Loop(PickAdd(0), ZeroReading)]);
  }

  lemma SecondMuteCrashes(e: Engine, c: ChannelID, u: PubKey, v: nat)
    requires Muted(e, c, u, v)
    ensures Run(e, Handling(MuteCommand(c, u, v, false, 1)) + [Loop(PickAdd(0), ZeroReading)]).crashed
  {
    var a := MuteCommand(c, u, v, false, 1);
    MuteIsAccepted(e, c, u, v, false, 1, 0);
    HandleOne(e, a);
    SubmitQueues(e, c, u, v, 1);
    CrashOnTake(Handled(e, a), MuteLease(c, u, v), ZeroReading);
    RunAppend(e, Handling(a), [Loop(PickAdd(0), ZeroReading)]);
  }

  // ----- Expiry -----

  const LateReading := Reading(2 * HOUR, 2 * HOUR, map[])

  /** A pass over one lease that is over. */
  lemma OneExpires(l: Lease, b: map<Key, Command>, r: Reading)
    requires FateOf(l, b, r).Undo?
    ensures AfterPass([l], b, r) == [] && |Undos([l], b, r)| == 1 && Forgotten([l], b, r) == [l.key]
  {
    assert [l][1..] == [];
    assert Kept([l], r.now) == [] && Rescheduled([l], b, r) == [];
    assert InsertAll([], []) == [];
    assert Marked([l], b, r) == [l.key] && ReplayedLeases([l], b, r) == [];
  }

  /** A pass in which the only lease is over. */
  lemma ExpiryPass(e: Engine, l: Lease, r: Reading)
    requires e.undos == [] && e.leases == [l] && FateOf(l, e.ledger.bodies, r).Undo?
    requires Agrees(e.ledger) && Synced(e.ledger.commands)
    ensures var e' := PassOver(e, r);
            && |e'.undos| == 1 && e'.leases == [] && e'.muted == e.muted && e'.jobs == e.jobs
            && l.key !in e'.ledger.bodies && Agrees(e'.ledger) && e'.crashed == e.crashed
  {
    OneExpires(l, e.ledger.bodies, r);
    ForgetEachAgrees(e.ledger, [l.key]);
    assert l.key in [l.key];
  }

  lemma TimerStep(e: Engine, r: Reading)
    requires !e.crashed && e.clock <= r.now <= r.later
    ensures Step(e, Loop(PickTimer, r)) == PassOver(e, r)
  {
  }

  lemma MuteExpires(e: Engine, c: ChannelID, u: PubKey, v: nat)
    requires Muted(e, c, u, v)
    ensures var e' := Step(e, Loop(PickTimer, LateReading));
            && |e'.undos| == 1 && e'.leases == [] && e'.muted == e.muted && e'.jobs == [] && !e'.crashed
            && !Has(e'.ledger.commands.table, c, MuteKey(c, u, v))
  {
    var l := MuteLease(c, u, v);
    assert l.key in e.ledger.bodies;
    ExpiryPass(e, l, LateReading);
    TimerStep(e, LateReading);
  }

  lemma UndoRuns(e: Engine)
    requires Inv(e) && !e.crashed && |e.undos| == 1
    ensures var e' := Run(e, [RunUndo(0, 2 * HOUR, 0)]);
            e'.undos == [] && e'.muted == e.muted && e'.leases == e.leases && e'.jobs == e.jobs && e'.ledger == e.ledger
  {
    RunOne(e, RunUndo(0, 2 * HOUR, 0));
    ExpiryNeverUndoes(e, 0, 2 * HOUR, 0);
    assert Without(e.undos, 0) == [];
  }

  /** A mute of one hour is handled, its lease expires and its undo runs: the user stays
      muted, and nothing is left that would ever unmute them. */
  lemma ExpiryLeavesMuted(c: ChannelID, u: PubKey, v: nat)
    ensures var e := Run(Init(), FirstMute(c, u, v) + ([Loop(PickTimer, LateReading)] + [RunUndo(0, 2 * HOUR, 0)]));
            && IsMuted(e.muted.table, c, u) && e.leases == [] && e.undos == [] && e.jobs == []
            && !Has(e.ledger.commands.table, c, MuteKey(c, u, v))
  {
    FirstMuteIsMuted(c, u, v);
    var e := Run(Init(), FirstMute(c, u, v));
    MuteExpires(e, c, u, v);
    StepKeepsInv(e, Loop(PickTimer, LateReading));
    RunOne(e, Loop(PickTimer, LateReading));
    UndoRuns(Step(e, Loop(PickTimer, LateReading)));
    RunAppend(e, [Loop(PickTimer, LateReading)], [RunUndo(0, 2 * HOUR, 0)]);
    RunAppend(Init(), FirstMute(c, u, v), [Loop(PickTimer, LateReading)] + [RunUndo(0, 2 * HOUR, 0)]);
  }

  // ----- Leaving a channel -----

  lemma RemovesMute(e: Engine, c: ChannelID, u: PubKey, v: nat)
    requires !e.crashed && e.clock == 0
    requires e.leases == [MuteLease(c, u, v)] && e.removes == [MuteKey(c, u, v)]
    ensures var e' := Step(e, Loop(PickRemove(0), ZeroReading));
            e' == e.(removes := [], leases := [], disk := e'.disk)
  {
    var e1 := TakeRemove(e, 0);
    assert IndexOf(e.leases, MuteKey(c, u, v)) == 0;
    assert e1.leases == [] && Without(e.removes, 0) == [];
    ZeroIteration(e, PickRemove(0), e1);
  }

  /** Leaving a channel without leases, once the thread hears of it. */
  lemma LeavesIdle(e: Engine, c: ChannelID)
    requires !e.crashed && e.clock == 0 && e.leases == [] && e.leaves == []
    ensures var e' := Step(Step(e, Leave(c)), Loop(PickLeave(0), ZeroReading));
            e' == e.(muted := DropChannel(e.muted, c))
  {
    var e1 := Step(e, Leave(c));
    assert Without(e1.leaves, 0) == [];
    assert ChannelLeaseKeys(e1.leases, c) == {};
    var e2 := TakeLeave(e1, 0);
    assert e2 == e.(muted := DropChannel(e.muted, c));
    ZeroIteration(e1, PickLeave(0), e2);
  }

  lemma LeftAfterRemoval(e: Engine, c: ChannelID, u: PubKey, v: nat)
    requires !e.crashed && e.clock == 0 && e.leaves == []
    requires e.leases == [MuteLease(c, u, v)] && e.removes == [MuteKey(c, u, v)]
    ensures var e' := Run(e, [Loop(PickRemove(0), ZeroReading), Leave(c), Loop(PickLeave(0), ZeroReading)]);
            e'.leases == [] && e'.leaves == [] && e'.ledger == e.ledger
  {
    RunThree(e, Loop(PickRemove(0), ZeroReading), Leave(c), Loop(PickLeave(0), ZeroReading));
    RemovesMute(e, c, u, v);
    LeavesIdle(Step(e, Loop(PickRemove(0), ZeroReading)), c);
  }

  lemma UndoIsHandled(e: Engine, c: ChannelID, u: PubKey, v: nat)
    requires Muted(e, c, u, v)
    ensures var e', k := Run(e, Handling(MuteCommand(c, u, v, true, 2))), MuteKey(c, u, v);
            && !e'.crashed && e'.clock == 0 && e'.leaves == [] && e'.leases == e.leases && e'.removes == [k]
            && Has(e'.ledger.commands.table, c, k) && k in e'.ledger.bodies
  {
    var undo, k := MuteCommand(c, u, v, true, 2), MuteKey(c, u, v);
    MuteIsAccepted(e, c, u, v, true, 2, 0);
    HandleOne(e, undo);
    SubmitUnqueues(e, c, u, v, 2);
    AcceptHolds(e.ledger, undo, c, k);
  }

  lemma AcceptHolds(l: Ledger, cmd: Command, c: ChannelID, k: Key)
    requires cmd.content.MuteMsg? && cmd.channel == c && SanitizedKey(cmd, Sanitize(cmd.content)) == k
    ensures var l' := Accept(l, cmd, Sanitize(cmd.content)); Has(l'.commands.table, c, k) && k in l'.bodies
  {
  }

  lemma UndoneThenLeft(e: Engine, c: ChannelID, u: PubKey, v: nat)
    requires Muted(e, c, u, v)
    ensures var e' := Run(e, Handling(MuteCommand(c, u, v, true, 2))
                             + [Loop(PickRemove(0), ZeroReading), Leave(c), Loop(PickLeave(0), ZeroReading)]);
            && e'.leases == [] && e'.leaves == [] && Has(e'.ledger.commands.table, c, MuteKey(c, u, v))
            && MuteKey(c, u, v) in e'.ledger.bodies
  {
    var ops := Handling(MuteCommand(c, u, v, true, 2));
    UndoIsHandled(e, c, u, v);
    LeftAfterRemoval(Run(e, ops), c, u, v);
    RunAppend(e, ops, [Loop(PickRemove(0), ZeroReading), Leave(c), Loop(PickLeave(0), ZeroReading)]);
  }

  /** A mute is undone, its lease removed, and then the channel is left: the blocker keeps
      the entry and the command store the body. */
  lemma LeavingKeepsUndoneCommand(c: ChannelID, u: PubKey, v: nat)
    ensures var ops := Handling(MuteCommand(c, u, v, true, 2))
                       + [Loop(PickRemove(0), ZeroReading), Leave(c), Loop(PickLeave(0), ZeroReading)];
            var e := Run(Init(), FirstMute(c, u, v) + ops);
            && e.leases == [] && e.leaves == [] && Has(e.ledger.commands.table, c, MuteKey(c, u, v))
            && MuteKey(c, u, v) in e.ledger.bodies
  {
    FirstMuteIsMuted(c, u, v);
    UndoneThenLeft(Run(Init(), FirstMute(c, u, v)), c, u, v);
    RunAppend(Init(), FirstMute(c, u, v),
              Handling(MuteCommand(c, u, v, true, 2))
              + [Loop(PickRemove(0), ZeroReading), Leave(c), Loop(PickLeave(0), ZeroReading)]);
  }

  // ----- The stored round -----

  /** The same mute from an older round is accepted and takes the stored round back. */
  lemma StoredRoundCanGoBack(c: ChannelID, u: PubKey, v: nat)
    ensures var e1 := Run(Init(), Handling(MuteCommand(c, u, v, false, 5)));
            var e2 := Run(e1, Handling(MuteCommand(c, u, v, false, 3)));
            && Has(e1.ledger.commands.table, c, MuteKey(c, u, v))
            && e1.ledger.commands.table[c][MuteKey(c, u, v)].round == 5
            && Has(e2.ledger.commands.table, c, MuteKey(c, u, v))
            && e2.ledger.commands.table[c][MuteKey(c, u, v)].round == 3
  {
    var a, b, k := MuteCommand(c, u, v, false, 5), MuteCommand(c, u, v, false, 3), MuteKey(c, u, v);
    InitInv();
    MuteIsAccepted(Init(), c, u, v, false, 5, 0);
    HandleOne(Init(), a);
    var e1 := Handled(Init(), a);
    PutLookup(Init().ledger.commands.table, c, k, NewEntry(a, Sanitize(a.content)), c, k);
    MuteIsAccepted(e1, c, u, v, false, 3, 0);
    HandleOne(e1, b);
    PutLookup(e1.ledger.commands.table, c, k, NewEntry(b, Sanitize(b.content)), c, k);
  }

  // ----- Overflow -----

  /** A lease that starts an hour from now and lasts almost the largest duration: its
      remainder wraps around, and it fires at its end instead of within a message life. */
  lemma RemainderCanOverflow(seed: nat)
    ensures RemainingOverflows(0, HOUR, MAX_INT64 - 1)
    ensures CalculateLeaseTrigger(0, HOUR, MAX_INT64 - 1, seed) == Some(HOUR + MAX_INT64 - 1)
    ensures HOUR + MAX_INT64 - 1 > MESSAGE_LIFE
  {
  }

  // ----- A user's deletion that is saved -----

  /** A user's message up to its listener's first call. */
  function UserCall(u: PubKey, cmd: Command, n: nat): seq<Op> {
    [BeginUser(u, cmd), Advance(n, 0, 0), Advance(n, 0, 0)]
  }

  lemma AllowedCall(e: Engine, js: seq<Job>, u: PubKey, d: Command)
    requires HandlerInv(e) && e.clock == 0 && e.jobs == js + [Job(Call(u, d, false, false), None)]
    requires d.messageType == DELETE && d.content.DeleteMsg? && !d.fromAdmin
    requires d.content.target in e.model && e.model[d.content.target].sender == u
    ensures StepAdvance(e, |js|, 0, 0) == e.(jobs := js + [Job(Erase(d), None)])
  {
    var call := Job(Call(u, d, false, false), None);
    assert e.handlers[DELETE] == DEFAULTS[DELETE];
    assert HandlerFor(e, call.task) == Some(DEFAULTS[DELETE]);
    LastWithout(js, call);
    assert RunJob(e, call, 0, 0) == (e, [Job(Erase(d), None)]);
  }

  /** A deletion by the author of a message is allowed and waits to be carried out. */
  lemma DeletionIsAllowed(e: Engine, u: PubKey, d: Command)
    requires HandlerInv(e) && !e.crashed && e.clock == 0 && e.saved.table == map[] && e.muted.table == map[]
    requires d.messageType == DELETE && d.content.DeleteMsg? && !d.fromAdmin
    requires d.content.target in e.model && e.model[d.content.target].sender == u
    ensures Run(e, UserCall(u, d, |e.jobs|)) == e.(jobs := e.jobs + [Job(Erase(d), None)])
  {
    var n := |e.jobs|;
    RunThree(e, BeginUser(u, d), Advance(n, 0, 0), Advance(n, 0, 0));
    assert d.(fromAdmin := false) == d;
    BeginAndCheck(e, u, d, false, 0);
    AllowedCall(e.(jobs := e.jobs + [Job(Call(u, d, false, false), None)]), e.jobs, u, d);
  }

  lemma TextIsDelivered(text: Command, u: PubKey)
    requires text.messageType == TEXT && text.content.Plain? && !text.fromAdmin
    ensures Run(Init(), UserCall(u, text, 0)) == Init().(model := map[text.messageID := Message(u, false)])
  {
    RunThree(Init(), BeginUser(u, text), Advance(0, 0, 0), Advance(0, 0, 0));
    assert text.(fromAdmin := false) == text;
    BeginAndCheck(Init(), u, text, false, 0);
    var e1 := Init().(jobs := [Job(Call(u, text, false, false), None)]);
    assert Without(e1.jobs, 0) + [] == [];
    assert e1.handlers[TEXT] == DEFAULTS[TEXT];
  }

  const ThreeCalls: seq<Op> := [Advance(0, 0, 0), Advance(0, 0, 0), Advance(0, 0, 0)]

  /** The deletion is saved as the one of a user. */
  predicate SavedFor(e: Engine, d: Command)
    requires d.content.DeleteMsg?
  {
    var c, target := d.channel, d.content.target;
    && Has(e.saved.table, c, target)
    && e.saved.table[c][target].command.messageType == DELETE && !e.saved.table[c][target].command.fromAdmin
  }

  lemma SecondDeletionMisses(e: Engine, d: Command, d': Command)
    requires !e.crashed && e.clock == 0
    requires d.content.DeleteMsg? && d'.content.DeleteMsg? && d.content.target == d'.content.target
    requires d.content.target in e.model && e.jobs == [Job(Erase(d), None), Job(Erase(d'), None)]
    ensures Run(e, ThreeCalls) == SaveAction(e.(model := e.model - {d.content.target}, jobs := []), SavedErase(d', 0))
  {
    var e1 := Step(e, Advance(0, 0, 0));
    assert Without(e.jobs, 0) + [] == [Job(Erase(d'), None)];
    assert e1 == e.(model := e.model - {d.content.target}, jobs := [Job(Erase(d'), None)]);
    var e2 := Step(e1, Advance(0, 0, 0));
    assert Without(e1.jobs, 0) + [Job(KeepErase(d'), None)] == [Job(KeepErase(d'), None)];
    assert e2 == e1.(jobs := [Job(KeepErase(d'), None)]);
    assert Without(e2.jobs, 0) + [] == [];
    RunThree(e, Advance(0, 0, 0), Advance(0, 0, 0), Advance(0, 0, 0));
  }

  lemma SavedNow(e: Engine, d: Command)
    requires d.messageType == DELETE && d.content.DeleteMsg? && !d.fromAdmin && e.saved.table == map[]
    ensures SavedFor(SaveAction(e, SavedErase(d, 0)), d)
  {
  }

  lemma TwoDeletions(e: Engine, u: PubKey, d: Command, d': Command)
    requires HandlerInv(e) && !e.crashed && e.clock == 0 && e.saved.table == map[] && e.muted.table == map[]
    requires d.messageType == DELETE && d.content.DeleteMsg? && !d.fromAdmin
    requires d'.messageType == DELETE && d'.content.DeleteMsg? && !d'.fromAdmin
    requires d.content.target == d'.content.target && e.jobs == []
    requires d.content.target in e.model && e.model[d.content.target].sender == u
    ensures SavedFor(Run(e, UserCall(u, d, 0) + (UserCall(u, d', 1) + ThreeCalls)), d')
  {
    DeletionIsAllowed(e, u, d);
    var e1 := Run(e, UserCall(u, d, 0));
    DeletionIsAllowed(e1, u, d');
    var e2 := Run(e1, UserCall(u, d', 1));
    assert e2.jobs == [Job(Erase(d), None), Job(Erase(d'), None)];
    SecondDeletionMisses(e2, d, d');
    SavedNow(e2.(model := e2.model - {d.content.target}, jobs := []), d');
    RunAppend(e1, UserCall(u, d', 1), ThreeCalls);
    RunAppend(e, UserCall(u, d, 0), UserCall(u, d', 1) + ThreeCalls);
  }

  /** The author of a message deletes it twice at once: the second deletion, allowed while the
      message was there, finds it gone and is saved, although no admin sent it. */
  lemma UserDeletionIsSaved(text: Command, u: PubKey, d: Command, d': Command)
    requires text.messageType == TEXT && text.content.Plain? && !text.fromAdmin
    requires d.messageType == DELETE && d.content.DeleteMsg? && d.content.target == text.messageID && !d.fromAdmin
    requires d'.messageType == DELETE && d'.content.DeleteMsg? && d'.content.target == text.messageID && !d'.fromAdmin
    ensures SavedFor(Run(Init(), UserCall(u, text, 0) + (UserCall(u, d, 0) + (UserCall(u, d', 1) + ThreeCalls))), d')
  {
    InitInv();
    TextIsDelivered(text, u);
    TwoDeletions(Run(Init(), UserCall(u, text, 0)), u, d, d');
    RunAppend(Init(), UserCall(u, text, 0), UserCall(u, d, 0) + (UserCall(u, d', 1) + ThreeCalls));
  }
}
