/**
 * The first steps of handling a message, put together: what concrete runs are built from.
 */
module EngineRuns {
  import opened Wrappers
  import opened ChannelTypes
  import opened ChannelStorage
  import opened LeaseTrigger
  import opened LeaseOrder
  import opened LeasePass
  import opened LeaseIndex
  import opened LeaseDisk
  import opened ReplayBlocker
  import opened ActionSaver
  import opened MutedUsers
  import opened ChannelEngine
  import opened EngineInvariants
  import opened EngineSteps

  /** A one-hour mute or unmute of a user, with a payload version. */
  function MuteCommand(c: ChannelID, u: PubKey, version: nat, undo: bool, round: nat): Command {
    Command(c, 0, MUTE, MuteMsg(version, Some(u), undo), 0, 0, 0, HOUR, round, round, true)
  }

  function MuteKey(c: ChannelID, u: PubKey, version: nat): Key {
    Key(c, MUTE, MuteMsg(version, Some(u), true))
  }

  /** The steps that bring an admin's command past the lease system. */
  function Submission(cmd: Command, n: nat, t: Time): seq<Op> {
    [BeginAdmin(cmd), Advance(n, t, 0), Advance(n, t, 0)]
  }

  lemma RunOne(e: Engine, op: Op)
    ensures Run(e, [op]) == Step(e, op)
  {
    assert [op][1..] == [];
  }

  lemma RunThree(e: Engine, a: Op, b: Op, c: Op)
    ensures Run(e, [a, b, c]) == Step(Step(Step(e, a), b), c)
  {
    assert [a, b, c][1..] == [b, c];
    assert [b, c][1..] == [c];
    RunOne(Step(Step(e, a), b), c);
  }

  lemma LastWithout<T>(s: seq<T>, x: T)
    ensures Without(s + [x], |s|) == s
  {
  }

  /** Beginning a message and checking its saved actions. */
  lemma BeginAndCheck(e: Engine, sender: PubKey, cmd: Command, admin: bool, t: Time)
    requires !Has(e.saved.table, cmd.channel, cmd.messageID) && cmd.fromAdmin == admin && t >= e.clock
    ensures var muted := !admin && IsMuted(e.muted.table, cmd.channel, sender);
            StepAdvance(Begin(e, sender, cmd, admin), |e.jobs|, t, 0)
            == e.(clock := t, jobs := e.jobs + [Job(Call(sender, cmd, admin, muted), None)])
  {
    var muted := !admin && IsMuted(e.muted.table, cmd.channel, sender);
    LastWithout(e.jobs, Job(Check(sender, cmd, admin, muted), None));
  }

  /** An admin's mute is accepted and waits to be applied. */
  lemma MuteIsSubmitted(e: Engine, cmd: Command, t: Time)
    requires HandlerInv(e) && !e.crashed && !Has(e.saved.table, cmd.channel, cmd.messageID) && t >= e.clock
    requires cmd.messageType == MUTE && cmd.fromAdmin && cmd.content.MuteMsg? && cmd.content.user.Some?
    requires Submit(e, cmd, t, 0).0
    ensures var e' := Run(e, Submission(cmd, |e.jobs|, t));
            e' == Submit(e, cmd, t, 0).1.(clock := t, jobs := e.jobs + [Job(Silence(cmd), None)])
  {
    var n := |e.jobs|;
    var e2 := e.(clock := t, jobs := e.jobs + [Job(Call(ADMIN_KEY, cmd, true, false), None)]);
    RunThree(e, BeginAdmin(cmd), Advance(n, t, 0), Advance(n, t, 0));
    assert cmd.(fromAdmin := true) == cmd;
    BeginAndCheck(e, ADMIN_KEY, cmd, true, t);
    SubmitClock(e, e2, cmd, t);
    CallMute(e2, e.jobs, cmd, t);
  }

  /** The listener of a mute that the lease system accepts. */
  lemma CallMute(e: Engine, js: seq<Job>, cmd: Command, t: Time)
    requires HandlerInv(e) && e.clock == t && e.jobs == js + [Job(Call(ADMIN_KEY, cmd, true, false), None)]
    requires cmd.messageType == MUTE && cmd.content.MuteMsg? && cmd.content.user.Some?
    requires Submit(e, cmd, t, 0).0
    ensures StepAdvance(e, |js|, t, 0) == Submit(e, cmd, t, 0).1.(jobs := js + [Job(Silence(cmd), None)])
  {
    var call := Job(Call(ADMIN_KEY, cmd, true, false), None);
    assert e.handlers[MUTE] == DEFAULTS[MUTE];
    assert HandlerFor(e, call.task) == Some(DEFAULTS[MUTE]);
    LastWithout(js, call);
    assert e.(clock := Later(e, t)) == e;
    assert RunJob(e, call, t, 0) == (Submit(e, cmd, t, 0).1, [Job(Silence(cmd), None)]);
  }

  /** Submitting does not look at clock and jobs. */
  lemma SubmitClock(e: Engine, e2: Engine, cmd: Command, t: Time)
    requires (cmd.content.PinnedMsg? || cmd.content.MuteMsg?) && e2 == e.(clock := e2.clock, jobs := e2.jobs)
    ensures Submit(e2, cmd, t, 0).0 == Submit(e, cmd, t, 0).0
    ensures Submit(e2, cmd, t, 0).1 == Submit(e, cmd, t, 0).1.(clock := e2.clock, jobs := e2.jobs)
  {
  }

  /** Applying an accepted mute. */
  lemma MuteIsApplied(e: Engine, i: nat, cmd: Command, t: Time)
    requires !e.crashed && i < |e.jobs| && e.jobs[i] == Job(Silence(cmd), None) && t >= e.clock
    requires cmd.content.MuteMsg? && cmd.content.user.Some?
    ensures Step(e, Advance(i, t, 0)) == SilenceUser(e, cmd).(clock := t, jobs := Without(e.jobs, i))
  {
    assert Without(e.jobs, i) + [] == Without(e.jobs, i);
  }

  /** A one-hour command is accepted at its own time unless a contradicting one blocks it. */
  lemma MuteIsAccepted(e: Engine, c: ChannelID, u: PubKey, version: nat, undo: bool, round: nat, t: Time)
    requires 0 <= t < HOUR
    requires Has(e.ledger.commands.table, c, MuteKey(c, u, version)) ==>
               || e.ledger.commands.table[c][MuteKey(c, u, version)].round < round
               || e.ledger.commands.table[c][MuteKey(c, u, version)].unsanitized == MuteMsg(version, Some(u), undo)
    ensures Submit(e, MuteCommand(c, u, version, undo, round), t, 0).0
  {
    DroppedExactlyWhenElapsed(t, 0, HOUR, 0);
  }

  /** A restart of an engine without leases. */
  lemma EmptyRestart(e: Engine, t: Time)
    requires Inv(e) && e.leases == [] && e.disk == Image({}, map[]) && t >= e.clock
    ensures var e' := Step(e, Restart(t, map[], []));
            e'.muted == e.muted && e'.ledger == e.ledger && e'.jobs == [] && e'.leases == [] && !e'.crashed
  {
    assert TableOf([]) == map[] == ReloadTable(e.disk, t, map[]);
    RestartKeepsInv(e, t, map[], []);
    LoadRebuilds(e.muted);
    LoadRebuilds(e.ledger.commands);
  }

  /** Handling a mute or unmute from beginning to end. */
  function Handled(e: Engine, cmd: Command): Engine
    requires cmd.content.MuteMsg? && cmd.content.user.Some?
  {
    SilenceUser(Submit(e, cmd, 0, 0).1, cmd)
  }

  lemma HandleOne(e: Engine, cmd: Command)
    requires HandlerInv(e) && !e.crashed && e.jobs == [] && e.clock == 0
    requires !Has(e.saved.table, cmd.channel, cmd.messageID)
    requires cmd.messageType == MUTE && cmd.fromAdmin && cmd.content.MuteMsg? && cmd.content.user.Some?
    requires Submit(e, cmd, 0, 0).0
    ensures Run(e, Submission(cmd, 0, 0) + [Advance(0, 0, 0)]) == Handled(e, cmd)
    ensures var e' := Handled(e, cmd);
            HandlerInv(e') && !e'.crashed && e'.jobs == [] && e'.clock == 0 && e'.saved == e.saved
            && e'.ledger == Accept(e.ledger, cmd, Sanitize(cmd.content)) && e'.leases == e.leases
  {
    MuteIsSubmitted(e, cmd, 0);
    SubmitFacts(e, cmd, 0, 0);
    var e1 := Run(e, Submission(cmd, 0, 0));
    RunAppend(e, Submission(cmd, 0, 0), [Advance(0, 0, 0)]);
    RunOne(e1, Advance(0, 0, 0));
    assert e1.jobs == [Job(Silence(cmd), None)];
    MuteIsApplied(e1, 0, cmd, 0);
    assert Without(e1.jobs, 0) == [];
  }

  /** The lease that a one-hour mute gets. */
  function MuteLease(c: ChannelID, u: PubKey, version: nat): Lease {
    Lease(MuteKey(c, u, version), 0, HOUR, HOUR, HOUR)
  }

  /** An iteration at time zero. */
  const ZeroReading := Reading(0, 0, map[])

  /** A pass with nothing due changes nothing. */
  lemma QuietPass(e: Engine, r: Reading)
    requires forall l :: l in e.leases ==> !Due(l, r.now)
    ensures PassOver(e, r) == e.(clock := r.later)
  {
    var s, b := e.leases, e.ledger.bodies;
    NothingAfterDue([], s, b, r);
    ReplayedLeasesAfterDue([], s, b, r);
    assert [] + s == s;
    AllKept(s, r.now);
    assert InsertAll(s, []) == s;
    assert e.undos + [] == e.undos;
    assert Forgotten(s, b, r) == [];
    assert RemoveEach(s, []) == s;
    assert StorePass(e.disk, s, b, r) == e.disk;
  }

  lemma {:induction false} AllKept(s: seq<Lease>, now: Time)
    requires forall l :: l in s ==> !Due(l, now)
    ensures Kept(s, now) == s
  {
    if s != [] {
      assert forall l :: l in s[1..] ==> l in s;
      AllKept(s[1..], now);
      assert s == [s[0]] + s[1..];
    }
  }

  /** The lease thread takes the lease of a mute at time zero. */
  lemma TakesMute(e: Engine, c: ChannelID, u: PubKey, version: nat)
    requires !e.crashed && e.clock == 0 && e.leases == [] && |e.adds| > 0
    requires e.adds[0].lease == MuteLease(c, u, version)
    ensures var e' := Step(e, Loop(PickAdd(0), ZeroReading));
            e' == e.(adds := e.adds[1..], leases := [MuteLease(c, u, version)], disk := e'.disk)
  {
    TakesFirst(e);
    ZeroIteration(e, PickAdd(0), TakeAdd(e, 0));
  }

  /** An iteration at time zero with nothing due. */
  lemma ZeroIteration(e: Engine, choice: Choice, e1: Engine)
    requires !e.crashed && e1 == Select(e, choice) && !e1.crashed && e1.clock == 0
    requires forall l :: l in e1.leases ==> !Due(l, 0)
    ensures Step(e, Loop(choice, ZeroReading)) == e1
  {
    QuietPass(e1, ZeroReading);
    assert Monotone(e1, ZeroReading) == ZeroReading;
  }

  lemma TakesFirst(e: Engine)
    requires e.leases == [] && |e.adds| > 0
    ensures var e' := TakeAdd(e, 0); e' == e.(adds := e.adds[1..], leases := [e.adds[0].lease], disk := e'.disk)
  {
    assert Without(e.adds, 0) == e.adds[1..];
    assert Insert([], e.adds[0].lease) == [e.adds[0].lease];
  }

  /** Submitting a one-hour mute at time zero queues its lease. */
  lemma SubmitQueues(e: Engine, c: ChannelID, u: PubKey, version: nat, round: nat)
    requires Submit(e, MuteCommand(c, u, version, false, round), 0, 0).0
    ensures var e1 := Submit(e, MuteCommand(c, u, version, false, round), 0, 0).1;
            |e1.adds| == |e.adds| + 1 && e1.adds[..|e.adds|] == e.adds && e1.removes == e.removes
            && e1.adds[|e.adds|].lease == MuteLease(c, u, version)
  {
    DroppedExactlyWhenElapsed(0, 0, HOUR, 0);
  }

  /** Submitting an unmute queues the removal of the lease. */
  lemma SubmitUnqueues(e: Engine, c: ChannelID, u: PubKey, version: nat, round: nat)
    requires Submit(e, MuteCommand(c, u, version, true, round), 0, 0).0
    ensures var e1 := Submit(e, MuteCommand(c, u, version, true, round), 0, 0).1;
            e1 == e.(ledger := e1.ledger, removes := e.removes + [MuteKey(c, u, version)])
  {
  }
}
