/**
 * Muting over whole runs: who is muted, and when the muted list and the replay blocker
 * agree about it.
 */
module MuteTheorems {
  import opened Wrappers
  import opened ChannelTypes
  import opened ChannelStorage
  import opened LeaseTrigger
  import opened LeaseOrder
  import opened LeaseIndex
  import opened LeaseDisk
  import opened ReplayBlocker
  import opened ActionSaver
  import opened MutedUsers
  import opened ChannelEngine
  import opened EngineInvariants
  import opened EngineSteps
  import opened EngineRuns

  // ----- Who is muted -----

  /** What was last applied to a user in a run; b is what held before it. */
  ghost function LastApplied(e: Engine, ops: seq<Op>, c: ChannelID, u: PubKey, b: bool): bool
    decreases |ops|
  {
    if ops == [] then b
    else
      var a := Applying(e, ops[0], c, u);
      LastApplied(Step(e, ops[0]), ops[1..], c, u, if a.Some? then a.value else b)
  }

  lemma {:induction false} MutedFollows(e: Engine, ops: seq<Op>, c: ChannelID, u: PubKey)
    requires Inv(e)
    ensures IsMuted(Run(e, ops).muted.table, c, u) <==> LastApplied(e, ops, c, u, IsMuted(e.muted.table, c, u))
    decreases |ops|
  {
    if ops != [] {
      StepKeepsInv(e, ops[0]);
      MutedAfter(e, ops[0], c, u);
      MutedFollows(Step(e, ops[0]), ops[1..], c, u);
    }
  }

  /** In every run, restarts and leaving included, a user is muted exactly when the last
      thing applied to them was a mute. */
  lemma MutedIsLastApplied(ops: seq<Op>, c: ChannelID, u: PubKey)
    ensures IsMuted(Run(Init(), ops).muted.table, c, u) <==> LastApplied(Init(), ops, c, u, false)
  {
    InitInv();
    MutedFollows(Init(), ops, c, u);
  }

  // ----- Agreement with the blocker -----

  /** The blocker holds a command for the user. */
  predicate Entered(e: Engine, c: ChannelID, u: PubKey, v: nat) {
    Has(e.ledger.commands.table, c, MuteKey(c, u, v))
  }

  function EntryFor(e: Engine, c: ChannelID, u: PubKey, v: nat): Content
    requires Entered(e, c, u, v)
  {
    e.ledger.commands.table[c][MuteKey(c, u, v)].unsanitized
  }

  /** The blocker's entry for a user, if there is one, is the mute exactly when the user
      is muted. */
  ghost predicate AgreesFor(e: Engine, c: ChannelID, u: PubKey, v: nat) {
    Entered(e, c, u, v) ==> EntryFor(e, c, u, v) == MuteMsg(v, Some(u), !IsMuted(e.muted.table, c, u))
  }

  /** An accepted command for the user with this payload waits to be applied. */
  ghost predicate Waits(e: Engine, c: ChannelID, u: PubKey, content: Content) {
    exists j :: j in e.jobs && WaitsAs(j, c, u, content)
  }

  predicate WaitsAs(j: Job, c: ChannelID, u: PubKey, content: Content) {
    j.task.Silence? && Targets(j.task.command, c, u) && j.task.command.content == content
  }

  /** What a step applies to the user contradicts what the blocker holds at that time. */
  ghost predicate Overtaken(e: Engine, op: Op, c: ChannelID, u: PubKey, v: nat) {
    Applying(e, op, c, u).Some? && Entered(e, c, u, v)
    && EntryFor(e, c, u, v) != MuteMsg(v, Some(u), !Applying(e, op, c, u).value)
  }

  /** The blocker's own command for the user waits to be applied. */
  ghost predicate EntryWaits(e: Engine, c: ChannelID, u: PubKey, v: nat) {
    Entered(e, c, u, v) && Waits(e, c, u, EntryFor(e, c, u, v))
  }

  /** A process ends before the blocker's command is applied, which would have changed the
      muted list. */
  ghost predicate Missed(e: Engine, c: ChannelID, u: PubKey, v: nat) {
    EntryWaits(e, c, u, v) && EntryFor(e, c, u, v) != MuteMsg(v, Some(u), !IsMuted(e.muted.table, c, u))
  }

  ghost function LateAfter(e: Engine, op: Op, c: ChannelID, u: PubKey, v: nat, late: bool): bool {
    if Applying(e, op, c, u).Some? then Overtaken(e, op, c, u, v)
    else if op.Restart? && EntryWaits(e, c, u, v) then Missed(e, c, u, v)
    else late
  }

  /** Whether the last thing applied to the user was overtaken, or missed when a process
      ended after it. */
  ghost function LateLast(e: Engine, ops: seq<Op>, c: ChannelID, u: PubKey, v: nat, late: bool): bool
    decreases |ops|
  {
    if ops == [] then late else LateLast(Step(e, ops[0]), ops[1..], c, u, v, LateAfter(e, ops[0], c, u, v, late))
  }

  /** The entry's own application is still to come, or the last one decided. */
  ghost predicate MuteInv(e: Engine, c: ChannelID, u: PubKey, v: nat, late: bool) {
    Entered(e, c, u, v) ==> Waits(e, c, u, EntryFor(e, c, u, v)) || (AgreesFor(e, c, u, v) <==> !late)
  }

  function Sanitized(cmd: Command): Content {
    if cmd.content.PinnedMsg? || cmd.content.MuteMsg? then Sanitize(cmd.content) else NoContent
  }

  /** The step gets a command for this key accepted. */
  predicate AcceptsFor(e: Engine, op: Op, k: Key) {
    Accepted(e, op).Some? && SanitizedKey(Accepted(e, op).value, Sanitized(Accepted(e, op).value)) == k
  }

  /** What a step does to the entry of a user. */
  lemma EntryAfter(e: Engine, op: Op, c: ChannelID, u: PubKey, v: nat)
    requires Inv(e) && !op.Loop?
    ensures var e' := Step(e, op);
            if AcceptsFor(e, op, MuteKey(c, u, v))
            then Entered(e', c, u, v) && EntryFor(e', c, u, v) == Accepted(e, op).value.content
            else (Entered(e', c, u, v) <==> Entered(e, c, u, v))
                 && (Entered(e, c, u, v) ==> EntryFor(e', c, u, v) == EntryFor(e, c, u, v))
  {
    LedgerAfter(e, op);
    var acc := Accepted(e, op);
    if acc.Some? {
      var cmd, s := acc.value, Sanitized(acc.value);
      PutLookup(e.ledger.commands.table, cmd.channel, SanitizedKey(cmd, s), NewEntry(cmd, s), c, MuteKey(c, u, v));
    }
  }

  lemma UpdatesSubmitPins(e: Engine, op: Op)
    requires Inv(e) && op.RunUpdate?
    ensures Submitting(e, op).Some? ==> Submitting(e, op).value.messageType == PINNED
  {
    if op.i < |e.updates| {
      assert e.updates[op.i] in e.updates && UpdateOk(e.updates[op.i]);
    }
  }

  /** A mute is only ever submitted by its listener. */
  lemma AcceptedByCall(e: Engine, op: Op, c: ChannelID, u: PubKey, v: nat)
    requires Inv(e) && AcceptsFor(e, op, MuteKey(c, u, v))
    ensures !e.crashed && op.Advance? && op.i < |e.jobs| && e.jobs[op.i].task.Call?
    ensures var cmd := Accepted(e, op).value;
            e.jobs[op.i].task.command == cmd && Targets(cmd, c, u) && cmd.content.version == v
            && Handed(HandlerFor(e, e.jobs[op.i].task), cmd) == Some(cmd)
  {
    AcceptedContent(e, op);
    if op.RunUpdate? {
      UpdatesSubmitPins(e, op);
    }
  }

  /** An accepted mute waits to be applied. */
  lemma AcceptedWaits(e: Engine, op: Op, c: ChannelID, u: PubKey, v: nat)
    requires Inv(e) && AcceptsFor(e, op, MuteKey(c, u, v))
    ensures Waits(Step(e, op), c, u, Accepted(e, op).value.content)
  {
    var cmd := Accepted(e, op).value;
    AcceptedByCall(e, op, c, u, v);
    var e1, j := e.(clock := Later(e, op.now)), e.jobs[op.i];
    CallEffect(e1, j, Later(e, op.now), op.seed);
    var h := HandlerFor(e, j.task);
    ListenLedger(e1, h.value, j.task.sender, cmd, Later(e, op.now), op.seed);
    VerdictIsLedgers(e, e1, cmd, Later(e, op.now), op.seed);
    var next := Job(Silence(cmd), j.update);
    assert next in Step(e, op).jobs && WaitsAs(next, c, u, cmd.content);
  }

  /** A waiting command keeps waiting while nothing is applied to the user. */
  lemma WaitsOn(e: Engine, op: Op, c: ChannelID, u: PubKey, content: Content)
    requires Inv(e) && Waits(e, c, u, content) && !op.Restart? && Applying(e, op, c, u).None?
    ensures Waits(Step(e, op), c, u, content)
  {
    var j :| j in e.jobs && WaitsAs(j, c, u, content);
    JobsStay(e, op, j);
    assert j in Step(e, op).jobs;
  }

  /** Steps that apply nothing to the user. */
  lemma IdleStepKeeps(e: Engine, op: Op, c: ChannelID, u: PubKey, v: nat, late: bool)
    requires Inv(e) && MuteInv(e, c, u, v, late) && !op.Restart? && Applying(e, op, c, u).None?
    ensures MuteInv(Step(e, op), c, u, v, late)
  {
    MutedAfter(e, op, c, u);
    if Entered(e, c, u, v) && Waits(e, c, u, EntryFor(e, c, u, v)) {
      WaitsOn(e, op, c, u, EntryFor(e, c, u, v));
    }
    if op.Loop? {
      if !e.crashed {
        StepIsLoop(e, op);
        LoopOnlyForgets(e, op.choice, op.reading, c, MuteKey(c, u, v));
      }
    } else {
      EntryAfter(e, op, c, u, v);
      if AcceptsFor(e, op, MuteKey(c, u, v)) {
        AcceptedWaits(e, op, c, u, v);
      }
    }
  }

  /** Something is applied to the user: from now on that decides. */
  lemma ApplyingKeeps(e: Engine, op: Op, c: ChannelID, u: PubKey, v: nat)
    requires Inv(e) && Applying(e, op, c, u).Some?
    ensures MuteInv(Step(e, op), c, u, v, Overtaken(e, op, c, u, v))
  {
    MutedAfter(e, op, c, u);
    assert Submitting(e, op).None?;
    EntryAfter(e, op, c, u, v);
  }

  lemma RestartKeeps(e: Engine, op: Op, c: ChannelID, u: PubKey, v: nat, late: bool)
    requires Inv(e) && MuteInv(e, c, u, v, late) && op.Restart?
    ensures MuteInv(Step(e, op), c, u, v, LateAfter(e, op, c, u, v, late))
  {
    RestartKeepsInv(e, op.now, op.seeds, op.loaded);
  }

  lemma StepKeepsMuteInv(e: Engine, op: Op, c: ChannelID, u: PubKey, v: nat, late: bool)
    requires Inv(e) && MuteInv(e, c, u, v, late)
    ensures MuteInv(Step(e, op), c, u, v, LateAfter(e, op, c, u, v, late))
  {
    if op.Restart? {
      RestartKeeps(e, op, c, u, v, late);
    } else if Applying(e, op, c, u).Some? {
      ApplyingKeeps(e, op, c, u, v);
    } else {
      IdleStepKeeps(e, op, c, u, v, late);
    }
  }

  lemma {:induction false} RunKeepsMuteInv(e: Engine, ops: seq<Op>, c: ChannelID, u: PubKey, v: nat, late: bool)
    requires Inv(e) && MuteInv(e, c, u, v, late)
    ensures MuteInv(Run(e, ops), c, u, v, LateLast(e, ops, c, u, v, late))
    decreases |ops|
  {
    if ops != [] {
      StepKeepsInv(e, ops[0]);
      StepKeepsMuteInv(e, ops[0], c, u, v, late);
      RunKeepsMuteInv(Step(e, ops[0]), ops[1..], c, u, v, LateAfter(e, ops[0], c, u, v, late));
    }
  }

  /** In every run, once the blocker's command for the user no longer waits, blocker and
      muted list agree about the user exactly when the last thing applied to them was not
      overtaken, that is, did not contradict what the blocker held when it was applied, and
      no process that ended after it missed a command that would have changed the list. */
  lemma LastApplicationDecides(ops: seq<Op>, c: ChannelID, u: PubKey, v: nat)
    requires var e := Run(Init(), ops); Entered(e, c, u, v) && !EntryWaits(e, c, u, v)
    ensures AgreesFor(Run(Init(), ops), c, u, v) <==> !LateLast(Init(), ops, c, u, v, false)
  {
    InitInv();
    RunKeepsMuteInv(Init(), ops, c, u, v, false);
  }

  // ----- One payload version -----

  predicate VersionIn(vs: set<nat>, content: Content) {
    content.MuteMsg? ==> content.version in vs
  }

  /** Steps of a run in which mutes carry only these payload versions. */
  predicate Allowed(op: Op, vs: set<nat>) {
    match op
    case BeginUser(_, cmd) => VersionIn(vs, cmd.content)
    case BeginAdmin(cmd) => VersionIn(vs, cmd.content)
    case _ => true
  }

  ghost predicate AllAllowed(ops: seq<Op>, vs: set<nat>) {
    forall op :: op in ops ==> Allowed(op, vs)
  }

  ghost predicate AtMostOne(vs: set<nat>) {
    forall a, b :: a in vs && b in vs ==> a == b
  }

  ghost predicate JobsIn(e: Engine, vs: set<nat>) {
    forall j :: j in e.jobs ==> VersionIn(vs, j.task.command.content)
  }

  /** Every message being handled and every entry carries an allowed version. */
  ghost predicate VersionsIn(e: Engine, vs: set<nat>) {
    && JobsIn(e, vs)
    && (forall c, u, v: nat :: Entered(e, c, u, v) ==> v in vs)
  }

  lemma JobVersions(e: Engine, op: Op, vs: set<nat>, j: Job)
    requires Inv(e) && JobsIn(e, vs) && Allowed(op, vs) && j in Step(e, op).jobs
    ensures VersionIn(vs, j.task.command.content)
  {
    if j !in e.jobs {
      StepKeepsInv(e, op);
      assert JobOk(j);
      JobsAfter(e, op, j);
      if op.Advance? {
        assert e.jobs[op.i] in e.jobs;
      }
    }
  }

  lemma EntryVersions(e: Engine, op: Op, vs: set<nat>, c: ChannelID, u: PubKey, v: nat)
    requires Inv(e) && JobsIn(e, vs) && (Entered(e, c, u, v) ==> v in vs) && Entered(Step(e, op), c, u, v)
    ensures v in vs
  {
    if op.Loop? {
      if !e.crashed {
        StepIsLoop(e, op);
        LoopOnlyForgets(e, op.choice, op.reading, c, MuteKey(c, u, v));
      }
    } else {
      EntryAfter(e, op, c, u, v);
      if AcceptsFor(e, op, MuteKey(c, u, v)) {
        AcceptedByCall(e, op, c, u, v);
        assert e.jobs[op.i] in e.jobs;
      }
    }
  }

  lemma StepKeepsVersions(e: Engine, op: Op, vs: set<nat>)
    requires Inv(e) && VersionsIn(e, vs) && Allowed(op, vs)
    ensures VersionsIn(Step(e, op), vs)
  {
    forall j | j in Step(e, op).jobs ensures VersionIn(vs, j.task.command.content) {
      JobVersions(e, op, vs, j);
    }
    forall c, u, v: nat | Entered(Step(e, op), c, u, v) ensures v in vs {
      EntryVersions(e, op, vs, c, u, v);
    }
  }

  /** A mute or unmute is applied although the blocker by now holds the contrary for its own
      fingerprint: another command came in between its acceptance and its application. */
  predicate AppliedLate(e: Engine, op: Op) {
    && !e.crashed && op.Advance? && op.i < |e.jobs| && e.jobs[op.i].task.Silence?
    && var cmd := e.jobs[op.i].task.command;
       Has(e.ledger.commands.table, cmd.channel, SanitizedKey(cmd, Sanitized(cmd)))
       && e.ledger.commands.table[cmd.channel][SanitizedKey(cmd, Sanitized(cmd))].unsanitized != cmd.content
  }

  /** No step applies a command late, leaves a channel, or ends the process while an
      accepted command waits. */
  ghost predicate Prompt(e: Engine, ops: seq<Op>)
    decreases |ops|
  {
    ops != [] ==>
      && !AppliedLate(e, ops[0]) && !ops[0].Leave?
      && (ops[0].Restart? ==> AllSettled(e))
      && Prompt(Step(e, ops[0]), ops[1..])
  }

  ghost predicate AllSettled(e: Engine) {
    forall j :: j in e.jobs ==> !j.task.Silence?
  }

  ghost predicate MuteAgrees(e: Engine) {
    forall c, u, v: nat :: AgreesFor(e, c, u, v)
  }

  lemma PromptNotOvertaken(e: Engine, op: Op, vs: set<nat>, c: ChannelID, u: PubKey, v: nat)
    requires Inv(e) && VersionsIn(e, vs) && AtMostOne(vs) && !AppliedLate(e, op) && !op.Leave?
    ensures !Overtaken(e, op, c, u, v)
  {
    if Applying(e, op, c, u).Some? && Entered(e, c, u, v) {
      assert e.jobs[op.i] in e.jobs && JobOk(e.jobs[op.i]);
      assert e.jobs[op.i].task.command.content.version == v;
    }
  }

  lemma {:induction false} PromptRunAgrees(e: Engine, ops: seq<Op>, vs: set<nat>, c: ChannelID, u: PubKey, v: nat)
    requires Inv(e) && VersionsIn(e, vs) && AtMostOne(vs) && AllAllowed(ops, vs) && Prompt(e, ops)
    requires MuteInv(e, c, u, v, false)
    ensures MuteInv(Run(e, ops), c, u, v, false)
    decreases |ops|
  {
    if ops != [] {
      assert ops[0] in ops && forall op :: op in ops[1..] ==> op in ops;
      StepKeepsInv(e, ops[0]);
      StepKeepsVersions(e, ops[0], vs);
      PromptNotOvertaken(e, ops[0], vs, c, u, v);
      StepKeepsMuteInv(e, ops[0], c, u, v, false);
      PromptRunAgrees(Step(e, ops[0]), ops[1..], vs, c, u, v);
    }
  }

  // ----- Runs that disagree -----

  /** Mute with one version, then unmute with another, each applied at once. */
  function TwoVersionRun(c: ChannelID, u: PubKey, v: nat, w: nat): seq<Op> {
    Submission(MuteCommand(c, u, v, false, 1), 0, 0) + [Advance(0, 0, 0)]
    + (Submission(MuteCommand(c, u, w, true, 2), 0, 0) + [Advance(0, 0, 0)])
  }

  lemma TwoVersionsDisagree(c: ChannelID, u: PubKey, v: nat, w: nat)
    requires v != w
    ensures var e := Run(Init(), TwoVersionRun(c, u, v, w)); !AgreesFor(e, c, u, v) && AllSettled(e)
  {
    var a, b := MuteCommand(c, u, v, false, 1), MuteCommand(c, u, w, true, 2);
    InitInv();
    MuteIsAccepted(Init(), c, u, v, false, 1, 0);
    HandleOne(Init(), a);
    AcceptedLookup(Init().ledger, a, c, u, v);
    AcceptedLookup(Init().ledger, a, c, u, w);
    OtherVersionUnmutes(Handled(Init(), a), c, u, v, w);
    RunAppend(Init(), Submission(a, 0, 0) + [Advance(0, 0, 0)], Submission(b, 0, 0) + [Advance(0, 0, 0)]);
  }

  /** What accepting a mute does to the entries of its user. */
  lemma AcceptedLookup(l: Ledger, cmd: Command, c: ChannelID, u: PubKey, v: nat)
    requires cmd.content.MuteMsg?
    ensures var t, k, s := l.commands.table, MuteKey(c, u, v), Sanitize(cmd.content);
            var t' := Accept(l, cmd, s).commands.table;
            if SanitizedKey(cmd, s) == k then Has(t', c, k) && t'[c][k] == NewEntry(cmd, s)
            else (Has(t', c, k) <==> Has(t, c, k)) && (Has(t, c, k) ==> t'[c][k] == t[c][k])
  {
    var s := Sanitize(cmd.content);
    PutLookup(l.commands.table, cmd.channel, SanitizedKey(cmd, s), NewEntry(cmd, s), c, MuteKey(c, u, v));
  }

  lemma OtherVersionUnmutes(e: Engine, c: ChannelID, u: PubKey, v: nat, w: nat)
    requires HandlerInv(e) && !e.crashed && e.jobs == [] && e.clock == 0 && e.saved.table == map[] && v != w
    requires Entered(e, c, u, v) && EntryFor(e, c, u, v) == MuteMsg(v, Some(u), false) && !Entered(e, c, u, w)
    ensures var e' := Run(e, Submission(MuteCommand(c, u, w, true, 2), 0, 0) + [Advance(0, 0, 0)]);
            e'.jobs == [] && !AgreesFor(e', c, u, v)
  {
    var b := MuteCommand(c, u, w, true, 2);
    MuteIsAccepted(e, c, u, w, true, 2, 0);
    HandleOne(e, b);
    AcceptedLookup(e.ledger, b, c, u, v);
    RemoveLookup(Submit(e, b, 0, 0).1.muted.table, c, u, c, u);
  }

  lemma PromptHead(e: Engine, ops: seq<Op>)
    requires ops != []
    ensures Prompt(e, ops) <==>
              && !AppliedLate(e, ops[0]) && !ops[0].Leave? && (ops[0].Restart? ==> AllSettled(e))
              && Prompt(Step(e, ops[0]), ops[1..])
  {
  }

  lemma {:induction false} PromptAppend(e: Engine, a: seq<Op>, b: seq<Op>)
    requires Prompt(e, a) && Prompt(Run(e, a), b)
    ensures Prompt(e, a + b)
    decreases |a|
  {
    if a == [] {
      assert a + b == b;
    } else {
      assert (a + b)[0] == a[0] && (a + b)[1..] == a[1..] + b;
      PromptHead(e, a);
      PromptHead(e, a + b);
      PromptAppend(Step(e, a[0]), a[1..], b);
    }
  }

  lemma PromptOne(e: Engine, op: Op)
    requires !AppliedLate(e, op) && !op.Leave? && !op.Restart?
    ensures Prompt(e, [op])
  {
    assert [op][1..] == [];
  }

  lemma SubmissionIsPrompt(e: Engine, cmd: Command)
    requires e.jobs == [] && !e.crashed && e.clock == 0 && cmd.fromAdmin
    requires !Has(e.saved.table, cmd.channel, cmd.messageID)
    ensures Prompt(e, Submission(cmd, 0, 0))
  {
    var e1 := Step(e, BeginAdmin(cmd));
    PromptOne(e, BeginAdmin(cmd));
    assert e1.jobs == [Job(Check(ADMIN_KEY, cmd.(fromAdmin := true), true, false), None)];
    PromptOne(e1, Advance(0, 0, 0));
    BeginAndCheck(e, ADMIN_KEY, cmd, true, 0);
    var e2 := Step(e1, Advance(0, 0, 0));
    assert cmd.(fromAdmin := true) == cmd;
    assert e2.jobs == [Job(Call(ADMIN_KEY, cmd, true, false), None)];
    PromptOne(e2, Advance(0, 0, 0));
    RunOne(e1, Advance(0, 0, 0));
    RunOne(e, BeginAdmin(cmd));
    PromptAppend(e1, [Advance(0, 0, 0)], [Advance(0, 0, 0)]);
    PromptAppend(e, [BeginAdmin(cmd)], [Advance(0, 0, 0)] + [Advance(0, 0, 0)]);
    assert [BeginAdmin(cmd)] + ([Advance(0, 0, 0)] + [Advance(0, 0, 0)]) == Submission(cmd, 0, 0);
  }

  lemma HandleIsPrompt(e: Engine, cmd: Command)
    requires HandlerInv(e) && !e.crashed && e.jobs == [] && e.clock == 0
    requires !Has(e.saved.table, cmd.channel, cmd.messageID)
    requires cmd.messageType == MUTE && cmd.fromAdmin && cmd.content.MuteMsg? && cmd.content.user.Some?
    requires Submit(e, cmd, 0, 0).0
    ensures Prompt(e, Submission(cmd, 0, 0) + [Advance(0, 0, 0)])
  {
    SubmissionIsPrompt(e, cmd);
    MuteIsSubmitted(e, cmd, 0);
    SubmitFacts(e, cmd, 0, 0);
    var e1, s := Run(e, Submission(cmd, 0, 0)), Sanitize(cmd.content);
    var k := SanitizedKey(cmd, s);
    PutLookup(e.ledger.commands.table, cmd.channel, k, NewEntry(cmd, s), cmd.channel, k);
    assert e1.jobs == [Job(Silence(cmd), None)];
    PromptOne(e1, Advance(0, 0, 0));
    PromptAppend(e, Submission(cmd, 0, 0), [Advance(0, 0, 0)]);
  }

  lemma TwoVersionsArePrompt(c: ChannelID, u: PubKey, v: nat, w: nat)
    requires v != w
    ensures Prompt(Init(), TwoVersionRun(c, u, v, w))
  {
    var a, b := MuteCommand(c, u, v, false, 1), MuteCommand(c, u, w, true, 2);
    InitInv();
    MuteIsAccepted(Init(), c, u, v, false, 1, 0);
    HandleOne(Init(), a);
    HandleIsPrompt(Init(), a);
    var e1 := Handled(Init(), a);
    PutLookup(Init().ledger.commands.table, c, MuteKey(c, u, v), NewEntry(a, Sanitize(a.content)), c, MuteKey(c, u, w));
    MuteIsAccepted(e1, c, u, w, true, 2, 0);
    HandleIsPrompt(e1, b);
    PromptAppend(Init(), Submission(a, 0, 0) + [Advance(0, 0, 0)], Submission(b, 0, 0) + [Advance(0, 0, 0)]);
  }

  /** In every run in which no command is applied late, no channel left and no accepted
      command lost to a restart, the blocker's entry for a user, once nothing waits to be
      applied, is the mute exactly when the user is muted: provided all mutes carry one
      payload version, and not otherwise. */
  lemma MuteAgreementExactly(vs: set<nat>)
    ensures (forall ops :: AllAllowed(ops, vs) && Prompt(Init(), ops) && AllSettled(Run(Init(), ops)) ==>
               MuteAgrees(Run(Init(), ops)))
       <==> AtMostOne(vs)
  {
    InitInv();
    if AtMostOne(vs) {
      forall ops | AllAllowed(ops, vs) && Prompt(Init(), ops) && AllSettled(Run(Init(), ops))
        ensures MuteAgrees(Run(Init(), ops))
      {
        forall c, u, v: nat ensures AgreesFor(Run(Init(), ops), c, u, v) {
          PromptRunAgrees(Init(), ops, vs, c, u, v);
        }
      }
    } else {
      var v, w :| v in vs && w in vs && v != w;
      var ops := TwoVersionRun(0, 1, v, w);
      TwoVersionsDisagree(0, 1, v, w);
      TwoVersionsArePrompt(0, 1, v, w);
      assert AllAllowed(ops, vs);
      assert !MuteAgrees(Run(Init(), ops));
    }
  }

  /** Accept a mute, accept and apply the unmute that follows it, then apply the mute. */
  function OvertakingRun(c: ChannelID, u: PubKey, v: nat): seq<Op> {
    Submission(MuteCommand(c, u, v, false, 1), 0, 0)
    + (Submission(MuteCommand(c, u, v, true, 2), 1, 0) + [Advance(1, 0, 0), Advance(0, 0, 0)])
  }

  /** With one payload version: the unmute of round 2 overtakes the application of the mute
      of round 1. The blocker holds the unmute and the user stays muted. */
  lemma OvertakenMuteDisagrees(c: ChannelID, u: PubKey, v: nat)
    ensures var e := Run(Init(), OvertakingRun(c, u, v));
            && AllSettled(e) && Entered(e, c, u, v) && EntryFor(e, c, u, v) == MuteMsg(v, Some(u), true)
            && IsMuted(e.muted.table, c, u) && !AgreesFor(e, c, u, v)
  {
    var a, b := MuteCommand(c, u, v, false, 1), MuteCommand(c, u, v, true, 2);
    var e0, k := Init(), MuteKey(c, u, v);
    InitInv();
    MuteIsAccepted(e0, c, u, v, false, 1, 0);
    MuteIsSubmitted(e0, a, 0);
    SubmitFacts(e0, a, 0, 0);
    var e1 := Run(e0, Submission(a, 0, 0));
    PutLookup(e0.ledger.commands.table, c, k, NewEntry(a, Sanitize(a.content)), c, k);
    OvertakingEnd(e1, c, u, v);
    RunAppend(e0, Submission(a, 0, 0), Submission(b, 1, 0) + [Advance(1, 0, 0), Advance(0, 0, 0)]);
  }

  lemma OvertakingEnd(e: Engine, c: ChannelID, u: PubKey, v: nat)
    requires HandlerInv(e) && !e.crashed && e.clock == 0 && !Has(e.saved.table, c, 0)
    requires e.jobs == [Job(Silence(MuteCommand(c, u, v, false, 1)), None)]
    requires Entered(e, c, u, v) && e.ledger.commands.table[c][MuteKey(c, u, v)].round == 1
    ensures var b := MuteCommand(c, u, v, true, 2);
            var e' := Run(e, Submission(b, 1, 0) + [Advance(1, 0, 0), Advance(0, 0, 0)]);
            && e'.jobs == [] && Entered(e', c, u, v) && EntryFor(e', c, u, v) == b.content
            && IsMuted(e'.muted.table, c, u)
  {
    var a, b, k := MuteCommand(c, u, v, false, 1), MuteCommand(c, u, v, true, 2), MuteKey(c, u, v);
    MuteIsAccepted(e, c, u, v, true, 2, 0);
    MuteIsSubmitted(e, b, 0);
    SubmitFacts(e, b, 0, 0);
    PutLookup(e.ledger.commands.table, c, k, NewEntry(b, Sanitize(b.content)), c, k);
    var e1 := Run(e, Submission(b, 1, 0));
    assert e1.jobs == [Job(Silence(a), None), Job(Silence(b), None)];
    RunAppend(e, Submission(b, 1, 0), [Advance(1, 0, 0), Advance(0, 0, 0)]);
    MuteIsApplied(e1, 1, b, 0);
    var e2 := Step(e1, Advance(1, 0, 0));
    assert e2.jobs == [Job(Silence(a), None)];
    MuteIsApplied(e2, 0, a, 0);
    var e3 := Step(e2, Advance(0, 0, 0));
    PutLookup(e2.muted.table, c, u, (), c, u);
    assert [Advance(1, 0, 0), Advance(0, 0, 0)][1..] == [Advance(0, 0, 0)];
    RunOne(e2, Advance(0, 0, 0));
    assert Run(e1, [Advance(1, 0, 0), Advance(0, 0, 0)]) == e3;
  }

  /** A process that ends between accepting a mute and applying it: the blocker remembers
      the mute and the user is not muted. */
  lemma RestartLosesMute(c: ChannelID, u: PubKey, v: nat)
    ensures var e := Run(Init(), Submission(MuteCommand(c, u, v, false, 1), 0, 0) + [Restart(0, map[], [])]);
            && AllSettled(e) && Entered(e, c, u, v) && EntryFor(e, c, u, v) == MuteMsg(v, Some(u), false)
            && !IsMuted(e.muted.table, c, u)
  {
    var a, e0, k := MuteCommand(c, u, v, false, 1), Init(), MuteKey(c, u, v);
    InitInv();
    MuteIsAccepted(e0, c, u, v, false, 1, 0);
    MuteIsSubmitted(e0, a, 0);
    SubmitFacts(e0, a, 0, 0);
    var ops := Submission(a, 0, 0);
    RunKeepsInv(e0, ops);
    var e1 := Run(e0, ops);
    PutLookup(e0.ledger.commands.table, c, k, NewEntry(a, Sanitize(a.content)), c, k);
    RunAppend(e0, ops, [Restart(0, map[], [])]);
    RunOne(e1, Restart(0, map[], []));
    EmptyRestart(e1, 0);
  }
}
