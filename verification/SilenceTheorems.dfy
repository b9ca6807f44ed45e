/**
 * A muted user is not heard: over whole runs, and with the one exception there is.
 */
module SilenceTheorems {
  import opened Wrappers
  import opened ChannelTypes
  import opened ChannelStorage
  import opened LeaseTrigger
  import opened LeaseOrder
  import opened ReplayBlocker
  import opened ActionSaver
  import opened MutedUsers
  import opened ChannelEngine
  import opened EngineInvariants
  import opened EngineSteps
  import opened EngineRuns

  /** A user's message on its way to its listener. */
  predicate Speaks(t: Task, c: ChannelID, u: PubKey) {
    (t.Check? || t.Call?) && !t.admin && t.sender == u && t.command.channel == c
  }

  /** The step calls the listener of a user's message. */
  predicate Speaking(e: Engine, op: Op, c: ChannelID, u: PubKey) {
    !e.crashed && op.Advance? && op.i < |e.jobs| && e.jobs[op.i].task.Call? && Speaks(e.jobs[op.i].task, c, u)
  }

  /** The step hands a user's message to a default listener. */
  predicate Heard(e: Engine, op: Op, c: ChannelID, u: PubKey) {
    Speaking(e, op, c, u)
    && HandlerFor(e, e.jobs[op.i].task).Some? && !HandlerFor(e, e.jobs[op.i].task).value.listener.Extension?
  }

  /** The user was not muted when the handling of this message began, before the state e. */
  ghost predicate Earlier(e: Engine, t: Task, c: ChannelID, u: PubKey) {
    exists j :: j in e.jobs && Speaks(j.task, c, u) && j.task.command == t.command && !j.task.muted
  }

  /** Every message of the user that was not muted when it began, began before the state e. */
  ghost predicate OnlyEarlier(e: Engine, s: Engine, c: ChannelID, u: PubKey) {
    forall j :: j in s.jobs && Speaks(j.task, c, u) && !j.task.muted ==> Earlier(e, j.task, c, u)
  }

  lemma JobIsEarlier(e: Engine, s: Engine, op: Op, c: ChannelID, u: PubKey, j: Job)
    requires Inv(s) && OnlyEarlier(e, s, c, u) && IsMuted(s.muted.table, c, u)
    requires j in Step(s, op).jobs && Speaks(j.task, c, u) && !j.task.muted
    ensures Earlier(e, j.task, c, u)
  {
    if j !in s.jobs {
      JobsAfter(s, op, j);
      if op.Advance? {
        var j' := s.jobs[op.i];
        assert j' in s.jobs && Speaks(j'.task, c, u) && !j'.task.muted;
      }
    }
  }

  lemma {:induction false} StaysMuted(e: Engine, ops: seq<Op>, n: nat, c: ChannelID, u: PubKey)
    requires Inv(e) && IsMuted(e.muted.table, c, u) && n <= |ops|
    requires forall i :: 0 <= i < n ==> Applying(At(e, ops, i), ops[i], c, u) != Some(false)
    ensures var s := At(e, ops, n); Inv(s) && IsMuted(s.muted.table, c, u) && OnlyEarlier(e, s, c, u)
  {
    if n == 0 {
      assert ops[..0] == [];
    } else {
      var s := At(e, ops, n - 1);
      StaysMuted(e, ops, n - 1, c, u);
      AtNext(e, ops, n - 1);
      StepKeepsInv(s, ops[n - 1]);
      MutedAfter(s, ops[n - 1], c, u);
      forall j | j in Step(s, ops[n - 1]).jobs && Speaks(j.task, c, u) && !j.task.muted
        ensures Earlier(e, j.task, c, u)
      {
        JobIsEarlier(e, s, ops[n - 1], c, u, j);
      }
    }
  }

  /** A default listener takes a user's message exactly when the user was not muted when it
      began and the type is one that takes messages of users. */
  lemma HeardByFlag(e: Engine, op: Op, c: ChannelID, u: PubKey)
    requires HandlerInv(e) && Speaking(e, op, c, u)
    ensures var t := e.jobs[op.i].task;
            Heard(e, op, c, u)
            <==> !t.muted && t.command.messageType in DEFAULTS && DEFAULTS[t.command.messageType].user
  {
    var t := e.jobs[op.i].task;
    if t.command.messageType in e.handlers && !e.handlers[t.command.messageType].listener.Extension? {
      assert t.command.messageType in DEFAULTS;
    }
  }

  /** From a state in which a user is muted, through any run that applies no unmute of them
      and does not leave the channel, whatever unmutes are sent, refused or waiting, and
      whatever extensions register: the user stays muted, and a message of theirs reaches a
      default listener exactly when its handling began before that state, while the user was
      not muted, and its type is one that takes messages of users. */
  lemma MutedUserIsHeardExactly(e: Engine, ops: seq<Op>, n: nat, c: ChannelID, u: PubKey)
    requires Inv(e) && IsMuted(e.muted.table, c, u) && n < |ops|
    requires forall i :: 0 <= i < n ==> Applying(At(e, ops, i), ops[i], c, u) != Some(false)
    ensures var s := At(e, ops, n);
            && IsMuted(s.muted.table, c, u)
            && (Speaking(s, ops[n], c, u) ==>
                  var t := s.jobs[ops[n].i].task;
                  && (Heard(s, ops[n], c, u)
                      <==> !t.muted && t.command.messageType in DEFAULTS && DEFAULTS[t.command.messageType].user)
                  && (Heard(s, ops[n], c, u) ==> Earlier(e, t, c, u)))
  {
    StaysMuted(e, ops, n, c, u);
    var s := At(e, ops, n);
    if Speaking(s, ops[n], c, u) {
      HeardByFlag(s, ops[n], c, u);
      assert s.jobs[ops[n].i] in s.jobs;
    }
  }

  /** In particular, after an idle state nothing of the user is heard. */
  lemma MutedUserIsNotHeard(e: Engine, ops: seq<Op>, n: nat, c: ChannelID, u: PubKey)
    requires Inv(e) && IsMuted(e.muted.table, c, u) && n < |ops|
    requires forall i :: 0 <= i < n ==> Applying(At(e, ops, i), ops[i], c, u) != Some(false)
    requires forall j :: j in e.jobs && Speaks(j.task, c, u) ==> j.task.muted
    ensures !Heard(At(e, ops, n), ops[n], c, u)
  {
    MutedUserIsHeardExactly(e, ops, n, c, u);
  }

  // ----- The exception -----

  /** A text begins, the mute of its sender is accepted and applied, the text goes on. */
  function LateTextRun(text: Command, u: PubKey, mute: Command): seq<Op> {
    [BeginUser(u, text)] + (Submission(mute, 1, 0) + [Advance(1, 0, 0), Advance(0, 0, 0), Advance(0, 0, 0)])
  }

  /** A message whose handling began before its sender was muted is delivered after. */
  lemma MutedUserIsHeardOnce(text: Command, u: PubKey, v: nat)
    requires text.messageType == TEXT && text.content.Plain? && !text.fromAdmin
    ensures var e := Run(Init(), LateTextRun(text, u, MuteCommand(text.channel, u, v, false, 1)));
            IsMuted(e.muted.table, text.channel, u) && text.messageID in e.model
  {
    var mute := MuteCommand(text.channel, u, v, false, 1);
    InitInv();
    var e1 := Step(Init(), BeginUser(u, text));
    StepKeepsInv(Init(), BeginUser(u, text));
    RunOne(Init(), BeginUser(u, text));
    assert text.(fromAdmin := false) == text;
    assert e1.jobs == [Job(Check(u, text, false, false), None)];
    MuteIsAccepted(e1, text.channel, u, v, false, 1, 0);
    LateTextEnd(e1, text, u, mute);
    RunAppend(Init(), [BeginUser(u, text)],
              Submission(mute, 1, 0) + [Advance(1, 0, 0), Advance(0, 0, 0), Advance(0, 0, 0)]);
  }

  lemma LateTextEnd(e: Engine, text: Command, u: PubKey, mute: Command)
    requires HandlerInv(e) && !e.crashed && e.clock == 0 && e.saved.table == map[]
    requires e.jobs == [Job(Check(u, text, false, false), None)]
    requires text.messageType == TEXT && text.content.Plain?
    requires mute.messageType == MUTE && mute.fromAdmin && mute.channel == text.channel
    requires mute.content.MuteMsg? && mute.content.user == Some(u) && !mute.content.undo
    requires Submit(e, mute, 0, 0).0
    ensures var e' := Run(e, Submission(mute, 1, 0) + [Advance(1, 0, 0), Advance(0, 0, 0), Advance(0, 0, 0)]);
            IsMuted(e'.muted.table, text.channel, u) && text.messageID in e'.model
  {
    MuteIsSubmitted(e, mute, 0);
    SubmitFacts(e, mute, 0, 0);
    var e1 := Run(e, Submission(mute, 1, 0));
    assert e1.jobs == [Job(Check(u, text, false, false), None), Job(Silence(mute), None)];
    RunAppend(e, Submission(mute, 1, 0), [Advance(1, 0, 0), Advance(0, 0, 0), Advance(0, 0, 0)]);
    RunThree(e1, Advance(1, 0, 0), Advance(0, 0, 0), Advance(0, 0, 0));
    MuteIsApplied(e1, 1, mute, 0);
    var e2 := Step(e1, Advance(1, 0, 0));
    assert e2.jobs == [Job(Check(u, text, false, false), None)];
    PutLookup(e1.muted.table, text.channel, u, (), text.channel, u);
    TextGoesOn(e2, text, u);
  }

  lemma TextGoesOn(e: Engine, text: Command, u: PubKey)
    requires HandlerInv(e) && !e.crashed && e.clock == 0 && e.saved.table == map[]
    requires e.jobs == [Job(Check(u, text, false, false), None)]
    requires text.messageType == TEXT && text.content.Plain?
    ensures var e' := Step(Step(e, Advance(0, 0, 0)), Advance(0, 0, 0));
            text.messageID in e'.model && e'.muted == e.muted
  {
    var e1 := Step(e, Advance(0, 0, 0));
    assert e1 == e.(jobs := [Job(Call(u, text, false, false), None)]);
    assert e.handlers[TEXT] == DEFAULTS[TEXT];
  }
}
