/**
 * Commands on their way through the lease system: when one is accepted and what is queued
 * for it, what is stored and sent of it over every run, and what a refused one leads to.
 */
module CommandTheorems {
  import opened Wrappers
  import opened ChannelTypes
  import opened ChannelStorage
  import opened LeaseTrigger
  import opened LeaseOrder
  import opened LeasePass
  import opened LeaseIndex
  import opened LeaseDisk
  import opened ReplayBlocker
  import opened ActionSaver
  import opened MutedUsers
  import opened ChannelEngine
  import opened EngineInvariants
  import opened EngineSteps
  import opened PassTheorems

  // ----- The verdict -----

  /** The fingerprint of a pin or mute, doing or undoing. */
  function Print(cmd: Command): Key
    requires cmd.content.PinnedMsg? || cmd.content.MuteMsg?
  {
    Key(cmd.channel, cmd.messageType, cmd.content.(undo := true))
  }

  /** The blocker holds another command with the fingerprint, of a round that is not older. */
  predicate Outdated(l: Ledger, cmd: Command)
    requires cmd.content.PinnedMsg? || cmd.content.MuteMsg?
  {
    && Has(l.commands.table, cmd.channel, Print(cmd))
    && l.commands.table[cmd.channel][Print(cmd)].round >= cmd.originatingRound
    && l.commands.table[cmd.channel][Print(cmd)].unsanitized != cmd.content
  }

  /** The lease that is queued for an accepted command. */
  predicate LeaseOf(l: Lease, cmd: Command, now: Time)
    requires cmd.content.PinnedMsg? || cmd.content.MuteMsg?
  {
    && l.key == Print(cmd) && l.originating == cmd.originating && l.lease == cmd.lease
    && l.end == cmd.originating + cmd.lease
    && if Outlives(now, cmd.originating, cmd.lease)
       then now + MESSAGE_LIFE / 2 <= l.trigger <= now + MESSAGE_LIFE
       else l.trigger == cmd.originating + cmd.lease
  }

  /** A command is accepted exactly when its lease is running and it is not outdated. A lease
      is queued for one that does, with the command as it came, and a removal for one that
      undoes; for an outdated one whose lease is running, a replay of what is stored. */
  lemma SubmissionExactly(e: Engine, cmd: Command, now: Time, seed: nat)
    requires cmd.content.PinnedMsg? || cmd.content.MuteMsg?
    ensures var (ok, e1) := Submit(e, cmd, now, seed);
            var running := Running(now, cmd.originating) < cmd.lease;
            && (ok <==> running && !Outdated(e.ledger, cmd))
            && e1.replays == (if running && Outdated(e.ledger, cmd) then e.replays + [Print(cmd)] else e.replays)
            && e1.removes == (if ok && cmd.content.undo then e.removes + [Print(cmd)] else e.removes)
            && (!ok || cmd.content.undo ==> e1.adds == e.adds)
            && (ok && !cmd.content.undo ==>
                  && |e1.adds| == |e.adds| + 1 && e1.adds[..|e.adds|] == e.adds
                  && LeaseOf(e1.adds[|e.adds|].lease, cmd, now)
                  && BodyOf(e1.adds[|e.adds|].command, cmd, cmd.content.(undo := true)))
  {
    ActiveExactly(now, cmd.originating, cmd.lease, seed);
    if Running(now, cmd.originating) < cmd.lease {
      TriggerExactly(now, cmd.originating, cmd.lease, seed);
    }
  }

  // ----- Replays of what is stored -----

  lemma ListenReplays(e: Engine, h: Handler, sender: PubKey, cmd: Command, now: Time, seed: nat)
    ensures var e1 := Listen(e, h.listener, sender, cmd, now, seed).0;
            match Handed(Some(h), cmd)
            case None => e1.replays == e.replays
            case Some(_) =>
              (cmd.content.PinnedMsg? || cmd.content.MuteMsg?) && e1.replays == Submit(e, cmd, now, seed).1.replays
  {
  }

  /** The replay that a step asks for. */
  function Replaying(e: Engine, op: Op): seq<Key> {
    match Submitting(e, op)
    case None => []
    case Some(cmd) =>
      if (op.Advance? || op.RunUpdate?) && (cmd.content.PinnedMsg? || cmd.content.MuteMsg?)
         && Running(Later(e, op.now), cmd.originating) < cmd.lease && Outdated(e.ledger, cmd)
      then [Print(cmd)] else []
  }

  lemma AdvanceReplays(e: Engine, i: nat, now: Time, seed: nat)
    requires !e.crashed && i < |e.jobs|
    ensures StepAdvance(e, i, now, seed).replays == e.replays + Replaying(e, Advance(i, now, seed))
  {
    var e1, j := e.(clock := Later(e, now)), e.jobs[i];
    if j.task.Check? {
      CheckEffect(e1, j, Later(e, now), seed);
    } else if j.task.Call? {
      CallEffect(e1, j, Later(e, now), seed);
      var h, cmd := HandlerFor(e, j.task), j.task.command;
      if h.Some? {
        ListenReplays(e1, h.value, j.task.sender, cmd, Later(e, now), seed);
        if Handed(h, cmd).Some? {
          SubmissionExactly(e1, cmd, Later(e, now), seed);
        }
      }
    } else {
      ContinueEffect(e1, j, Later(e, now), seed);
    }
  }

  lemma UpdateReplays(e: Engine, i: nat, now: Time, seed: nat)
    requires !e.crashed && i < |e.updates|
    ensures StepUpdate(e, i, now, seed).replays == e.replays + Replaying(e, RunUpdate(i, now, seed))
  {
    var e1, cmd := e.(updates := Without(e.updates, i), clock := Later(e, now)), e.updates[i].command;
    var h := GetHandler(e.handlers, cmd.messageType, true, cmd.fromAdmin, false);
    if h.Some? {
      ListenReplays(e1, h.value, ADMIN_KEY, cmd, Later(e, now), seed);
      if Handed(h, cmd).Some? {
        SubmissionExactly(e1, cmd, Later(e, now), seed);
      }
    }
  }

  lemma LoopReplays(e: Engine, choice: Choice, reading: Reading)
    ensures StepLoop(e, choice, reading).replays == e.replays
  {
    SelectReplays(e, choice);
  }

  lemma SelectReplays(e: Engine, choice: Choice)
    ensures Select(e, choice).replays == e.replays
  {
  }

  /** In every run the goroutines that replay a stored command are those asked for by an
      outdated command and not run yet: every step adds what it asks for, and no other. */
  lemma ReplaysExactly(e: Engine, op: Op)
    requires Inv(e) && !e.crashed && !op.Restart?
    ensures Step(e, op).replays == if op.RunReplay? && op.i < |e.replays| then Without(e.replays, op.i)
                                   else e.replays + Replaying(e, op)
  {
    match op {
      case Advance(i, now, seed) => if i < |e.jobs| { AdvanceReplays(e, i, now, seed); }
      case RunUpdate(i, now, seed) => if i < |e.updates| { UpdateReplays(e, i, now, seed); }
      case _ => OthersReplay(e, op);
    }
  }

  lemma OthersReplay(e: Engine, op: Op)
    requires Inv(e) && !e.crashed && !op.Restart? && !op.Advance? && !op.RunUpdate?
    ensures Step(e, op).replays == if op.RunReplay? && op.i < |e.replays| then Without(e.replays, op.i) else e.replays
  {
    match op {
      case RunUndo(i, now, seed) => if i < |e.undos| { ExpiryNeverUndoes(e, i, now, seed); }
      case Loop(choice, reading) =>
        StepIsLoop(e, op);
        LoopReplays(e, choice, reading);
      case RunReplay(i, now, seed) => ReplayTouchesAdds(e, i, now, seed);
      case _ =>
    }
  }

  /** The goroutine queues the stored command, with its own times, to fire in 3 to 10
      minutes, if it is still stored; and does nothing else. */
  lemma QuickReplayExactly(e: Engine, i: nat, now: Time, seed: nat)
    requires i < |e.replays|
    ensures var e', t, k := StepReplay(e, i, now, seed), Later(e, now), e.replays[i];
            && e' == e.(clock := t, replays := Without(e.replays, i), adds := e'.adds)
            && (k !in e.ledger.bodies ==> e'.adds == e.adds)
            && (k in e.ledger.bodies ==>
                  && |e'.adds| == |e.adds| + 1 && e'.adds[..|e.adds|] == e.adds
                  && var p, body := e'.adds[|e.adds|], e.ledger.bodies[k];
                     && p.command == body && p.lease.key == k
                     && p.lease.originating == body.originating && p.lease.lease == body.lease
                     && p.lease.end == body.originating + body.lease
                     && t + 3 * MINUTE <= p.lease.trigger <= t + 10 * MINUTE)
  {
  }

  // ----- The lease thread takes what is queued -----

  /** A lease taken in is on the list as it was queued, or the thread stops because its
      fingerprint is live; a removal takes exactly that fingerprint's lease off. Neither
      touches what is stored of any command. */
  lemma TakenExactly(e: Engine, i: nat, l: Lease)
    requires LeaseInv(e)
    ensures i < |e.adds| ==>
              var e', taken := TakeAdd(e, i), e.adds[i].lease;
              && (e'.crashed <==> e.crashed || exists o :: o in e.leases && o.key == taken.key)
              && (!e'.crashed ==> (l in e'.leases <==> l in e.leases || l == taken))
              && e' == e.(adds := Without(e.adds, i), leases := e'.leases, disk := e'.disk, crashed := e'.crashed)
    ensures i < |e.removes| ==>
              var e' := TakeRemove(e, i);
              && (l in e'.leases <==> l in e.leases && l.key != e.removes[i])
              && e' == e.(removes := Without(e.removes, i), leases := e'.leases, disk := e'.disk)
  {
    if i < |e.adds| {
      InsertMembers(e.leases, e.adds[i].lease);
    }
    if i < |e.removes| {
      RemovedLeases(e.leases, e.removes[i], l);
    }
  }

  lemma RemovedLeases(s: seq<Lease>, k: Key, l: Lease)
    requires DistinctKeys(s)
    ensures l in RemoveKey(s, k) <==> l in s && l.key != k
  {
    var n := IndexOf(s, k);
    if n < |s| {
      assert s == s[..n] + [s[n]] + s[n + 1..];
    } else {
      assert l in s ==> l.key in Keys(s);
    }
  }

  /** What an iteration of the lease thread emits and forgets after its select: an undo for
      each lease that fires at its end or later, in order, and the commands of the leases
      that leave the list. */
  lemma IterationExactly(e: Engine, choice: Choice, reading: Reading, k: Key)
    requires Inv(e) && !Select(e, choice).crashed
    ensures var e1, e' := Select(e, choice), StepLoop(e, choice, reading);
            var now := Later(e1, reading.now);
            var over := Where(e1.leases, (l: Lease) => Fires(l, e1.ledger.bodies, now) && l.trigger >= l.end);
            && |e'.undos| == |e.undos| + |over| && e'.undos[..|e.undos|] == e.undos
            && (forall i :: 0 <= i < |over| ==>
                  && over[i].key in e1.ledger.bodies
                  && Undoes(e'.undos[|e.undos| + i], over[i], e1.ledger.bodies[over[i].key]))
            && (k in e'.ledger.bodies <==>
                  k in e1.ledger.bodies && (k in Keys(e1.leases) ==> k in Keys(e'.leases)))
            && e'.clock >= now
  {
    var e1 := Select(e, choice);
    var r := Monotone(e1, reading);
    SelectKeepsInv(e, choice);
    SelectUndos(e, choice);
    UndosExactly(e1.leases, e1.ledger.bodies, r);
    ForgottenExactly(e1.leases, e1.ledger.bodies, r, k);
    ForgetEachBodies(e1.ledger, Forgotten(e1.leases, e1.ledger.bodies, r));
    var added := Undos(e1.leases, e1.ledger.bodies, r);
    assert (e1.undos + added)[..|e1.undos|] == e1.undos;
  }

  lemma SelectUndos(e: Engine, choice: Choice)
    ensures Select(e, choice).undos == e.undos
  {
  }

  /** Leaving a channel unmutes its users and queues its removal, and nothing else. */
  lemma LeavingExactly(e: Engine, c: ChannelID, d: ChannelID, u: PubKey)
    ensures var e' := StepLeave(e, c);
            && e' == e.(muted := e'.muted, leaves := e.leaves + [c])
            && (IsMuted(e'.muted.table, d, u) <==> IsMuted(e.muted.table, d, u) && d != c)
  {
    DropLookup(e.muted, c, d, u);
  }

  // ----- What is stored over a run -----

  /** The last command with a fingerprint that a run gets accepted. */
  ghost function LastAccepted(e: Engine, ops: seq<Op>, k: Key, last: Option<Command>): Option<Command>
    decreases |ops|
  {
    if ops == [] then last else LastAccepted(Step(e, ops[0]), ops[1..], k, AcceptedNext(e, ops[0], k, last))
  }

  ghost function AcceptedNext(e: Engine, op: Op, k: Key, last: Option<Command>): Option<Command> {
    var acc := Accepted(e, op);
    if acc.Some? && (acc.value.content.PinnedMsg? || acc.value.content.MuteMsg?) && Print(acc.value) == k
    then acc else last
  }

  /** A stored body is that of the last accepted command. */
  ghost predicate StoredFrom(l: Ledger, k: Key, last: Option<Command>) {
    k in l.bodies ==>
      && last.Some? && (last.value.content.PinnedMsg? || last.value.content.MuteMsg?) && Print(last.value) == k
      && BodyOf(l.bodies[k], last.value, last.value.content.(undo := true))
  }

  lemma SelectBodies(e: Engine, choice: Choice, k: Key)
    requires k in Select(e, choice).ledger.bodies
    ensures k in e.ledger.bodies && Select(e, choice).ledger.bodies[k] == e.ledger.bodies[k]
  {
    if choice.PickLeave? && choice.i < |e.leaves| {
      ForgetChannelBodies(e.ledger, e.leaves[choice.i], ChannelLeaseKeys(e.leases, e.leaves[choice.i]), k);
    } else {
      SelectForgetsNothing(e, choice);
    }
  }

  lemma ForgetChannelBodies(l: Ledger, c: ChannelID, leaseKeys: set<Key>, k: Key)
    ensures k in ForgetChannel(l, c, leaseKeys).bodies ==>
              k in l.bodies && ForgetChannel(l, c, leaseKeys).bodies[k] == l.bodies[k]
  {
  }

  lemma LoopBodies(e: Engine, choice: Choice, reading: Reading, k: Key)
    requires k in StepLoop(e, choice, reading).ledger.bodies
    ensures k in e.ledger.bodies && StepLoop(e, choice, reading).ledger.bodies[k] == e.ledger.bodies[k]
  {
    var e1 := Select(e, choice);
    if !e1.crashed {
      ForgetEachBodies(e1.ledger, Forgotten(e1.leases, e1.ledger.bodies, Monotone(e1, reading)));
    }
    SelectBodies(e, choice, k);
  }

  lemma StepStores(e: Engine, op: Op, k: Key, last: Option<Command>)
    requires Inv(e) && StoredFrom(e.ledger, k, last)
    ensures StoredFrom(Step(e, op).ledger, k, AcceptedNext(e, op, k, last))
  {
    if op.Loop? {
      if !e.crashed {
        StepIsLoop(e, op);
        if k in Step(e, op).ledger.bodies {
          LoopBodies(e, op.choice, op.reading, k);
        }
      }
    } else {
      LedgerAfter(e, op);
      LedgerStores(e.ledger, Accepted(e, op), k, last);
    }
  }

  lemma LedgerStores(l: Ledger, acc: Option<Command>, k: Key, last: Option<Command>)
    requires acc.Some? ==> acc.value.content.PinnedMsg? || acc.value.content.MuteMsg?
    requires StoredFrom(l, k, last)
    ensures StoredFrom(LedgerWith(l, acc), k, if acc.Some? && Print(acc.value) == k then acc else last)
  {
    if acc.Some? {
      AcceptStores(l, acc.value, Sanitize(acc.value.content));
    }
  }

  lemma {:induction false} RunStores(e: Engine, ops: seq<Op>, k: Key, last: Option<Command>)
    requires Inv(e) && StoredFrom(e.ledger, k, last)
    ensures StoredFrom(Run(e, ops).ledger, k, LastAccepted(e, ops, k, last))
    decreases |ops|
  {
    if ops != [] {
      StepKeepsInv(e, ops[0]);
      StepStores(e, ops[0], k, last);
      RunStores(Step(e, ops[0]), ops[1..], k, AcceptedNext(e, ops[0], k, last));
    }
  }

  /** In every run the body stored under a fingerprint is the last accepted command with it,
      as it came but for its content, which is sanitized. */
  lemma StoredIsLastAccepted(ops: seq<Op>, k: Key)
    requires k in Run(Init(), ops).ledger.bodies
    ensures var cmd := LastAccepted(Init(), ops, k, None);
            && cmd.Some? && (cmd.value.content.PinnedMsg? || cmd.value.content.MuteMsg?) && Print(cmd.value) == k
            && BodyOf(Run(Init(), ops).ledger.bodies[k], cmd.value, cmd.value.content.(undo := true))
  {
    InitInv();
    RunStores(Init(), ops, k, None);
  }

  /** What the next iteration of the lease thread sends after a run is, for each lease that
      fires before its end, in order, the encrypted payload of the last accepted command with
      the fingerprint of the lease. */
  lemma SentIsLastAccepted(ops: seq<Op>, choice: Choice, r: Reading)
    ensures var e1 := Select(Run(Init(), ops), choice);
            var bodies := e1.ledger.bodies;
            var running := Where(e1.leases, (l: Lease) => Fires(l, bodies, r.now) && l.trigger < l.end);
            var sent := Sends(Replayed(e1.leases, bodies, r), bodies);
            && |sent| == |running|
            && forall i :: 0 <= i < |running| ==>
                 var cmd := LastAccepted(Init(), ops, running[i].key, None);
                 cmd.Some? && sent[i] == (running[i].key.channel, cmd.value.encrypted)
  {
    var e1 := Select(Run(Init(), ops), choice);
    var bodies := e1.ledger.bodies;
    var running := Where(e1.leases, (l: Lease) => Fires(l, bodies, r.now) && l.trigger < l.end);
    SendsExactly(e1.leases, bodies, r);
    forall i | 0 <= i < |running|
      ensures var cmd := LastAccepted(Init(), ops, running[i].key, None);
              cmd.Some? && running[i].key in bodies && bodies[running[i].key].encrypted == cmd.value.encrypted
    {
      var k := running[i].key;
      SelectBodies(Run(Init(), ops), choice, k);
      StoredIsLastAccepted(ops, k);
    }
  }
}
