/**
 * What the engine guarantees over every run, and where it falls short of what its
 * documentation says.
 */
module EngineTheorems {
  import opened Wrappers
  import opened ChannelTypes
  import opened ChannelStorage
  import opened LeaseTrigger
  import opened LeaseOrder
  import opened LeasePass
  import opened LeaseIndex
  import opened LeaseDisk
  import opened ReplayBlocker
  import opened ActionSaver
  import opened MutedUsers
  import opened ChannelEngine
  import opened EngineInvariants
  import opened EngineSteps

  // ----- Storage and ledger -----

  /** In every run the blocker has an entry for a command exactly when its body is stored,
      and both tell the same payload and originating round. What is on disk is what is in
      memory: loading it rebuilds the blocker and the muted users, and it rebuilds the saved
      actions except for a process that has not written any since it started. */
  lemma LedgerAndImagesAgree(ops: seq<Op>)
    ensures var e := Run(Init(), ops);
            && (forall k :: k in e.ledger.bodies <==> Has(e.ledger.commands.table, k.channel, k))
            && (forall k :: k in e.ledger.bodies ==>
                  && CommandKey(e.ledger.bodies[k]) == k
                  && EntryKey(e.ledger.commands.table[k.channel][k]) == k
                  && e.ledger.bodies[k].originatingRound == e.ledger.commands.table[k.channel][k].round)
            && ChannelStorage.Load(e.ledger.commands.image) == Some(e.ledger.commands.table)
            && ChannelStorage.Load(e.muted.image) == Some(e.muted.table)
            && (ChannelStorage.Load(e.saved.image) == Some(e.saved.table)
                <==> (e.saved.table == map[] ==> e.saved.image.channels == {}))
  {
    InitInv();
    RunKeepsInv(Init(), ops);
    var e := Run(Init(), ops);
    LoadRebuilds(e.ledger.commands);
    LoadRebuilds(e.muted);
    LoadRebuildsExactly(e.saved);
  }

  /** A restart does not load the saved actions: they are gone from memory although they are
      still on disk. */
  lemma SavedActionsAreNotLoaded(e: Engine, now: Time, seeds: map<Key, nat>, loaded: seq<Lease>)
    requires Inv(e) && e.saved.table != map[] && LoadedFrom(loaded, e.disk, Later(e, now), seeds)
    ensures var e' := Step(e, Restart(now, seeds, loaded));
            e'.saved.table == map[] && ChannelStorage.Load(e'.saved.image) == Some(e.saved.table)
  {
    LoadRebuilds(e.ledger.commands);
    LoadRebuilds(e.muted);
    LoadRebuildsExactly(e.saved);
  }

  /** In every run, whatever a restart loads has the keys of the live leases, and each lease
      comes back unchanged but for its end and trigger. It comes back unchanged exactly when
      its stored trigger is not past, or when it was moved by the last load, not written
      since, and is moved to the same instant again. */
  lemma LeasesReload(ops: seq<Op>, now: Time, seeds: map<Key, nat>, loaded: seq<Lease>, l: Lease)
    requires var e := Run(Init(), ops);
             now >= e.clock && l in e.leases && LoadedFrom(loaded, e.disk, now, seeds)
    ensures var e := Run(Init(), ops);
            && Keys(loaded) == Keys(e.leases) && l.key in Keys(loaded) && Has(e.disk.records, l.key.channel, l.key)
            && var stored, back := e.disk.records[l.key.channel][l.key], LeaseFor(loaded, l.key);
               && back == l.(end := back.end, trigger := back.trigger)
               && (back == l <==>
                     || stored.trigger >= now
                     || (stored != l
                         && e.load.at + Wait(SeedFor(e.load.seeds, l.key)) == now + Wait(SeedFor(seeds, l.key))))
               && (back != l ==> now + REPLAY_WAIT_MIN <= back.trigger <= now + REPLAY_WAIT_MAX)
  {
    InitInv();
    RunKeepsInv(Init(), ops);
    var e := Run(Init(), ops);
    SoundReload(e.leases, e.disk, e.load, loaded, now, seeds, l);
  }

  /** Removing a channel that has a lease leaves none of its leases, entries or bodies and
      changes no other channel; removing one without a lease leaves them all. */
  lemma ChannelRemoval(e: Engine, c: ChannelID, k: Key)
    requires Inv(e)
    ensures var e' := RemoveChannel(e, c);
            var had := exists l :: l in e.leases && l.key.channel == c;
            && (k in Keys(e'.leases) <==> k in Keys(e.leases) && !(had && k.channel == c))
            && (k in e'.ledger.bodies <==> k in e.ledger.bodies && !(had && k.channel == c))
            && (Has(e'.ledger.commands.table, k.channel, k)
                <==> Has(e.ledger.commands.table, k.channel, k) && !(had && k.channel == c))
  {
    var ks := ChannelLeaseKeys(e.leases, c);
    if exists l :: l in e.leases && l.key.channel == c {
      var l :| l in e.leases && l.key.channel == c;
      assert l.key in ks;
      OutsideFacts(e.leases, c);
      ForgetChannelAgrees(e.ledger, c, ks);
    } else {
      assert ks == {};
    }
  }

  // ----- Provenance -----

  /** In every run each stored command, each lease on its way to the lease thread, each undo
      and each saved pin came from the channel admin, whatever handlers were registered. */
  lemma AdminProvenance(ops: seq<Op>)
    ensures var e := Run(Init(), ops);
            && (forall k :: k in e.ledger.bodies ==> e.ledger.bodies[k].fromAdmin)
            && (forall p :: p in e.adds ==> p.command.fromAdmin)
            && (forall c, m :: Has(e.saved.table, c, m) && !IsDelete(e.saved.table[c][m]) ==>
                  e.saved.table[c][m].command.fromAdmin)
            && (forall u :: u in e.undos ==> u.fromAdmin)
  {
    InitInv();
    RunKeepsInv(Init(), ops);
    var e := Run(Init(), ops);
    forall c, m | Has(e.saved.table, c, m) ensures SavedOk(e.saved.table[c][m]) {}
  }

  /** A user's deletion was allowed because the message was there, but it is gone when the
      deletion comes to it. */
  predicate Misses(e: Engine, op: Op) {
    && !e.crashed && op.Advance? && op.i < |e.jobs|
    && match e.jobs[op.i].task
       case Erase(cmd) => cmd.content.DeleteMsg? && cmd.content.target !in e.model
       case _ => false
  }

  predicate KeptFromUser(t: Task) {
    t.KeepErase? && !t.command.fromAdmin
  }

  /** A deletion that did not come from the admin is saved, or about to be. */
  ghost predicate UserSaves(e: Engine) {
    || (exists j :: j in e.jobs && KeptFromUser(j.task))
    || !AllAdmins(e.saved.table)
  }

  lemma CallKeepsAdmins(e: Engine, j: Job, now: Time, seed: nat)
    requires j.task.Call?
    ensures forall r :: r in RunJob(e, j, now, seed).1 ==> !KeptFromUser(r.task)
  {
    var t := j.task;
    CallEffect(e, j, now, seed);
    var h := HandlerFor(e, t);
    if h.Some? {
      ListenLedger(e, h.value, t.sender, t.command, now, seed);
    }
  }

  /** No call but a miss leaves a user's deletion to be saved. */
  lemma KeptComesFromMiss(e: Engine, i: nat, now: Time, seed: nat)
    requires !e.crashed && i < |e.jobs| && !Misses(e, Advance(i, now, seed))
    ensures forall r :: r in RunJob(e.(clock := Later(e, now)), e.jobs[i], Later(e, now), seed).1 ==>
              !KeptFromUser(r.task)
  {
    var e1, j := e.(clock := Later(e, now)), e.jobs[i];
    if j.task.Check? {
      CheckEffect(e1, j, Later(e, now), seed);
    } else if j.task.Call? {
      CallKeepsAdmins(e1, j, Later(e, now), seed);
    } else {
      ContinueEffect(e1, j, Later(e, now), seed);
    }
  }

  ghost predicate AllAdmins(t: SavedTable) {
    forall c, m :: Has(t, c, m) ==> t[c][m].command.fromAdmin
  }

  /** Saving an action of the admin's keeps all saved actions the admin's. */
  lemma SavedStaysAdmin(p: SavedStore, a: SavedAction)
    requires a.command.fromAdmin && AllAdmins(p.table)
    ensures AllAdmins(AddAndStore(p, a).table)
  {
    var t: SavedTable := AddAndStore(p, a).table;
    forall c, m | Has(t, c, m) ensures t[c][m].command.fromAdmin {
      PutLookup(p.table, a.command.channel, a.target, a, c, m);
    }
  }

  lemma AdvanceSavesAdmins(e: Engine, i: nat, now: Time, seed: nat)
    requires i < |e.jobs| && TaskOk(e.jobs[i].task) && !KeptFromUser(e.jobs[i].task) && AllAdmins(e.saved.table)
    ensures AllAdmins(StepAdvance(e, i, now, seed).saved.table)
  {
    AdvanceSaves(e, i, now, seed);
    match e.jobs[i].task {
      case KeepErase(cmd) => SavedStaysAdmin(e.saved, SavedErase(cmd, Later(e, now)));
      case KeepPin(cmd) => SavedStaysAdmin(e.saved, SavedAction(Later(e, now), cmd.content.target, cmd));
      case _ =>
    }
  }

  lemma AdvanceSavesNoUser(e: Engine, i: nat, now: Time, seed: nat)
    requires Inv(e) && !e.crashed && i < |e.jobs| && !UserSaves(e) && !Misses(e, Advance(i, now, seed))
    ensures !UserSaves(StepAdvance(e, i, now, seed))
  {
    assert e.jobs[i] in e.jobs && JobOk(e.jobs[i]);
    KeptComesFromMiss(e, i, now, seed);
    AdvanceSavesAdmins(e, i, now, seed);
    WithoutMembers(e.jobs, i);
  }

  lemma UpdateSavesNoUser(e: Engine, i: nat, now: Time, seed: nat)
    requires Inv(e) && !e.crashed && i < |e.updates| && !UserSaves(e)
    ensures !UserSaves(StepUpdate(e, i, now, seed))
  {
    var e1, cmd := e.(updates := Without(e.updates, i), clock := Later(e, now)), e.updates[i].command;
    assert e.updates[i] in e.updates && UpdateOk(e.updates[i]);
    var h := GetHandler(e.handlers, cmd.messageType, true, cmd.fromAdmin, false);
    if h.Some? {
      ListenLedger(e1, h.value, ADMIN_KEY, cmd, Later(e, now), seed);
      ListenElsewhere(e1, h.value.listener, ADMIN_KEY, cmd, Later(e, now), seed);
    }
  }

  /** Steps that leave the jobs' later calls alone and save nothing. */
  lemma OthersSaveNoUser(e: Engine, op: Op)
    requires Inv(e) && !UserSaves(e) && !op.Advance? && !op.RunUpdate? && !op.RunUndo? && !op.Loop?
    ensures !UserSaves(StepLive(e, op))
  {
    match op {
      case RunCleanup(i) =>
        if i < |e.cleanups| {
          forall c, m { RemoveLookup(e.saved.table, e.cleanups[i].0, e.cleanups[i].1, c, m); }
        }
      case Purge(now) =>
        PurgeTable(e.saved, Later(e, now));
        var t: SavedTable := StepPurge(e, now).saved.table;
        forall c, m | Has(t, c, m) ensures t[c][m].command.fromAdmin {
          assert Has(e.saved.table, c, m) && t[c][m] == e.saved.table[c][m];
        }
      case _ =>
    }
  }

  lemma StepSavesNoUser(e: Engine, op: Op)
    requires Inv(e) && !UserSaves(e) && !Misses(e, op)
    ensures !UserSaves(Step(e, op))
  {
    if !e.crashed || op.Restart? {
      match op {
        case Advance(i, now, seed) => if i < |e.jobs| { AdvanceSavesNoUser(e, i, now, seed); }
        case RunUpdate(i, now, seed) => if i < |e.updates| { UpdateSavesNoUser(e, i, now, seed); }
        case RunUndo(i, now, seed) => if i < |e.undos| { ExpiryNeverUndoes(e, i, now, seed); }
        case Loop(choice, reading) => LoopOnlyForgets(e, choice, reading, 0, Key(0, 0, NoContent));
        case _ => OthersSaveNoUser(e, op);
      }
    }
  }

  lemma MissSavesUser(e: Engine, op: Op)
    requires Inv(e) && Misses(e, op)
    ensures UserSaves(Step(e, op))
  {
    var e1, j := e.(clock := Later(e, op.now)), e.jobs[op.i];
    assert j in e.jobs && JobOk(j);
    ContinueEffect(e1, j, Later(e, op.now), op.seed);
    var kept := Job(KeepErase(j.task.command), j.update);
    assert RunJob(e1, j, Later(e, op.now), op.seed).1 == [kept];
    assert kept in Step(e, op).jobs && KeptFromUser(kept.task);
  }

  lemma {:induction false} NoUserSaves(e: Engine, ops: seq<Op>, n: nat)
    requires Inv(e) && !UserSaves(e) && n <= |ops|
    requires forall i :: 0 <= i < n ==> !Misses(At(e, ops, i), ops[i])
    ensures !UserSaves(At(e, ops, n))
  {
    if n == 0 {
      assert ops[..0] == [];
    } else {
      NoUserSaves(e, ops, n - 1);
      AtNext(e, ops, n - 1);
      AtKeepsInv(e, ops, n - 1);
      StepSavesNoUser(At(e, ops, n - 1), ops[n - 1]);
    }
  }

  /** Throughout a run every saved action, and every one about to be saved, is the admin's
      exactly when no user's deletion misses the message it was allowed for. */
  lemma SavedProvenanceExactly(ops: seq<Op>)
    ensures (forall n :: 0 <= n <= |ops| ==> !UserSaves(At(Init(), ops, n)))
       <==> (forall n :: 0 <= n < |ops| ==> !Misses(At(Init(), ops, n), ops[n]))
  {
    InitInv();
    if forall n :: 0 <= n < |ops| ==> !Misses(At(Init(), ops, n), ops[n]) {
      forall n | 0 <= n <= |ops| ensures !UserSaves(At(Init(), ops, n)) {
        NoUserSaves(Init(), ops, n);
      }
    } else {
      var n :| 0 <= n < |ops| && Misses(At(Init(), ops, n), ops[n]);
      AtKeepsInv(Init(), ops, n);
      MissSavesUser(At(Init(), ops, n), ops[n]);
      AtNext(Init(), ops, n);
      assert UserSaves(At(Init(), ops, n + 1));
    }
  }

  // ----- Verbs -----

  ghost predicate SameOrNewer(t: Table<Key, Entry>, t': Table<Key, Entry>, k: Key) {
    Has(t, k.channel, k) && Has(t', k.channel, k) &&
    t'[k.channel][k].unsanitized != t[k.channel][k].unsanitized
    ==> t'[k.channel][k].round > t[k.channel][k].round
  }

  /** An accepted command was not blocked. */
  lemma AcceptedNotBlocked(e: Engine, op: Op)
    requires Accepted(e, op).Some?
    ensures var cmd := Accepted(e, op).value;
            && (cmd.content.PinnedMsg? || cmd.content.MuteMsg?)
            && !Blocked(e.ledger.commands.table, cmd, Sanitize(cmd.content))
  {
    SubmitFacts(e, Accepted(e, op).value, Later(e, op.now), op.seed);
  }

  /** A stored command changes from do to undo or back only for a command of a strictly
      later round, in every step of every run. */
  lemma VerbFlipsOnlyForward(e: Engine, op: Op, k: Key)
    requires Inv(e)
    ensures SameOrNewer(e.ledger.commands.table, Step(e, op).ledger.commands.table, k)
  {
    if op.Loop? {
      if !e.crashed {
        StepIsLoop(e, op);
        LoopOnlyForgets(e, op.choice, op.reading, k.channel, k);
      }
    } else {
      LedgerAfter(e, op);
      if Accepted(e, op).Some? && Has(e.ledger.commands.table, k.channel, k) {
        var cmd := Accepted(e, op).value;
        AcceptedNotBlocked(e, op);
        FlipsOnlyForward(e.ledger, cmd, Sanitize(cmd.content), k);
      }
    }
  }

  // ----- The stored round over a run -----

  /** Whether a command gets past the expiry check to the blocker. */
  predicate Unexpired(cmd: Command, now: Time, seed: nat)
    requires cmd.content.PinnedMsg? || cmd.content.MuteMsg?
  {
    if cmd.content.undo then Sub(now, cmd.originating) < cmd.lease
    else CalculateLeaseTrigger(now, cmd.originating, cmd.lease, seed).Some?
  }

  /** What a submitted command reports to the blocker about a key. */
  function ReportOf(cmd: Command, k: Key, now: Time, seed: nat): Option<Report>
    requires cmd.content.PinnedMsg? || cmd.content.MuteMsg?
  {
    if SanitizedKey(cmd, Sanitize(cmd.content)) == k && Unexpired(cmd, now, seed)
    then Some(Report(cmd.originatingRound, cmd.content)) else None
  }

  lemma SubmittingContent(e: Engine, op: Op)
    requires Submitting(e, op).Some?
    ensures var cmd := Submitting(e, op).value;
            (op.Advance? || op.RunUpdate?) && !e.crashed && (cmd.content.PinnedMsg? || cmd.content.MuteMsg?)
  {
  }

  /** What a step reports to the blocker about a key. */
  function Reporting(e: Engine, op: Op, k: Key): Option<Report> {
    if Submitting(e, op).None? then None
    else
      SubmittingContent(e, op);
      ReportOf(Submitting(e, op).value, k, Later(e, op.now), op.seed)
  }

  function Followed(history: seq<Report>, r: Option<Report>): seq<Report> {
    if r.Some? then history + [r.value] else history
  }

  lemma SubmitVerifies(e: Engine, cmd: Command, now: Time, seed: nat)
    requires cmd.content.PinnedMsg? || cmd.content.MuteMsg?
    ensures Submit(e, cmd, now, seed).0
       <==> Unexpired(cmd, now, seed) && !Blocked(e.ledger.commands.table, cmd, Sanitize(cmd.content))
  {
  }

  /** What the run reports about a key, in order. */
  ghost function Reports(e: Engine, ops: seq<Op>, k: Key): seq<Report>
    decreases |ops|
  {
    if ops == [] then [] else Followed([], Reporting(e, ops[0], k)) + Reports(Step(e, ops[0]), ops[1..], k)
  }

  /** The blocker's entry for a key is what a history of reports left. */
  ghost predicate Holds(l: Ledger, k: Key, stored: Option<Report>) {
    match stored
    case None => !Has(l.commands.table, k.channel, k)
    case Some(r) => Has(l.commands.table, k.channel, k)
                    && l.commands.table[k.channel][k].round == r.round
                    && l.commands.table[k.channel][k].unsanitized == r.content
  }

  /** The lease thread forgets the key in this step. */
  ghost predicate Forgets(e: Engine, e': Engine, k: Key) {
    Has(e.ledger.commands.table, k.channel, k) && !Has(e'.ledger.commands.table, k.channel, k)
  }

  /** The lease thread forgets the key in no step of the run. */
  ghost predicate NeverForgets(e: Engine, ops: seq<Op>, k: Key)
    decreases |ops|
  {
    ops != [] ==> !Forgets(e, Step(e, ops[0]), k) && NeverForgets(Step(e, ops[0]), ops[1..], k)
  }

  /** A submission is a step of the history of its own key and of no other. */
  lemma StoredSubmission(l: Ledger, cmd: Command, k: Key, history: seq<Report>, now: Time, seed: nat)
    requires (cmd.content.PinnedMsg? || cmd.content.MuteMsg?) && Holds(l, k, Stored(history))
    ensures var s := Sanitize(cmd.content);
            var l' := if Unexpired(cmd, now, seed) && !Blocked(l.commands.table, cmd, s) then Accept(l, cmd, s) else l;
            Holds(l', k, Stored(Followed(history, ReportOf(cmd, k, now, seed))))
  {
    var s := Sanitize(cmd.content);
    if ReportOf(cmd, k, now, seed).Some? {
      VerifyFollowsStored(l, cmd, s, history);
    } else {
      PutLookup(l.commands.table, cmd.channel, SanitizedKey(cmd, s), NewEntry(cmd, s), k.channel, k);
    }
  }

  lemma LedgerAfterSubmission(e: Engine, op: Op, cmd: Command)
    requires Inv(e) && Submitting(e, op) == Some(cmd)
    ensures (op.Advance? || op.RunUpdate?) && (cmd.content.PinnedMsg? || cmd.content.MuteMsg?)
    ensures var s := Sanitize(cmd.content);
            var ok := Unexpired(cmd, Later(e, op.now), op.seed) && !Blocked(e.ledger.commands.table, cmd, s);
            Step(e, op).ledger == if ok then Accept(e.ledger, cmd, s) else e.ledger
  {
    SubmittingContent(e, op);
    LedgerAfter(e, op);
    SubmitVerifies(e, cmd, Later(e, op.now), op.seed);
  }

  /** One step of the history of a key. */
  lemma StoredStep(e: Engine, op: Op, k: Key, history: seq<Report>)
    requires Inv(e) && Holds(e.ledger, k, Stored(history)) && !Forgets(e, Step(e, op), k)
    ensures Holds(Step(e, op).ledger, k, Stored(Followed(history, Reporting(e, op, k))))
  {
    if Submitting(e, op).Some? {
      var cmd := Submitting(e, op).value;
      LedgerAfterSubmission(e, op, cmd);
      StoredSubmission(e.ledger, cmd, k, history, Later(e, op.now), op.seed);
    } else if op.Loop? {
      if !e.crashed {
        StepIsLoop(e, op);
        LoopOnlyForgets(e, op.choice, op.reading, k.channel, k);
      }
    } else {
      LedgerAfter(e, op);
    }
  }

  lemma RunCons(e: Engine, ops: seq<Op>)
    requires ops != []
    ensures Run(e, ops) == Run(Step(e, ops[0]), ops[1..])
  {
  }

  lemma ReportsCons(e: Engine, ops: seq<Op>, k: Key, history: seq<Report>)
    requires ops != []
    ensures history + Reports(e, ops, k)
         == Followed(history, Reporting(e, ops[0], k)) + Reports(Step(e, ops[0]), ops[1..], k)
  {
    var r, rest := Reporting(e, ops[0], k), Reports(Step(e, ops[0]), ops[1..], k);
    assert history + (Followed([], r) + rest) == Followed(history, r) + rest;
  }

  lemma {:induction false} FollowsReports(e: Engine, ops: seq<Op>, k: Key, history: seq<Report>, stored: Option<Report>)
    requires Inv(e) && Holds(e.ledger, k, Stored(history)) && NeverForgets(e, ops, k)
    requires stored == Stored(history + Reports(e, ops, k))
    ensures Holds(Run(e, ops).ledger, k, stored)
    decreases |ops|
  {
    if ops == [] {
      assert history + Reports(e, ops, k) == history;
    } else {
      var e1 := Step(e, ops[0]);
      StepKeepsInv(e, ops[0]);
      StoredStep(e, ops[0], k, history);
      ReportsCons(e, ops, k, history);
      FollowsReports(e1, ops[1..], k, Followed(history, Reporting(e, ops[0], k)), stored);
      RunCons(e, ops);
    }
  }

  /** Between two times the lease thread forgets a key, in every run from a state without an
      entry for it, the entry is what the reports about it left: the stored round is the
      greatest reported throughout exactly when no report repeats the stored verb from an
      older round. */
  lemma StoredOverRun(e: Engine, ops: seq<Op>, k: Key)
    requires Inv(e) && !Has(e.ledger.commands.table, k.channel, k) && NeverForgets(e, ops, k)
    ensures Holds(Run(e, ops).ledger, k, Stored(Reports(e, ops, k)))
    ensures var h := Reports(e, ops, k);
            NoStaleRepeat(h) <==> forall n :: 0 <= n <= |h| ==> StoresNewest(h[..n])
  {
    StoresNewestExactly(Reports(e, ops, k));
    assert [] + Reports(e, ops, k) == Reports(e, ops, k);
    FollowsReports(e, ops, k, [], Stored(Reports(e, ops, k)));
  }
}
