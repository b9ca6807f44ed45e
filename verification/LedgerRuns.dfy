/**
 * The replay blocker and the command store under the calls of the lease thread and of
 * message handling, in any order. Forgetting a command takes two calls, one for its entry
 * and one for its body, and so does removing a channel; commands are accepted between them,
 * and the process may end there. When entries and bodies agree after such a run.
 */
module LedgerRuns {
  import opened ChannelTypes
  import opened ChannelStorage
  import opened ReplayBlocker

  /** What the lease thread is in the middle of. hit: a command with the fingerprint was
      accepted since the entry went. */
  datatype Phase = Idle | Forgetting(k: Key, hit: bool) | Leaving(c: ChannelID)

  /** orphans: the fingerprints of which a command was accepted between the removals of entry
      and body, or whose body went with a lease of a channel being removed, since when no
      command was accepted, forgotten or removed with its channel.
      strays: those for which a process ended between the two removals, since when no command
      was accepted and no body removed. */
  datatype State = State(ledger: Ledger, phase: Phase, orphans: set<Key>, strays: set<Key>)

  datatype Act =
    | Report(cmd: Command, sanitized: Content)   // verifyReplay
    | RemoveEntry(k: Key)                        // removeCommand of an expired lease
    | RemoveBody                                 // and DeleteCommand
    | BeginLeaving(c: ChannelID)                 // removeChannel
    | RemoveLeaseBody(k: Key)                    // DeleteCommand of one of its leases
    | RemoveEntries                              // and removeChannelCommands
    | End                                        // the process ends

  function Reported(s: State, cmd: Command, sanitized: Content): State {
    if Blocked(s.ledger.commands.table, cmd, sanitized) then s
    else
      var k := SanitizedKey(cmd, sanitized);
      var phase := if s.phase.Forgetting? && s.phase.k == k then s.phase.(hit := true) else s.phase;
      State(Accept(s.ledger, cmd, sanitized), phase, s.orphans - {k}, s.strays - {k})
  }

  /** The blocker drops the entries of a channel with their bodies. */
  function DropEntries(l: Ledger, c: ChannelID): Ledger {
    Ledger(DropChannel(l.commands, c), l.bodies - ChannelKeys(l.commands.table, c))
  }

  predicate Present(l: Ledger, k: Key) {
    Has(l.commands.table, k.channel, k)
  }

  function Next(s: State, a: Act): State {
    match a
    case Report(cmd, sanitized) => Reported(s, cmd, sanitized)
    case RemoveEntry(k) =>
      if s.phase.Idle?
      then State(ForgetEntry(s.ledger, k), Forgetting(k, false), s.orphans - {k}, s.strays - {k})
      else s
    case RemoveBody =>
      if s.phase.Forgetting?
      then State(DropBody(s.ledger, s.phase.k), Idle,
                 if s.phase.hit then s.orphans + {s.phase.k} else s.orphans, s.strays)
      else s
    case BeginLeaving(c) => if s.phase.Idle? then s.(phase := Leaving(c)) else s
    case RemoveLeaseBody(k) =>
      if s.phase.Leaving? && k.channel == s.phase.c
      then State(DropBody(s.ledger, k), s.phase,
                 if Present(s.ledger, k) then s.orphans + {k} else s.orphans, s.strays - {k})
      else s
    case RemoveEntries =>
      if s.phase.Leaving?
      then State(DropEntries(s.ledger, s.phase.c), Idle, (set k | k in s.orphans && k.channel != s.phase.c), s.strays)
      else s
    case End =>
      if s.phase.Forgetting? && !s.phase.hit && s.phase.k in s.ledger.bodies
      then s.(phase := Idle, strays := s.strays + {s.phase.k})
      else s.(phase := Idle)
  }

  function Run(s: State, acts: seq<Act>): State
    decreases |acts|
  {
    if acts == [] then s else Run(Next(s, acts[0]), acts[1..])
  }

  // ----- What every run keeps -----

  /** An entry without a body is an orphan, a body without an entry a stray, and where both
      are there they are of one command. */
  ghost predicate Told(l: Ledger, orphans: set<Key>, strays: set<Key>, k: Key) {
    && (k in orphans <==> Present(l, k) && k !in l.bodies)
    && (k in strays <==> !Present(l, k) && k in l.bodies)
  }

  ghost predicate Matches(l: Ledger, k: Key) {
    Present(l, k) && k in l.bodies ==>
      CommandKey(l.bodies[k]) == k && l.bodies[k].originatingRound == l.commands.table[k.channel][k].round
  }

  /** While a fingerprint is being forgotten it has an entry exactly when it was hit. */
  ghost predicate HalfForgotten(s: State, k: Key) {
    k !in s.orphans && k !in s.strays && (Present(s.ledger, k) <==> s.phase.Forgetting? && s.phase.hit)
    && (Present(s.ledger, k) ==> k in s.ledger.bodies)
  }

  ghost predicate Fits(s: State, k: Key) {
    && Matches(s.ledger, k)
    && if s.phase.Forgetting? && s.phase.k == k then HalfForgotten(s, k) else Told(s.ledger, s.orphans, s.strays, k)
  }

  ghost predicate Inv(s: State) {
    WellKeyed(s.ledger.commands.table) && forall k :: Fits(s, k)
  }

  lemma ReportKeeps(s: State, cmd: Command, sanitized: Content)
    requires Inv(s)
    ensures Inv(Reported(s, cmd, sanitized))
  {
    var k, e, s' := SanitizedKey(cmd, sanitized), NewEntry(cmd, sanitized), Reported(s, cmd, sanitized);
    if !Blocked(s.ledger.commands.table, cmd, sanitized) {
      forall c', k' { PutLookup(s.ledger.commands.table, cmd.channel, k, e, c', k'); }
      forall k' ensures Fits(s', k') {
        assert Fits(s, k');
      }
    }
  }

  lemma RemoveEntryKeeps(s: State, k: Key)
    requires Inv(s)
    ensures Inv(Next(s, RemoveEntry(k)))
  {
    var s' := Next(s, RemoveEntry(k));
    forall c', k' { RemoveLookup(s.ledger.commands.table, k.channel, k, c', k'); }
    forall k' ensures Fits(s', k') {
      assert Fits(s, k');
    }
  }

  lemma BodiesKeep(s: State, a: Act)
    requires Inv(s) && (a.RemoveBody? || a.RemoveLeaseBody? || a.BeginLeaving? || a.End?)
    ensures Inv(Next(s, a))
  {
    var s' := Next(s, a);
    forall k' ensures Fits(s', k') {
      assert Fits(s, k');
    }
  }

  lemma RemoveEntriesKeeps(s: State)
    requires Inv(s)
    ensures Inv(Next(s, RemoveEntries))
  {
    var s' := Next(s, RemoveEntries);
    if s.phase.Leaving? {
      forall c', k': Key { DropLookup(s.ledger.commands, s.phase.c, c', k'); }
      forall k' ensures Fits(s', k') {
        assert Fits(s, k');
        assert k' in ChannelKeys(s.ledger.commands.table, s.phase.c) ==> Has(s.ledger.commands.table, s.phase.c, k');
      }
    }
  }

  lemma NextKeeps(s: State, a: Act)
    requires Inv(s)
    ensures Inv(Next(s, a))
  {
    match a
    case Report(cmd, sanitized) => ReportKeeps(s, cmd, sanitized);
    case RemoveEntry(k) => RemoveEntryKeeps(s, k);
    case RemoveEntries => RemoveEntriesKeeps(s);
    case _ => BodiesKeep(s, a);
  }

  lemma {:induction false} RunKeeps(s: State, acts: seq<Act>)
    requires Inv(s)
    ensures Inv(Run(s, acts))
    decreases |acts|
  {
    if acts != [] {
      NextKeeps(s, acts[0]);
      RunKeeps(Next(s, acts[0]), acts[1..]);
    }
  }

  lemma AgreeIf(s: State)
    requires Inv(s) && s.phase.Idle?
    ensures Agrees(s.ledger) <==> s.orphans == {} && s.strays == {}
  {
    if Agrees(s.ledger) {
      forall k ensures k !in s.orphans && k !in s.strays {
        assert Fits(s, k);
      }
    }
    if s.orphans == {} && s.strays == {} {
      forall k: Key
        ensures (k in s.ledger.bodies <==> Has(s.ledger.commands.table, k.channel, k)) && Matches(s.ledger, k) {
        assert Fits(s, k);
      }
    }
  }

  /** In every run from a ledger in agreement, whenever the lease thread is between two
      removals of commands or channels, entries and bodies agree exactly when no fingerprint
      was accepted between its two removals, and none left behind by a process that ended
      there. */
  lemma AgreeExactly(l: Ledger, acts: seq<Act>)
    requires Agrees(l)
    ensures var s := Run(State(l, Idle, {}, {}), acts);
            s.phase.Idle? ==> (Agrees(s.ledger) <==> s.orphans == {} && s.strays == {})
  {
    var s0 := State(l, Idle, {}, {});
    forall k ensures Fits(s0, k) {
    }
    RunKeeps(s0, acts);
    var s := Run(s0, acts);
    if s.phase.Idle? {
      AgreeIf(s);
    }
  }
}
