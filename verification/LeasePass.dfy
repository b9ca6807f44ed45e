/**
 * The lease thread's pass as the source runs it (collect, then remove one by one, then
 * reschedule one by one) and the proof that it comes to the one-shot pass of LeaseOrder.
 */
module LeasePass {
  import opened Wrappers
  import opened ChannelTypes
  import opened ChannelStorage
  import opened LeaseTrigger
  import opened LeaseOrder
  import opened ReplayBlocker

  /** Where a key sits in the list, or the length of the list. */
  function IndexOf(s: seq<Lease>, k: Key): (i: nat)
    ensures i <= |s|
    ensures i < |s| <==> k in Keys(s)
    ensures i < |s| ==> s[i].key == k
    ensures forall j :: 0 <= j < i ==> s[j].key != k
  {
    if s == [] || s[0].key == k then 0
    else
      assert s == [s[0]] + s[1..];
      1 + IndexOf(s[1..], k)
  }

  lemma IndexUnique(s: seq<Lease>, i: nat)
    requires DistinctKeys(s) && i < |s|
    ensures IndexOf(s, s[i].key) == i
  {
    assert s[i].key in Keys(s);
  }

  function RemoveKey(s: seq<Lease>, k: Key): seq<Lease> {
    var i := IndexOf(s, k);
    if i < |s| then RemoveAt(s, i) else s
  }

  /** A replayed lease is given a new trigger, or removed when nothing of it is left. */
  function RenewKey(s: seq<Lease>, k: Key, now: Time, seed: nat): seq<Lease> {
    var i := IndexOf(s, k);
    if i == |s| then s
    else match CalculateLeaseTrigger(now, s[i].originating, s[i].lease, seed)
      case None => RemoveAt(s, i)
      case Some(t) => Reposition(s, i, t)
  }

  function RemoveEach(s: seq<Lease>, ks: seq<Key>): seq<Lease>
    decreases |ks|
  {
    if ks == [] then s else RemoveEach(RemoveKey(s, ks[0]), ks[1..])
  }

  function RenewEach(s: seq<Lease>, ks: seq<Key>, r: Reading): seq<Lease>
    decreases |ks|
  {
    if ks == [] then s else RenewEach(RenewKey(s, ks[0], r.later, Seed(r, ks[0])), ks[1..], r)
  }

  /** Keys the scan marks for removal, in list order. Those it marks for renewal are
      the replayed ones. */
  function Marked(s: seq<Lease>, bodies: map<Key, Command>, r: Reading): seq<Key> {
    if s == [] then []
    else
      var f := FateOf(s[0], bodies, r);
      if f.Drop? || f.Undo? then [s[0].key] + Marked(s[1..], bodies, r)
      else Marked(s[1..], bodies, r)
  }

  /** The leases that are replayed. */
  function ReplayedLeases(s: seq<Lease>, bodies: map<Key, Command>, r: Reading): seq<Lease> {
    if s == [] then []
    else if Replays(FateOf(s[0], bodies, r)) then [s[0]] + ReplayedLeases(s[1..], bodies, r)
    else ReplayedLeases(s[1..], bodies, r)
  }

  function SequentialPass(s: seq<Lease>, bodies: map<Key, Command>, r: Reading): seq<Lease> {
    RenewEach(RemoveEach(s, Marked(s, bodies, r)), Replayed(s, bodies, r), r)
  }

  lemma RemoveHead(h: Lease, s: seq<Lease>)
    ensures RemoveKey([h] + s, h.key) == s
  {
    assert ([h] + s)[0] == h;
    assert RemoveAt([h] + s, 0) == s;
  }

  lemma RemovePastHead(h: Lease, s: seq<Lease>, k: Key)
    requires h.key != k
    ensures RemoveKey([h] + s, k) == [h] + RemoveKey(s, k)
  {
    assert ([h] + s)[1..] == s;
    assert IndexOf([h] + s, k) == 1 + IndexOf(s, k);
    var i := IndexOf(s, k);
    if i < |s| {
      assert RemoveAt([h] + s, 1 + i) == [h] + RemoveAt(s, i);
    }
  }

  lemma {:induction false} RemoveEachPastHead(h: Lease, s: seq<Lease>, ks: seq<Key>)
    requires h.key !in ks
    ensures RemoveEach([h] + s, ks) == [h] + RemoveEach(s, ks)
    decreases |ks|
  {
    if ks != [] {
      RemovePastHead(h, s, ks[0]);
      RemoveEachPastHead(h, RemoveKey(s, ks[0]), ks[1..]);
    }
  }

  lemma {:induction false} MarkedMembers(s: seq<Lease>, bodies: map<Key, Command>, r: Reading, k: Key)
    requires k in Marked(s, bodies, r)
    ensures k in Keys(s)
  {
    assert s == [s[0]] + s[1..];
    if k in Marked(s[1..], bodies, r) {
      MarkedMembers(s[1..], bodies, r, k);
    }
  }

  lemma RemoveEachCons(s: seq<Lease>, k: Key, ks: seq<Key>)
    ensures RemoveEach(s, [k] + ks) == RemoveEach(RemoveKey(s, k), ks)
  {
    assert ([k] + ks)[1..] == ks;
  }

  lemma HeadUnmarked(d: seq<Lease>, bodies: map<Key, Command>, r: Reading)
    requires d != [] && DistinctKeys(d) && Due(d[0], r.now)
    requires !FateOf(d[0], bodies, r).Drop? && !FateOf(d[0], bodies, r).Undo?
    ensures d[0].key !in Marked(d[1..], bodies, r)
    ensures Marked(d, bodies, r) == Marked(d[1..], bodies, r)
    ensures ReplayedLeases(d, bodies, r) == [d[0]] + ReplayedLeases(d[1..], bodies, r)
  {
    if d[0].key in Marked(d[1..], bodies, r) {
      MarkedMembers(d[1..], bodies, r, d[0].key);
      assert false;
    }
    assert Marked(d, bodies, r) == [] + Marked(d[1..], bodies, r);
  }

  lemma HeadMarked(d: seq<Lease>, bodies: map<Key, Command>, r: Reading)
    requires d != []
    requires FateOf(d[0], bodies, r).Drop? || FateOf(d[0], bodies, r).Undo?
    ensures Marked(d, bodies, r) == [d[0].key] + Marked(d[1..], bodies, r)
    ensures ReplayedLeases(d, bodies, r) == ReplayedLeases(d[1..], bodies, r)
  {
    assert ReplayedLeases(d, bodies, r) == [] + ReplayedLeases(d[1..], bodies, r);
  }

  /** Removing the marked leases from a list whose due part comes first leaves the
      replayed leases in front of the rest. */
  lemma {:induction false} RemovalPhase(d: seq<Lease>, n: seq<Lease>, bodies: map<Key, Command>, r: Reading)
    requires DistinctKeys(d)
    requires forall i :: 0 <= i < |d| ==> Due(d[i], r.now)
    ensures RemoveEach(d + n, Marked(d, bodies, r)) == ReplayedLeases(d, bodies, r) + n
  {
    if d == [] {
      assert d + n == n;
    } else {
      var h, tail := d[0], d[1..];
      var f := FateOf(h, bodies, r);
      assert d + n == [h] + (tail + n);
      RemovalPhase(tail, n, bodies, r);
      var ks := Marked(tail, bodies, r);
      if f.Drop? || f.Undo? {
        RemoveHead(h, tail + n);
        RemoveEachCons([h] + (tail + n), h.key, ks);
        HeadMarked(d, bodies, r);
      } else {
        HeadUnmarked(d, bodies, r);
        RemoveEachPastHead(h, tail + n, ks);
        assert [h] + (ReplayedLeases(tail, bodies, r) + n) == ([h] + ReplayedLeases(tail, bodies, r)) + n;
      }
    }
  }

  function KeysInOrder(s: seq<Lease>): seq<Key> {
    seq(|s|, i requires 0 <= i < |s| => s[i].key)
  }

  /** The renewals of a run of leases, in order. */
  function Renewals(s: seq<Lease>, r: Reading): seq<Lease> {
    if s == [] then []
    else
      match CalculateLeaseTrigger(r.later, s[0].originating, s[0].lease, Seed(r, s[0].key))
      case None => Renewals(s[1..], r)
      case Some(t) => [s[0].(trigger := t)] + Renewals(s[1..], r)
  }

  /** One renewal at the head: the lease moves behind the other replayed ones. */
  lemma RenewHead(u: seq<Lease>, m: seq<Lease>, r: Reading)
    requires u != [] && Sorted(u + m) && r.now <= r.later
    requires forall i :: 0 <= i < |u| ==> Due(u[i], r.now)
    ensures RenewKey(u + m, u[0].key, r.later, Seed(r, u[0].key))
         == u[1..] + InsertAll(m, Renewals([u[0]], r))
  {
    var h, s := u[0], u + m;
    assert s[0] == h && IndexOf(s, h.key) == 0;
    assert RemoveAt(s, 0) == u[1..] + m;
    match CalculateLeaseTrigger(r.later, h.originating, h.lease, Seed(r, h.key)) {
      case None =>
        assert Renewals([h], r) == [];
      case Some(t) =>
        TriggerWindow(r.later, h.originating, h.lease, Seed(r, h.key));
        RepositionIsRemoveThenInsert(s, 0, t);
        InsertAfterPrefix(u[1..], m, h.(trigger := t));
        assert Renewals([h], r) == [h.(trigger := t)];
        assert InsertAll(m, [h.(trigger := t)]) == Insert(m, h.(trigger := t));
    }
  }

  lemma InsertAllAppend(s: seq<Lease>, a: seq<Lease>, b: seq<Lease>)
    ensures InsertAll(s, a + b) == InsertAll(InsertAll(s, a), b)
    decreases |a|
  {
    if a == [] {
      assert a + b == b;
    } else {
      assert (a + b)[1..] == a[1..] + b;
      InsertAllAppend(Insert(s, a[0]), a[1..], b);
    }
  }

  lemma SortedConcat(u: seq<Lease>, m: seq<Lease>, now: Time)
    requires Sorted(u) && Sorted(m)
    requires forall i :: 0 <= i < |u| ==> Due(u[i], now)
    requires forall i :: 0 <= i < |m| ==> !Due(m[i], now)
    ensures Sorted(u + m)
  {
  }

  lemma RenewalsAreLater(u: Lease, r: Reading, l: Lease)
    requires r.now <= r.later && l in Renewals([u], r)
    ensures !Due(l, r.now)
  {
    TriggerWindow(r.later, u.originating, u.lease, Seed(r, u.key));
  }

  lemma RenewalsCons(u: seq<Lease>, r: Reading)
    requires u != []
    ensures Renewals(u, r) == Renewals([u[0]], r) + Renewals(u[1..], r)
  {
    assert Renewals([u[0]][1..], r) == [];
  }

  lemma RenewalsKeepOrder(u: seq<Lease>, m: seq<Lease>, r: Reading)
    requires u != [] && Sorted(m) && r.now <= r.later
    requires forall i :: 0 <= i < |m| ==> !Due(m[i], r.now)
    ensures Sorted(InsertAll(m, Renewals([u[0]], r)))
    ensures forall l :: l in InsertAll(m, Renewals([u[0]], r)) ==> !Due(l, r.now)
  {
    var first := Renewals([u[0]], r);
    InsertAllSorted(m, first);
    InsertAllMembers(m, first);
    forall l | l in first ensures !Due(l, r.now) { RenewalsAreLater(u[0], r, l); }
  }

  lemma RenewEachCons(s: seq<Lease>, u: seq<Lease>, r: Reading)
    requires u != []
    ensures RenewEach(s, KeysInOrder(u), r)
         == RenewEach(RenewKey(s, u[0].key, r.later, Seed(r, u[0].key)), KeysInOrder(u[1..]), r)
  {
    assert KeysInOrder(u)[1..] == KeysInOrder(u[1..]);
  }

  /** Renewing the replayed leases one by one inserts their renewals into the rest. */
  lemma {:induction false} RenewalPhase(u: seq<Lease>, m: seq<Lease>, r: Reading)
    requires Sorted(u) && Sorted(m) && r.now <= r.later
    requires forall i :: 0 <= i < |u| ==> Due(u[i], r.now)
    requires forall i :: 0 <= i < |m| ==> !Due(m[i], r.now)
    ensures RenewEach(u + m, KeysInOrder(u), r) == InsertAll(m, Renewals(u, r))
    decreases |u|
  {
    if u == [] {
      assert u + m == m;
    } else {
      var first := Renewals([u[0]], r);
      var m' := InsertAll(m, first);
      SortedConcat(u, m, r.now);
      RenewHead(u, m, r);
      RenewEachCons(u + m, u, r);
      RenewalsKeepOrder(u, m, r);
      assert forall i :: 0 <= i < |m'| ==> m'[i] in m';
      RenewalPhase(u[1..], m', r);
      RenewalsCons(u, r);
      InsertAllAppend(m, first, Renewals(u[1..], r));
    }
  }

  /** What a replay makes of one lease is its rescheduling. */
  lemma RenewalOfReplayed(l: Lease, bodies: map<Key, Command>, r: Reading)
    requires Replays(FateOf(l, bodies, r))
    ensures Renewals([l], r) == Rescheduled([l], bodies, r)
  {
  }

  lemma {:induction false} RescheduledSplit(s: seq<Lease>, bodies: map<Key, Command>, r: Reading)
    requires s != []
    ensures Rescheduled(s, bodies, r) == Rescheduled([s[0]], bodies, r) + Rescheduled(s[1..], bodies, r)
    ensures !Replays(FateOf(s[0], bodies, r)) ==> Rescheduled([s[0]], bodies, r) == []
  {
    assert Rescheduled([s[0]][1..], bodies, r) == [];
  }

  lemma {:induction false} ReplayedAreRenewed(s: seq<Lease>, bodies: map<Key, Command>, r: Reading)
    ensures Renewals(ReplayedLeases(s, bodies, r), r) == Rescheduled(s, bodies, r)
    ensures KeysInOrder(ReplayedLeases(s, bodies, r)) == Replayed(s, bodies, r)
  {
    if s != [] {
      ReplayedAreRenewed(s[1..], bodies, r);
      RescheduledSplit(s, bodies, r);
      var u := ReplayedLeases(s[1..], bodies, r);
      if Replays(FateOf(s[0], bodies, r)) {
        RenewalOfReplayed(s[0], bodies, r);
        var v := [s[0]] + u;
        assert v[1..] == u;
        RenewalsCons(v, r);
        assert KeysInOrder(v) == [s[0].key] + KeysInOrder(u);
      } else {
        assert [] + u == u;
      }
    }
  }

  lemma {:induction false} ReplayedLeasesFacts(s: seq<Lease>, bodies: map<Key, Command>, r: Reading)
    requires Sorted(s)
    ensures Sorted(ReplayedLeases(s, bodies, r))
    ensures forall l :: l in ReplayedLeases(s, bodies, r) ==> l in s && Due(l, r.now)
  {
    if s != [] {
      ReplayedLeasesFacts(s[1..], bodies, r);
      assert s == [s[0]] + s[1..];
      var u := ReplayedLeases(s[1..], bodies, r);
      forall i | 0 <= i < |u| ensures s[0].trigger <= u[i].trigger {
        assert u[i] in s[1..];
      }
    }
  }

  lemma {:induction false} NothingAfterDue(d: seq<Lease>, n: seq<Lease>, bodies: map<Key, Command>, r: Reading)
    requires forall i :: 0 <= i < |n| ==> !Due(n[i], r.now)
    ensures Marked(d + n, bodies, r) == Marked(d, bodies, r)
    ensures Replayed(d + n, bodies, r) == Replayed(d, bodies, r)
    ensures Undos(d + n, bodies, r) == Undos(d, bodies, r)
    ensures Rescheduled(d + n, bodies, r) == Rescheduled(d, bodies, r)
    decreases |d| + |n|
  {
    if d != [] {
      assert (d + n)[1..] == d[1..] + n;
      NothingAfterDue(d[1..], n, bodies, r);
    } else if n != [] {
      assert d + n == n;
      NothingAfterDue([], n[1..], bodies, r);
      assert [] + n[1..] == n[1..];
    } else {
      assert d + n == d;
    }
  }

  /** The pass as run, which scans only up to the first future trigger, removes and then
      reschedules element by element on a list that still holds the others, is the
      one-shot pass over the whole list. */
  lemma SequentialPassRefinesFilter(s: seq<Lease>, bodies: map<Key, Command>, r: Reading)
    requires Sorted(s) && DistinctKeys(s) && r.now <= r.later
    ensures var head := s[..DueCount(s, r.now)];
            && Marked(head, bodies, r) == Marked(s, bodies, r)
            && Replayed(head, bodies, r) == Replayed(s, bodies, r)
            && Undos(head, bodies, r) == Undos(s, bodies, r)
    ensures SequentialPass(s, bodies, r) == AfterPass(s, bodies, r)
  {
    var p := DueCount(s, r.now);
    var d, n := s[..p], s[p..];
    assert s == d + n;
    KeptIsSuffix(s, r.now);
    NothingAfterDue(d, n, bodies, r);
    RemovalPhase(d, n, bodies, r);
    ReplayedAreRenewed(d, bodies, r);
    ReplayedLeasesFacts(d, bodies, r);
    RenewalPhase(ReplayedLeases(d, bodies, r), n, r);
  }

  // ----- What a pass makes the blocker and the command store forget -----

  /** A replayed lease that has run out by the time it is renewed. */
  predicate RunsOut(l: Lease, r: Reading) {
    CalculateLeaseTrigger(r.later, l.originating, l.lease, Seed(r, l.key)).None?
  }

  /** A live key whose lease has run out. */
  predicate RunsOutAt(s: seq<Lease>, k: Key, now: Time, seed: nat) {
    var i := IndexOf(s, k);
    i < |s| && CalculateLeaseTrigger(now, s[i].originating, s[i].lease, seed).None?
  }

  function RunOutKeys(u: seq<Lease>, r: Reading): seq<Key> {
    if u == [] then []
    else if RunsOut(u[0], r) then [u[0].key] + RunOutKeys(u[1..], r)
    else RunOutKeys(u[1..], r)
  }

  /** The keys removed while renewing one by one. */
  function LostInRenewal(s: seq<Lease>, ks: seq<Key>, r: Reading): seq<Key>
    decreases |ks|
  {
    if ks == [] then []
    else
      var rest := LostInRenewal(RenewKey(s, ks[0], r.later, Seed(r, ks[0])), ks[1..], r);
      if RunsOutAt(s, ks[0], r.later, Seed(r, ks[0])) then [ks[0]] + rest else rest
  }

  /** Keys whose entry and body a pass forgets, in order. */
  function Forgotten(s: seq<Lease>, bodies: map<Key, Command>, r: Reading): seq<Key> {
    Marked(s, bodies, r) + RunOutKeys(ReplayedLeases(s, bodies, r), r)
  }

  lemma {:induction false} LostAreRunOut(u: seq<Lease>, m: seq<Lease>, r: Reading)
    requires Sorted(u) && Sorted(m) && r.now <= r.later
    requires forall i :: 0 <= i < |u| ==> Due(u[i], r.now)
    requires forall i :: 0 <= i < |m| ==> !Due(m[i], r.now)
    ensures LostInRenewal(u + m, KeysInOrder(u), r) == RunOutKeys(u, r)
    decreases |u|
  {
    if u != [] {
      var m' := InsertAll(m, Renewals([u[0]], r));
      SortedConcat(u, m, r.now);
      RenewHead(u, m, r);
      RenewalsKeepOrder(u, m, r);
      assert forall i :: 0 <= i < |m'| ==> m'[i] in m';
      assert KeysInOrder(u)[1..] == KeysInOrder(u[1..]);
      assert IndexOf(u + m, u[0].key) == 0 by { assert (u + m)[0] == u[0]; }
      LostAreRunOut(u[1..], m', r);
    }
  }

  lemma {:induction false} ReplayedLeasesAfterDue(d: seq<Lease>, n: seq<Lease>, bodies: map<Key, Command>, r: Reading)
    requires forall i :: 0 <= i < |n| ==> !Due(n[i], r.now)
    ensures ReplayedLeases(d + n, bodies, r) == ReplayedLeases(d, bodies, r)
    decreases |d| + |n|
  {
    if d != [] {
      assert (d + n)[1..] == d[1..] + n;
      ReplayedLeasesAfterDue(d[1..], n, bodies, r);
    } else if n != [] {
      assert d + n == n;
      ReplayedLeasesAfterDue([], n[1..], bodies, r);
      assert [] + n[1..] == n[1..];
    } else {
      assert d + n == d;
    }
  }

  lemma SequentialPassForgets(s: seq<Lease>, bodies: map<Key, Command>, r: Reading)
    requires Sorted(s) && DistinctKeys(s) && r.now <= r.later
    ensures Forgotten(s, bodies, r)
         == Marked(s, bodies, r)
            + LostInRenewal(RemoveEach(s, Marked(s, bodies, r)), Replayed(s, bodies, r), r)
  {
    var p := DueCount(s, r.now);
    var d, n := s[..p], s[p..];
    assert s == d + n;
    KeptIsSuffix(s, r.now);
    LostPhase(d, n, bodies, r);
    NothingAfterDue(d, n, bodies, r);
    ReplayedLeasesAfterDue(d, n, bodies, r);
    RemovalPhase(d, n, bodies, r);
  }

  lemma LostPhase(d: seq<Lease>, n: seq<Lease>, bodies: map<Key, Command>, r: Reading)
    requires Sorted(d) && Sorted(n) && r.now <= r.later
    requires forall i :: 0 <= i < |n| ==> !Due(n[i], r.now)
    ensures var u := ReplayedLeases(d, bodies, r);
            LostInRenewal(u + n, Replayed(d, bodies, r), r) == RunOutKeys(u, r)
  {
    var u := ReplayedLeases(d, bodies, r);
    ReplayedAreRenewed(d, bodies, r);
    ReplayedLeasesFacts(d, bodies, r);
    assert forall i :: 0 <= i < |u| ==> u[i] in u;
    LostAreRunOut(u, n, r);
  }

  lemma {:induction false} RunOutMembers(s: seq<Lease>, bodies: map<Key, Command>, r: Reading, k: Key)
    ensures k in RunOutKeys(ReplayedLeases(s, bodies, r), r)
       <==> exists l :: l in s && l.key == k && FateOf(l, bodies, r).Lapse?
  {
    if s != [] {
      RunOutMembers(s[1..], bodies, r, k);
      var u := ReplayedLeases(s[1..], bodies, r);
      assert s == [s[0]] + s[1..];
      if Replays(FateOf(s[0], bodies, r)) {
        assert ([s[0]] + u)[1..] == u;
      } else {
        assert [] + u == u;
      }
    }
  }

  lemma {:induction false} MarkedExactly(s: seq<Lease>, bodies: map<Key, Command>, r: Reading, k: Key)
    ensures k in Marked(s, bodies, r)
       <==> exists l :: l in s && l.key == k && (FateOf(l, bodies, r).Drop? || FateOf(l, bodies, r).Undo?)
  {
    if s != [] {
      MarkedExactly(s[1..], bodies, r, k);
      assert s == [s[0]] + s[1..];
    }
  }

  /** The keys forgotten are exactly those of the leases that end. */
  lemma ForgottenAreEnded(s: seq<Lease>, bodies: map<Key, Command>, r: Reading)
    ensures (set k | k in Forgotten(s, bodies, r)) == Ended(s, bodies, r)
  {
    forall k: Key ensures k in Forgotten(s, bodies, r) <==> k in Ended(s, bodies, r) {
      RunOutMembers(s, bodies, r, k);
      MarkedExactly(s, bodies, r, k);
    }
  }

  // ----- The scan, as it appends to its lists -----

  /** Keys a scan over due leases marks for removal. */
  function ScanMarked(s: seq<Lease>, bodies: map<Key, Command>): seq<Key> {
    if s == [] then []
    else
      var l := s[|s| - 1];
      ScanMarked(s[..|s| - 1], bodies) + (if l.key !in bodies || l.trigger >= l.end then [l.key] else [])
  }

  function ScanUndos(s: seq<Lease>, bodies: map<Key, Command>): seq<Command> {
    if s == [] then []
    else
      var l := s[|s| - 1];
      ScanUndos(s[..|s| - 1], bodies)
      + (if l.key in bodies && l.trigger >= l.end then [UndoCall(l, bodies[l.key])] else [])
  }

  function ScanReplayed(s: seq<Lease>, bodies: map<Key, Command>): seq<Key> {
    if s == [] then []
    else
      var l := s[|s| - 1];
      ScanReplayed(s[..|s| - 1], bodies) + (if l.key in bodies && l.trigger < l.end then [l.key] else [])
  }

  lemma {:induction false} MarkedSnoc(s: seq<Lease>, l: Lease, bodies: map<Key, Command>, r: Reading)
    ensures Marked(s + [l], bodies, r) == Marked(s, bodies, r) + Marked([l], bodies, r)
    ensures Undos(s + [l], bodies, r) == Undos(s, bodies, r) + Undos([l], bodies, r)
    ensures Replayed(s + [l], bodies, r) == Replayed(s, bodies, r) + Replayed([l], bodies, r)
  {
    if s == [] {
      assert s + [l] == [l];
    } else {
      assert (s + [l])[1..] == s[1..] + [l];
      MarkedSnoc(s[1..], l, bodies, r);
    }
  }

  lemma OneMarked(l: Lease, bodies: map<Key, Command>, r: Reading)
    requires Due(l, r.now)
    ensures Marked([l], bodies, r) == if l.key !in bodies || l.trigger >= l.end then [l.key] else []
    ensures Undos([l], bodies, r) == if l.key in bodies && l.trigger >= l.end then [UndoCall(l, bodies[l.key])] else []
    ensures Replayed([l], bodies, r) == if l.key in bodies && l.trigger < l.end then [l.key] else []
  {
    assert [l][1..] == [];
  }

  /** What the scan collects from due leases is what their fates say, whatever the later
      readings are. */
  lemma {:induction false} ScanCollects(s: seq<Lease>, bodies: map<Key, Command>, r: Reading)
    requires forall i :: 0 <= i < |s| ==> Due(s[i], r.now)
    ensures ScanMarked(s, bodies) == Marked(s, bodies, r)
    ensures ScanUndos(s, bodies) == Undos(s, bodies, r)
    ensures ScanReplayed(s, bodies) == Replayed(s, bodies, r)
  {
    if s != [] {
      var n := |s| - 1;
      ScanCollects(s[..n], bodies, r);
      MarkedSnoc(s[..n], s[n], bodies, r);
      OneMarked(s[n], bodies, r);
      assert s == s[..n] + [s[n]];
    }
  }

  ghost predicate Unique(ks: seq<Key>) {
    forall i, j :: 0 <= i < j < |ks| ==> ks[i] != ks[j]
  }

  lemma {:induction false} MarkedUnique(s: seq<Lease>, bodies: map<Key, Command>, r: Reading)
    requires DistinctKeys(s)
    ensures Unique(Marked(s, bodies, r))
    ensures forall k :: k in Marked(s, bodies, r) ==> k in Keys(s)
  {
    if s != [] {
      MarkedUnique(s[1..], bodies, r);
      KeysCons(s);
      var m := Marked(s[1..], bodies, r);
      assert s[0].key !in Keys(s[1..]);
      assert forall i :: 0 <= i < |m| ==> m[i] in m;
    }
  }

  lemma RemoveKeyKeys(s: seq<Lease>, k: Key)
    requires DistinctKeys(s)
    ensures Keys(RemoveKey(s, k)) == Keys(s) - {k}
  {
    var i := IndexOf(s, k);
    if i < |s| {
      RemoveAtFacts(s, i);
    }
  }

  /** What a pass sends: the encrypted payload of each replayed command. */
  function Sends(ks: seq<Key>, bodies: map<Key, Command>): seq<(ChannelID, Blob)> {
    if ks == [] then []
    else
      (if ks[0] in bodies then [(ks[0].channel, bodies[ks[0]].encrypted)] else []) + Sends(ks[1..], bodies)
  }

  lemma SendsSnoc(ks: seq<Key>, k: Key, bodies: map<Key, Command>)
    requires k in bodies
    ensures Sends(ks + [k], bodies) == Sends(ks, bodies) + [(k.channel, bodies[k].encrypted)]
  {
    if ks == [] {
      assert ks + [k] == [k];
      assert Sends([k][1..], bodies) == [];
    } else {
      assert (ks + [k])[1..] == ks[1..] + [k];
    }
  }

  /** Forgetting keys one by one as their leases leave the list. */
  function ForgetListed(l: Ledger, s: seq<Lease>, ks: seq<Key>): Ledger
    decreases |ks|
  {
    if ks == [] then l
    else ForgetListed(if ks[0] in Keys(s) then Forget(l, ks[0]) else l, RemoveKey(s, ks[0]), ks[1..])
  }

  lemma {:induction false} AllListed(l: Ledger, s: seq<Lease>, ks: seq<Key>)
    requires DistinctKeys(s) && Unique(ks) && forall k :: k in ks ==> k in Keys(s)
    ensures ForgetListed(l, s, ks) == ForgetEach(l, ks)
    decreases |ks|
  {
    if ks != [] {
      var s' := RemoveKey(s, ks[0]);
      RemoveKeyKeys(s, ks[0]);
      RemoveAtFacts(s, IndexOf(s, ks[0]));
      forall k | k in ks[1..] ensures k in Keys(s') {
        var i :| 0 <= i < |ks[1..]| && ks[1..][i] == k;
        assert k == ks[i + 1] && k in ks;
      }
      AllListed(Forget(l, ks[0]), s', ks[1..]);
    }
  }
}
