/**
 * The lease list as a value: leases in order of trigger, ties in order of arrival, and
 * what one pass of the lease thread makes of it (channels/lease.go).
 */
module LeaseOrder {
  import opened Wrappers
  import opened ChannelTypes
  import opened LeaseTrigger

  datatype Lease = Lease(key: Key, originating: Time, lease: Duration, end: Time, trigger: Time)

  ghost predicate Sorted(s: seq<Lease>) {
    forall i, j :: 0 <= i < j < |s| ==> s[i].trigger <= s[j].trigger
  }

  ghost predicate DistinctKeys(s: seq<Lease>) {
    forall i, j :: 0 <= i < j < |s| ==> s[i].key != s[j].key
  }

  function Keys(s: seq<Lease>): set<Key> {
    set l | l in s :: l.key
  }

  /** The first position whose trigger lies after t, or the length of the list. */
  function FindSortedPosition(s: seq<Lease>, t: Time): (p: nat)
    ensures p <= |s|
    ensures forall i :: 0 <= i < p ==> s[i].trigger <= t
    ensures p < |s| ==> s[p].trigger > t
  {
    if s == [] || s[0].trigger > t then 0 else 1 + FindSortedPosition(s[1..], t)
  }

  function Insert(s: seq<Lease>, l: Lease): seq<Lease> {
    var p := FindSortedPosition(s, l.trigger);
    s[..p] + [l] + s[p..]
  }

  function InsertAll(s: seq<Lease>, ls: seq<Lease>): seq<Lease>
    decreases |ls|
  {
    if ls == [] then s else InsertAll(Insert(s, ls[0]), ls[1..])
  }

  function RemoveAt(s: seq<Lease>, i: nat): seq<Lease>
    requires i < |s|
  {
    s[..i] + s[i + 1..]
  }

  /** Changing a trigger in place and moving the element: the position is looked up in a
      list that still holds the element, now possibly out of order. */
  function Reposition(s: seq<Lease>, i: nat, t: Time): seq<Lease>
    requires i < |s|
  {
    var moved := s[i].(trigger := t);
    var p := FindSortedPosition(s[i := moved], t);
    var rest := RemoveAt(s, i);
    var q := if p > i then p - 1 else p;
    rest[..q] + [moved] + rest[q..]
  }

  /** The leases that fire at t, in list order. */
  function AtTrigger(s: seq<Lease>, t: Time): seq<Lease> {
    if s == [] then []
    else if s[0].trigger == t then [s[0]] + AtTrigger(s[1..], t)
    else AtTrigger(s[1..], t)
  }

  lemma PositionUnique(s: seq<Lease>, t: Time, p: nat)
    requires p <= |s|
    requires forall i :: 0 <= i < p ==> s[i].trigger <= t
    requires p < |s| ==> s[p].trigger > t
    ensures FindSortedPosition(s, t) == p
  {
  }

  lemma InsertMembers(s: seq<Lease>, l: Lease)
    ensures multiset(Insert(s, l)) == multiset(s) + multiset{l}
    ensures forall x :: x in Insert(s, l) <==> x in s || x == l
    ensures Keys(Insert(s, l)) == Keys(s) + {l.key}
  {
    var p := FindSortedPosition(s, l.trigger);
    assert s == s[..p] + s[p..];
    assert l in Insert(s, l);
  }

  lemma InsertKeepsOrder(s: seq<Lease>, l: Lease)
    requires Sorted(s)
    ensures Sorted(Insert(s, l))
  {
  }

  lemma InsertKeepsDistinct(s: seq<Lease>, l: Lease)
    requires DistinctKeys(s) && l.key !in Keys(s)
    ensures DistinctKeys(Insert(s, l))
  {
    var p := FindSortedPosition(s, l.trigger);
    var r := Insert(s, l);
    forall i, j | 0 <= i < j < |r| ensures r[i].key != r[j].key {
      assert i != p ==> r[i] == s[if i < p then i else i - 1];
      assert j != p ==> r[j] == s[if j < p then j else j - 1];
    }
  }

  /** Inserting into a list whose first part does not fire later than the new lease
      leaves that part alone. */
  lemma InsertAfterPrefix(d: seq<Lease>, n: seq<Lease>, l: Lease)
    requires forall i :: 0 <= i < |d| ==> d[i].trigger <= l.trigger
    ensures Insert(d + n, l) == d + Insert(n, l)
  {
    var p := FindSortedPosition(n, l.trigger);
    PositionUnique(d + n, l.trigger, |d| + p);
    assert (d + n)[..|d| + p] == d + n[..p];
    assert (d + n)[|d| + p..] == n[p..];
  }

  lemma RemoveAtFacts(s: seq<Lease>, i: nat)
    requires i < |s|
    ensures Sorted(s) ==> Sorted(RemoveAt(s, i))
    ensures multiset(s) == multiset(RemoveAt(s, i)) + multiset{s[i]}
    ensures DistinctKeys(s) ==> DistinctKeys(RemoveAt(s, i)) && s[i].key !in Keys(RemoveAt(s, i))
    ensures DistinctKeys(s) ==> Keys(RemoveAt(s, i)) == Keys(s) - {s[i].key}
  {
    var r := RemoveAt(s, i);
    assert s == s[..i] + [s[i]] + s[i + 1..];
    assert forall x :: x in s <==> x in r || x == s[i];
    assert forall j :: 0 <= j < |r| ==> r[j] == s[if j < i then j else j + 1];
  }

  /** Although the scan sees the moved lease out of place, repositioning is removal
      followed by sorted insertion. */
  lemma RepositionIsRemoveThenInsert(s: seq<Lease>, i: nat, t: Time)
    requires i < |s| && Sorted(s)
    ensures Reposition(s, i, t) == Insert(RemoveAt(s, i), s[i].(trigger := t))
  {
    var moved := s[i].(trigger := t);
    var s' := s[i := moved];
    var p := FindSortedPosition(s', t);
    var rest := RemoveAt(s, i);
    var q := if p > i then p - 1 else p;
    assert p != i;
    forall j | 0 <= j < q ensures rest[j].trigger <= t {
      assert rest[j] == s'[if j < i then j else j + 1];
    }
    if q < |rest| {
      assert rest[q] == s'[if q < i then q else q + 1];
    }
    PositionUnique(rest, t, q);
  }

  lemma {:induction false} NoneAtTrigger(s: seq<Lease>, t: Time)
    requires forall i :: 0 <= i < |s| ==> s[i].trigger != t
    ensures AtTrigger(s, t) == []
  {
    if s != [] {
      NoneAtTrigger(s[1..], t);
    }
  }

  lemma InsertStep(s: seq<Lease>, l: Lease)
    ensures Insert(s, l) == if s == [] || s[0].trigger > l.trigger then [l] + s else [s[0]] + Insert(s[1..], l)
  {
    if s != [] && s[0].trigger <= l.trigger {
      var q := FindSortedPosition(s[1..], l.trigger);
      assert s[..1 + q] == [s[0]] + s[1..][..q];
      assert s[1 + q..] == s[1..][q..];
    }
  }

  function IfAt(l: Lease, t: Time): seq<Lease> {
    if l.trigger == t then [l] else []
  }

  lemma Regroup(x: seq<Lease>, y: seq<Lease>, z: seq<Lease>)
    ensures (x + y) + z == x + (y + z)
  {
  }

  lemma AtTriggerSplit(s: seq<Lease>, t: Time)
    requires s != []
    ensures AtTrigger(s, t) == IfAt(s[0], t) + AtTrigger(s[1..], t)
  {
  }

  lemma AtTriggerCons(h: Lease, s: seq<Lease>, t: Time)
    ensures AtTrigger([h] + s, t) == if h.trigger == t then [h] + AtTrigger(s, t) else AtTrigger(s, t)
  {
    assert ([h] + s)[1..] == s;
  }

  /** Ties keep arrival order: a new lease goes behind every lease of the same trigger
      and changes no other group. */
  lemma {:induction false} InsertIsStable(s: seq<Lease>, l: Lease, t: Time)
    requires Sorted(s)
    ensures AtTrigger(Insert(s, l), t) == AtTrigger(s, t) + IfAt(l, t)
  {
    InsertStep(s, l);
    if s == [] || s[0].trigger > l.trigger {
      AtTriggerCons(l, s, t);
      if l.trigger == t {
        NoneAtTrigger(s, t);
      }
    } else {
      InsertIsStable(s[1..], l, t);
      AtTriggerCons(s[0], Insert(s[1..], l), t);
    }
  }

  lemma {:induction false} InsertAllMembers(s: seq<Lease>, ls: seq<Lease>)
    ensures multiset(InsertAll(s, ls)) == multiset(s) + multiset(ls)
    ensures forall x :: x in InsertAll(s, ls) <==> x in s || x in ls
    decreases |ls|
  {
    if ls != [] {
      InsertMembers(s, ls[0]);
      InsertAllMembers(Insert(s, ls[0]), ls[1..]);
      assert ls == [ls[0]] + ls[1..];
    }
  }

  lemma {:induction false} InsertAllSorted(s: seq<Lease>, ls: seq<Lease>)
    requires Sorted(s)
    ensures Sorted(InsertAll(s, ls))
    decreases |ls|
  {
    if ls != [] {
      InsertKeepsOrder(s, ls[0]);
      InsertAllSorted(Insert(s, ls[0]), ls[1..]);
    }
  }

  /** Building the list by insertion is a stable sort of the arrivals: sorted
      (InsertAllSorted), the same leases (InsertAllMembers), and within every trigger the
      order of arrival. */
  lemma {:induction false} InsertAllIsStable(s: seq<Lease>, ls: seq<Lease>, t: Time)
    requires Sorted(s)
    ensures AtTrigger(InsertAll(s, ls), t) == AtTrigger(s, t) + AtTrigger(ls, t)
    decreases |ls|
  {
    if ls != [] {
      var s' := Insert(s, ls[0]);
      var x, y, z := AtTrigger(s, t), IfAt(ls[0], t), AtTrigger(ls[1..], t);
      InsertKeepsOrder(s, ls[0]);
      InsertAllIsStable(s', ls[1..], t);
      calc {
        AtTrigger(InsertAll(s, ls), t);
        AtTrigger(s', t) + z;
        { InsertIsStable(s, ls[0], t); }
        (x + y) + z;
        { Regroup(x, y, z); }
        x + (y + z);
        { AtTriggerSplit(ls, t); }
        x + AtTrigger(ls, t);
      }
    }
  }

  lemma {:induction false} InsertAllKeys(s: seq<Lease>, ls: seq<Lease>)
    requires DistinctKeys(s) && DistinctKeys(ls) && Keys(s) !! Keys(ls)
    ensures DistinctKeys(InsertAll(s, ls))
    ensures Keys(InsertAll(s, ls)) == Keys(s) + Keys(ls)
    decreases |ls|
  {
    if ls == [] {
    } else {
      assert ls == [ls[0]] + ls[1..];
      assert Keys(ls) == {ls[0].key} + Keys(ls[1..]);
      assert ls[0].key !in Keys(ls[1..]);
      InsertMembers(s, ls[0]);
      InsertKeepsDistinct(s, ls[0]);
      InsertAllKeys(Insert(s, ls[0]), ls[1..]);
    }
  }

  // ----- One pass of the lease thread -----

  /** What a pass does with a lease. */
  datatype Fate =
    | Keep                        // its trigger is in the future
    | Drop                        // its command body is gone
    | Undo                        // the lease is over: emit the undo
    | Lapse                       // replayed, but nothing of the lease is left
    | Reschedule(trigger: Time)   // replayed and given a new trigger

  /** Readings of one pass: the clock when the scan stops, the clock when replayed leases
      are rescheduled, and the seed of each lease's draw. */
  datatype Reading = Reading(now: Time, later: Time, seeds: map<Key, nat>)

  function Seed(r: Reading, k: Key): nat {
    if k in r.seeds then r.seeds[k] else 0
  }

  predicate Due(l: Lease, now: Time) {
    l.trigger <= now - MILLISECOND
  }

  function FateOf(l: Lease, bodies: map<Key, Command>, r: Reading): Fate {
    if !Due(l, r.now) then Keep
    else if l.key !in bodies then Drop
    else if l.trigger >= l.end then Undo
    else match CalculateLeaseTrigger(r.later, l.originating, l.lease, Seed(r, l.key))
      case None => Lapse
      case Some(t) => Reschedule(t)
  }

  predicate Ends(f: Fate) {
    f.Drop? || f.Undo? || f.Lapse?
  }

  predicate Replays(f: Fate) {
    f.Lapse? || f.Reschedule?
  }

  function Kept(s: seq<Lease>, now: Time): seq<Lease> {
    if s == [] then []
    else if Due(s[0], now) then Kept(s[1..], now)
    else [s[0]] + Kept(s[1..], now)
  }

  function Rescheduled(s: seq<Lease>, bodies: map<Key, Command>, r: Reading): seq<Lease> {
    if s == [] then []
    else
      var f := FateOf(s[0], bodies, r);
      if f.Reschedule? then [s[0].(trigger := f.trigger)] + Rescheduled(s[1..], bodies, r)
      else Rescheduled(s[1..], bodies, r)
  }

  function Ended(s: seq<Lease>, bodies: map<Key, Command>, r: Reading): set<Key> {
    set l | l in s && Ends(FateOf(l, bodies, r)) :: l.key
  }

  /** The call that undoes an expired lease: the lease's own payload and times, the
      stored command's everything else. */
  function UndoCall(l: Lease, body: Command): Command {
    body.(channel := l.key.channel, messageType := l.key.action, content := l.key.payload,
          originating := l.originating, lease := l.lease)
  }

  function Undos(s: seq<Lease>, bodies: map<Key, Command>, r: Reading): seq<Command> {
    if s == [] then []
    else if FateOf(s[0], bodies, r).Undo? then
      [UndoCall(s[0], bodies[s[0].key])] + Undos(s[1..], bodies, r)
    else Undos(s[1..], bodies, r)
  }

  /** Keys replayed on the network, in order. */
  function Replayed(s: seq<Lease>, bodies: map<Key, Command>, r: Reading): seq<Key> {
    if s == [] then []
    else if Replays(FateOf(s[0], bodies, r)) then [s[0].key] + Replayed(s[1..], bodies, r)
    else Replayed(s[1..], bodies, r)
  }

  /** The list after a pass: what was not due, with the rescheduled leases put back in. */
  function AfterPass(s: seq<Lease>, bodies: map<Key, Command>, r: Reading): seq<Lease> {
    InsertAll(Kept(s, r.now), Rescheduled(s, bodies, r))
  }

  /** How many leases at the head of the list are due. */
  function DueCount(s: seq<Lease>, now: Time): nat {
    FindSortedPosition(s, now - MILLISECOND)
  }

  /** In a sorted list the due leases are exactly the head, so stopping at the first
      future trigger misses none. */
  lemma {:induction false} KeptIsSuffix(s: seq<Lease>, now: Time)
    requires Sorted(s)
    ensures Kept(s, now) == s[DueCount(s, now)..]
    ensures forall i :: 0 <= i < |s| ==> (Due(s[i], now) <==> i < DueCount(s, now))
  {
    if s != [] {
      var tail := s[1..];
      assert forall i :: 0 <= i < |tail| ==> tail[i] == s[i + 1];
      KeptIsSuffix(tail, now);
      if Due(s[0], now) {
        assert DueCount(s, now) == 1 + DueCount(tail, now);
      } else {
        assert DueCount(s, now) == 0;
        assert DueCount(tail, now) == 0;
      }
    }
  }

  lemma {:induction false} KeptMembers(s: seq<Lease>, now: Time)
    ensures forall l :: l in Kept(s, now) <==> l in s && !Due(l, now)
  {
    if s != [] {
      KeptMembers(s[1..], now);
      assert s == [s[0]] + s[1..];
    }
  }

  /** The alarm is set for the least trigger among the leases that are not due. */
  lemma AlarmIsLeast(s: seq<Lease>, now: Time)
    requires Sorted(s) && Kept(s, now) != []
    ensures Kept(s, now)[0] in s && !Due(Kept(s, now)[0], now)
    ensures forall l :: l in s && !Due(l, now) ==> Kept(s, now)[0].trigger <= l.trigger
  {
    KeptIsSuffix(s, now);
    forall l | l in s && !Due(l, now) ensures Kept(s, now)[0].trigger <= l.trigger {
      var i :| 0 <= i < |s| && s[i] == l;
    }
  }

  /** What the thread sets its alarm to: the first lease that is not due, if there is one. */
  function Alarm(s: seq<Lease>, now: Time): Option<Time> {
    if Kept(s, now) == [] then None else Some(Kept(s, now)[0].trigger)
  }

  /** The time at which the thread has to look at a list again. */
  ghost predicate IsNext(alarm: Option<Time>, s: seq<Lease>) {
    match alarm
    case None => s == []
    case Some(t) => (exists l :: l in s && l.trigger == t) && forall l :: l in s ==> t <= l.trigger
  }

  /** The alarm, set before the replayed leases are rescheduled, is right for the list after
      the pass exactly when none of them is rescheduled ahead of it; when every lease was
      due, exactly when none is rescheduled at all. */
  lemma AlarmIsRightExactly(s: seq<Lease>, bodies: map<Key, Command>, r: Reading)
    requires Sorted(s)
    ensures IsNext(Alarm(s, r.now), AfterPass(s, bodies, r))
       <==> forall l :: l in Rescheduled(s, bodies, r) ==>
              Kept(s, r.now) != [] && Kept(s, r.now)[0].trigger <= l.trigger
  {
    var k, m := Kept(s, r.now), Rescheduled(s, bodies, r);
    InsertAllMembers(k, m);
    KeptMembers(s, r.now);
    if k == [] {
      if m == [] {
        assert InsertAll(k, m) == [];
      } else {
        assert m[0] in m && m[0] in InsertAll(k, m);
      }
    } else {
      AlarmIsLeast(s, r.now);
      assert k[0] in k;
    }
  }

  /** The only lease is replayed and rescheduled: no alarm is set for it. */
  lemma AlarmCanBeMissed(k: Key, body: Command)
    ensures var s := [Lease(k, 0, VALID_FOREVER, VALID_FOREVER, 0)];
            var r := Reading(HOUR, HOUR, map[]);
            && Alarm(s, r.now) == None && |AfterPass(s, map[k := body], r)| == 1
            && !IsNext(Alarm(s, r.now), AfterPass(s, map[k := body], r))
  {
    var l := Lease(k, 0, VALID_FOREVER, VALID_FOREVER, 0);
    var s, r := [l], Reading(HOUR, HOUR, map[]);
    assert s[1..] == [];
    DroppedExactlyWhenElapsed(HOUR, 0, VALID_FOREVER, 0);
    var f := FateOf(l, map[k := body], r);
    assert f.Reschedule?;
    var m := [l.(trigger := f.trigger)];
    assert Rescheduled(s, map[k := body], r) == m;
    assert m[1..] == [];
    assert Kept(s, HOUR) == [];
    assert InsertAll([], m) == InsertAll(Insert([], m[0]), []) == Insert([], m[0]) == m;
  }

  lemma KeysConcat(a: seq<Lease>, b: seq<Lease>)
    ensures Keys(a + b) == Keys(a) + Keys(b)
  {
  }

  ghost function When(c: bool, k: Key): set<Key> {
    if c then {k} else {}
  }

  lemma KeysCons(s: seq<Lease>)
    requires s != []
    ensures Keys(s) == {s[0].key} + Keys(s[1..])
  {
    KeysConcat([s[0]], s[1..]);
    assert s == [s[0]] + s[1..];
  }

  lemma KeptCons(s: seq<Lease>, now: Time)
    requires s != []
    ensures Keys(Kept(s, now)) == When(!Due(s[0], now), s[0].key) + Keys(Kept(s[1..], now))
  {
    KeysConcat([s[0]], Kept(s[1..], now));
  }

  lemma RescheduledCons(s: seq<Lease>, bodies: map<Key, Command>, r: Reading)
    requires s != []
    ensures Keys(Rescheduled(s, bodies, r))
         == When(FateOf(s[0], bodies, r).Reschedule?, s[0].key) + Keys(Rescheduled(s[1..], bodies, r))
  {
    var f := FateOf(s[0], bodies, r);
    if f.Reschedule? {
      KeysConcat([s[0].(trigger := f.trigger)], Rescheduled(s[1..], bodies, r));
    }
  }

  lemma EndedCons(s: seq<Lease>, bodies: map<Key, Command>, r: Reading)
    requires s != []
    ensures Ended(s, bodies, r) == When(Ends(FateOf(s[0], bodies, r)), s[0].key) + Ended(s[1..], bodies, r)
  {
    assert s == [s[0]] + s[1..];
  }

  /** Every key of the list is kept, rescheduled or ended, and only one of them. */
  lemma {:induction false} PassPartition(s: seq<Lease>, bodies: map<Key, Command>, r: Reading)
    requires DistinctKeys(s)
    ensures Keys(Kept(s, r.now)) + Keys(Rescheduled(s, bodies, r)) + Ended(s, bodies, r) == Keys(s)
    ensures Keys(Kept(s, r.now)) !! Keys(Rescheduled(s, bodies, r)) !! Ended(s, bodies, r)
  {
    if s != [] {
      PassPartition(s[1..], bodies, r);
      KeysCons(s);
      KeptCons(s, r.now);
      RescheduledCons(s, bodies, r);
      EndedCons(s, bodies, r);
      assert s[0].key !in Keys(s[1..]);
      ghost var f := FateOf(s[0], bodies, r);
      assert f.Keep? || f.Reschedule? || Ends(f);
    }
  }

  lemma {:induction false} RescheduledDistinct(s: seq<Lease>, bodies: map<Key, Command>, r: Reading)
    requires DistinctKeys(s)
    ensures DistinctKeys(Rescheduled(s, bodies, r))
    ensures Keys(Rescheduled(s, bodies, r)) <= Keys(s)
  {
    if s != [] {
      RescheduledDistinct(s[1..], bodies, r);
      KeysCons(s);
      RescheduledCons(s, bodies, r);
      var m := Rescheduled(s[1..], bodies, r);
      assert s[0].key !in Keys(s[1..]);
      assert forall i :: 0 <= i < |m| ==> m[i].key in Keys(m);
    }
  }

  /** A pass keeps the list sorted and its keys distinct; a key leaves the list exactly
      when its lease ends. */
  lemma PassKeepsOrder(s: seq<Lease>, bodies: map<Key, Command>, r: Reading)
    requires Sorted(s) && DistinctKeys(s)
    ensures Sorted(AfterPass(s, bodies, r)) && DistinctKeys(AfterPass(s, bodies, r))
    ensures Keys(AfterPass(s, bodies, r)) == Keys(s) - Ended(s, bodies, r)
  {
    var k, m := Kept(s, r.now), Rescheduled(s, bodies, r);
    KeptIsSuffix(s, r.now);
    PassPartition(s, bodies, r);
    RescheduledDistinct(s, bodies, r);
    InsertAllKeys(k, m);
    InsertAllSorted(k, m);
  }

  lemma {:induction false} RescheduledMember(s: seq<Lease>, bodies: map<Key, Command>, r: Reading, o: Lease)
    requires o in s && FateOf(o, bodies, r).Reschedule?
    ensures o.(trigger := FateOf(o, bodies, r).trigger) in Rescheduled(s, bodies, r)
  {
    if o != s[0] {
      assert s == [s[0]] + s[1..];
      RescheduledMember(s[1..], bodies, r, o);
    }
  }

  lemma {:induction false} RescheduledOrigin(s: seq<Lease>, bodies: map<Key, Command>, r: Reading, l: Lease)
    returns (o: Lease)
    requires l in Rescheduled(s, bodies, r)
    ensures o in s && FateOf(o, bodies, r) == Reschedule(l.trigger) && l == o.(trigger := l.trigger)
  {
    var f := FateOf(s[0], bodies, r);
    if f.Reschedule? && l == s[0].(trigger := f.trigger) {
      o := s[0];
    } else {
      o := RescheduledOrigin(s[1..], bodies, r, l);
      assert s == [s[0]] + s[1..];
    }
  }

  /** What a pass leaves of one lease. */
  lemma PassFate(s: seq<Lease>, bodies: map<Key, Command>, r: Reading, o: Lease)
    requires Sorted(s) && DistinctKeys(s) && o in s
    ensures var f := FateOf(o, bodies, r);
            && (f.Keep? ==> o in AfterPass(s, bodies, r))
            && (f.Reschedule? ==> o.(trigger := f.trigger) in AfterPass(s, bodies, r))
            && (Ends(f) ==> o.key !in Keys(AfterPass(s, bodies, r)))
  {
    KeptMembers(s, r.now);
    PassKeepsOrder(s, bodies, r);
    InsertAllMembers(Kept(s, r.now), Rescheduled(s, bodies, r));
    if FateOf(o, bodies, r).Reschedule? {
      RescheduledMember(s, bodies, r, o);
    }
  }

  /** Every lease after a pass is an untouched one or the renewal of a replayed one. */
  lemma PassOrigin(s: seq<Lease>, bodies: map<Key, Command>, r: Reading, l: Lease) returns (o: Lease)
    requires l in AfterPass(s, bodies, r)
    ensures o in s
    ensures || (FateOf(o, bodies, r).Keep? && l == o)
            || (FateOf(o, bodies, r) == Reschedule(l.trigger) && l == o.(trigger := l.trigger))
  {
    KeptMembers(s, r.now);
    InsertAllMembers(Kept(s, r.now), Rescheduled(s, bodies, r));
    if l in Kept(s, r.now) {
      o := l;
    } else {
      o := RescheduledOrigin(s, bodies, r, l);
    }
  }
}
