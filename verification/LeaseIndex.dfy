/**
 * The two structures of channels/lease.go that must agree: the list of leases and the
 * index from channel and fingerprint to lease. A list element refers to its lease message
 * by fingerprint and the index holds the message, so a trigger changed in the index is
 * the trigger seen from the list.
 */
module LeaseIndex {
  import opened Wrappers
  import opened ChannelTypes
  import opened ChannelStorage
  import opened LeaseTrigger
  import opened LeaseOrder
  import opened LeasePass

  /** List and index hold the same leases, each once, under its own channel and
      fingerprint, and no channel of the index is empty. */
  ghost predicate Linked(list: seq<Key>, index: Table<Key, Lease>) {
    && Unique(list)
    && (forall k: Key :: k in list <==> Has(index, k.channel, k))
    && WellKeyed(index)
    && NoEmptyChannel(index)
  }

  ghost predicate WellKeyed(index: Table<Key, Lease>) {
    forall c, k :: Has(index, c, k) ==> k.channel == c && index[c][k].key == k
  }

  ghost predicate AllLinked(list: seq<Key>, index: Table<Key, Lease>) {
    forall i :: 0 <= i < |list| ==> Has(index, list[i].channel, list[i])
  }

  /** The leases in list order. */
  ghost function Deref(list: seq<Key>, index: Table<Key, Lease>): (s: seq<Lease>)
    requires AllLinked(list, index)
    ensures |s| == |list|
    ensures forall i :: 0 <= i < |s| ==> s[i] == index[list[i].channel][list[i]]
  {
    seq(|list|, i requires 0 <= i < |list| => index[list[i].channel][list[i]])
  }

  lemma DerefKeys(list: seq<Key>, index: Table<Key, Lease>)
    requires Linked(list, index)
    ensures DistinctKeys(Deref(list, index))
    ensures forall k :: k in Keys(Deref(list, index)) <==> k in list
    ensures forall i :: 0 <= i < |list| ==> IndexOf(Deref(list, index), list[i]) == i
  {
    var s := Deref(list, index);
    forall i | 0 <= i < |list| ensures s[i].key == list[i] && s[i] in s {
      assert Has(index, list[i].channel, list[i]);
    }
    forall k | k in Keys(s) ensures k in list {
      var l :| l in s && l.key == k;
    }
    forall i | 0 <= i < |list| ensures IndexOf(s, list[i]) == i {
      IndexUnique(s, i);
    }
  }

  function InsertKeyAt(list: seq<Key>, p: nat, k: Key): seq<Key>
    requires p <= |list|
  {
    list[..p] + [k] + list[p..]
  }

  function DropAt(list: seq<Key>, i: nat): seq<Key>
    requires i < |list|
  {
    list[..i] + list[i + 1..]
  }

  lemma LinkNew(list: seq<Key>, index: Table<Key, Lease>, l: Lease, p: nat)
    requires Linked(list, index) && p <= |list| && !Has(index, l.key.channel, l.key)
    ensures Linked(InsertKeyAt(list, p, l.key), Put(index, l.key.channel, l.key, l))
  {
    var list', index' := InsertKeyAt(list, p, l.key), Put(index, l.key.channel, l.key, l);
    assert list == list[..p] + list[p..];
    forall k: Key ensures k in list' <==> Has(index', k.channel, k) {
      PutLookup(index, l.key.channel, l.key, l, k.channel, k);
      assert k in list' <==> k in list || k == l.key;
    }
    forall c, k | Has(index', c, k) ensures k.channel == c && index'[c][k].key == k {
      PutLookup(index, l.key.channel, l.key, l, c, k);
    }
    assert l.key in index'[l.key.channel];
    assert l.key !in list;
    InsertedDistinct(list, p, l.key);
  }

  lemma InsertedDistinct(list: seq<Key>, p: nat, key: Key)
    requires p <= |list| && key !in list && Unique(list)
    ensures Unique(InsertKeyAt(list, p, key))
  {
    var list' := InsertKeyAt(list, p, key);
    forall i, j | 0 <= i < j < |list'| ensures list'[i] != list'[j] {
      assert i != p ==> list'[i] == list[if i < p then i else i - 1];
      assert j != p ==> list'[j] == list[if j < p then j else j - 1];
    }
  }

  lemma DerefNew(list: seq<Key>, index: Table<Key, Lease>, l: Lease, p: nat)
    requires Linked(list, index) && p <= |list| && !Has(index, l.key.channel, l.key)
    requires AllLinked(InsertKeyAt(list, p, l.key), Put(index, l.key.channel, l.key, l))
    ensures Deref(InsertKeyAt(list, p, l.key), Put(index, l.key.channel, l.key, l))
         == Deref(list, index)[..p] + [l] + Deref(list, index)[p..]
  {
    var list', index' := InsertKeyAt(list, p, l.key), Put(index, l.key.channel, l.key, l);
    var s, s' := Deref(list, index), Deref(list', index');
    forall i | 0 <= i < |list'| ensures s'[i] == (s[..p] + [l] + s[p..])[i] {
      PutLookup(index, l.key.channel, l.key, l, list'[i].channel, list'[i]);
      if i != p {
        var j := if i < p then i else i - 1;
        assert list'[i] == list[j] && list[j] in list;
      }
    }
  }

  lemma DropAtFacts(list: seq<Key>, i: nat)
    requires i < |list|
    ensures forall j :: 0 <= j < |DropAt(list, i)| ==> DropAt(list, i)[j] == list[if j < i then j else j + 1]
    ensures Unique(list) ==> Unique(DropAt(list, i))
    ensures Unique(list) ==> forall k :: k in DropAt(list, i) <==> k in list && k != list[i]
  {
    assert list == list[..i] + [list[i]] + list[i + 1..];
  }

  lemma UnlinkKeepsLinked(list: seq<Key>, index: Table<Key, Lease>, i: nat)
    requires Linked(list, index) && i < |list|
    ensures Linked(DropAt(list, i), Remove(index, list[i].channel, list[i]))
  {
    var key := list[i];
    var list', index' := DropAt(list, i), Remove(index, key.channel, key);
    DropAtFacts(list, i);
    forall k: Key ensures k in list' <==> Has(index', k.channel, k) {
      RemoveLookup(index, key.channel, key, k.channel, k);
    }
    forall c, k | Has(index', c, k) ensures k.channel == c && index'[c][k].key == k {
      RemoveLookup(index, key.channel, key, c, k);
    }
  }

  lemma Unlink(list: seq<Key>, index: Table<Key, Lease>, i: nat)
    requires Linked(list, index) && i < |list|
    ensures Linked(DropAt(list, i), Remove(index, list[i].channel, list[i]))
    ensures Deref(DropAt(list, i), Remove(index, list[i].channel, list[i])) == RemoveAt(Deref(list, index), i)
  {
    var key := list[i];
    var list', index' := DropAt(list, i), Remove(index, key.channel, key);
    UnlinkKeepsLinked(list, index, i);
    DropAtFacts(list, i);
    forall j | 0 <= j < |list'|
      ensures Has(index', list'[j].channel, list'[j])
      ensures index'[list'[j].channel][list'[j]] == index[list'[j].channel][list'[j]]
    {
      assert list'[j] in list';
      RemoveLookup(index, key.channel, key, list'[j].channel, list'[j]);
    }
  }

  /** Changing a lease in place. */
  lemma Relink(list: seq<Key>, index: Table<Key, Lease>, i: nat, l: Lease)
    requires Linked(list, index) && i < |list| && l.key == list[i]
    ensures Linked(list, Put(index, l.key.channel, l.key, l))
    ensures Deref(list, Put(index, l.key.channel, l.key, l)) == Deref(list, index)[i := l]
  {
    var index' := Put(index, l.key.channel, l.key, l);
    forall c, k: Key ensures Has(index', c, k) <==> Has(index, c, k) {
      assert list[i] in list;
      PutLookup(index, l.key.channel, l.key, l, c, k);
    }
    forall c, k | Has(index', c, k) ensures k.channel == c && index'[c][k].key == k {
      PutLookup(index, l.key.channel, l.key, l, c, k);
    }
    assert l.key in index'[l.key.channel];
    forall j | 0 <= j < |list|
      ensures index'[list[j].channel][list[j]] == if j == i then l else index[list[j].channel][list[j]]
    {
      assert list[j] in list;
      PutLookup(index, l.key.channel, l.key, l, list[j].channel, list[j]);
    }
  }

  function MoveKey(list: seq<Key>, i: nat, q: nat): seq<Key>
    requires i < |list| && q < |list|
  {
    InsertKeyAt(DropAt(list, i), q, list[i])
  }

  /** Position j of a moved list comes from this position of the original. */
  function Source(i: nat, q: nat, j: nat): nat {
    if j == q then i
    else
      var r := if j < q then j else j - 1;
      if r < i then r else r + 1
  }

  function Moved(s: seq<Lease>, i: nat, q: nat): seq<Lease>
    requires i < |s| && q < |s|
  {
    RemoveAt(s, i)[..q] + [s[i]] + RemoveAt(s, i)[q..]
  }

  lemma MovedAt(s: seq<Lease>, i: nat, q: nat)
    requires i < |s| && q < |s|
    ensures |Moved(s, i, q)| == |s|
    ensures forall j :: 0 <= j < |s| ==> Source(i, q, j) < |s| && Moved(s, i, q)[j] == s[Source(i, q, j)]
  {
  }

  lemma MoveKeyAt(list: seq<Key>, i: nat, q: nat)
    requires i < |list| && q < |list|
    ensures |MoveKey(list, i, q)| == |list|
    ensures forall j :: 0 <= j < |list| ==> Source(i, q, j) < |list| && MoveKey(list, i, q)[j] == list[Source(i, q, j)]
    ensures forall k :: k in MoveKey(list, i, q) <==> k in list
  {
    var rest := DropAt(list, i);
    assert list == list[..i] + [list[i]] + list[i + 1..];
    assert rest == rest[..q] + rest[q..];
    assert forall k :: k in rest || k == list[i] <==> k in list;
  }

  /** Moving an element of the list. */
  lemma MoveLinked(list: seq<Key>, index: Table<Key, Lease>, i: nat, q: nat)
    requires Linked(list, index) && i < |list| && q < |list|
    ensures Linked(MoveKey(list, i, q), index)
  {
    MoveKeyAt(list, i, q);
    var list' := MoveKey(list, i, q);
    forall a, b | 0 <= a < b < |list'| ensures list'[a] != list'[b] {
      assert Source(i, q, a) != Source(i, q, b);
    }
  }

  lemma DerefMoved(list: seq<Key>, index: Table<Key, Lease>, i: nat, q: nat)
    requires Linked(list, index) && i < |list| && q < |list|
    requires AllLinked(MoveKey(list, i, q), index)
    ensures Deref(MoveKey(list, i, q), index) == Moved(Deref(list, index), i, q)
  {
    MoveKeyAt(list, i, q);
    MovedAt(Deref(list, index), i, q);
  }

  /** The keys of a channel taken off the list. */
  function KeysOutside(list: seq<Key>, c: ChannelID): seq<Key> {
    if list == [] then []
    else if list[0].channel == c then KeysOutside(list[1..], c)
    else [list[0]] + KeysOutside(list[1..], c)
  }

  function Outside(s: seq<Lease>, c: ChannelID): seq<Lease> {
    if s == [] then []
    else if s[0].key.channel == c then Outside(s[1..], c)
    else [s[0]] + Outside(s[1..], c)
  }

  /** The list without some keys. */
  function KeysWithout(list: seq<Key>, ks: set<Key>): seq<Key> {
    if list == [] then []
    else if list[0] in ks then KeysWithout(list[1..], ks)
    else [list[0]] + KeysWithout(list[1..], ks)
  }

  lemma {:induction false} KeysWithoutTwice(list: seq<Key>, a: set<Key>, b: set<Key>)
    ensures KeysWithout(KeysWithout(list, a), b) == KeysWithout(list, a + b)
  {
    if list != [] {
      KeysWithoutTwice(list[1..], a, b);
      if list[0] !in a {
        assert ([list[0]] + KeysWithout(list[1..], a))[1..] == KeysWithout(list[1..], a);
      }
    }
  }

  lemma {:induction false} KeysWithoutNone(list: seq<Key>)
    ensures KeysWithout(list, {}) == list
  {
    if list != [] {
      KeysWithoutNone(list[1..]);
    }
  }

  lemma {:induction false} KeysWithoutChannel(list: seq<Key>, ks: set<Key>, c: ChannelID)
    requires forall k :: k in list ==> (k in ks <==> k.channel == c)
    ensures KeysWithout(list, ks) == KeysOutside(list, c)
  {
    if list != [] {
      KeysWithoutChannel(list[1..], ks, c);
    }
  }

  lemma {:induction false} KeysOutsideMembers(list: seq<Key>, c: ChannelID)
    ensures forall k :: k in KeysOutside(list, c) <==> k in list && k.channel != c
    ensures (forall i, j :: 0 <= i < j < |list| ==> list[i] != list[j]) ==>
              forall i, j :: 0 <= i < j < |KeysOutside(list, c)| ==> KeysOutside(list, c)[i] != KeysOutside(list, c)[j]
  {
    if list != [] {
      KeysOutsideMembers(list[1..], c);
      assert list == [list[0]] + list[1..];
      var r := KeysOutside(list[1..], c);
      assert forall i :: 0 <= i < |r| ==> r[i] in r;
      if forall i, j :: 0 <= i < j < |list| ==> list[i] != list[j] {
        assert list[0] !in list[1..];
      }
    }
  }

  lemma {:induction false} OutsideMembers(s: seq<Lease>, c: ChannelID)
    ensures forall l :: l in Outside(s, c) <==> l in s && l.key.channel != c
  {
    if s != [] {
      OutsideMembers(s[1..], c);
      assert s == [s[0]] + s[1..];
    }
  }

  lemma {:induction false} OutsideSorted(s: seq<Lease>, c: ChannelID)
    requires Sorted(s)
    ensures Sorted(Outside(s, c))
  {
    if s != [] {
      OutsideSorted(s[1..], c);
      OutsideMembers(s[1..], c);
      var r := Outside(s[1..], c);
      forall i | 0 <= i < |r| ensures s[0].trigger <= r[i].trigger {
        assert r[i] in s[1..];
      }
    }
  }

  lemma OutsideFacts(s: seq<Lease>, c: ChannelID)
    ensures forall l :: l in Outside(s, c) <==> l in s && l.key.channel != c
    ensures Sorted(s) ==> Sorted(Outside(s, c))
  {
    OutsideMembers(s, c);
    if Sorted(s) {
      OutsideSorted(s, c);
    }
  }

  lemma {:induction false} DerefOutside(list: seq<Key>, index: Table<Key, Lease>, c: ChannelID)
    requires WellKeyed(index) && AllLinked(list, index)
    ensures AllLinked(KeysOutside(list, c), index - {c})
    ensures Deref(KeysOutside(list, c), index - {c}) == Outside(Deref(list, index), c)
  {
    if list != [] {
      assert forall i :: 0 <= i < |list[1..]| ==> list[1..][i] == list[i + 1];
      DerefOutside(list[1..], index, c);
      assert Deref(list, index)[1..] == Deref(list[1..], index);
      assert Deref(list, index)[0].key == list[0];
      if list[0].channel != c {
        assert Has(index - {c}, list[0].channel, list[0]);
        var r := KeysOutside(list[1..], c);
        assert Deref([list[0]] + r, index - {c}) == [Deref(list, index)[0]] + Deref(r, index - {c});
      }
    }
  }

  lemma UnlinkChannel(list: seq<Key>, index: Table<Key, Lease>, c: ChannelID)
    requires Linked(list, index)
    ensures Linked(KeysOutside(list, c), index - {c})
    ensures Deref(KeysOutside(list, c), index - {c}) == Outside(Deref(list, index), c)
  {
    assert AllLinked(list, index) by { assert forall i :: 0 <= i < |list| ==> list[i] in list; }
    KeysOutsideMembers(list, c);
    DerefOutside(list, index, c);
    forall c', k: Key ensures Has(index - {c}, c', k) <==> c' != c && Has(index, c', k) {}
  }

  // ----- Storage -----

  /** When the list was last loaded, with the draws that were made then. */
  datatype Loading = Loading(at: Time, seeds: map<Key, nat>)

  function SeedFor(seeds: map<Key, nat>, k: Key): nat {
    if k in seeds then seeds[k] else 0
  }

  /** A lease read back from storage: one whose trigger has passed waits 5 to 30 minutes
      for another client's replay, and an expired one is kept that much longer. */
  function Reloaded(l: Lease, now: Time, seed: nat): Lease {
    if l.trigger < now then
      var t := now + RandDurationInRange(REPLAY_WAIT_MIN, REPLAY_WAIT_MAX, seed);
      l.(end := if l.trigger == l.end then t else l.end, trigger := t)
    else l
  }

  /** What loading makes of a stored lease: one whose trigger is not past is as it was; of
      another the trigger lies 5 to 30 minutes ahead, and so does its end if that was its
      trigger. */
  lemma ReloadedExactly(l: Lease, now: Time, seed: nat)
    ensures var back := Reloaded(l, now, seed);
            && (l.trigger >= now ==> back == l)
            && (l.trigger < now ==>
                  && now + 5 * MINUTE <= back.trigger <= now + 30 * MINUTE
                  && back == l.(trigger := back.trigger, end := if l.trigger == l.end then back.trigger else l.end))
  {
  }

  /** A stored record as it is after loading. */
  function ReloadRecord(record: map<Key, Lease>, now: Time, seeds: map<Key, nat>): map<Key, Lease> {
    map k | k in record :: Reloaded(record[k], now, SeedFor(seeds, k))
  }

  /** Disk equals memory, but for channels not written since they were loaded: of those
      memory holds what loading made of the record. */
  ghost predicate StoredAs(image: Image<Key, Lease>, index: Table<Key, Lease>, load: Loading) {
    && image.channels == index.Keys
    && image.records.Keys == index.Keys
    && forall c :: c in index ==> RecordAgrees(image.records[c], index[c], load)
  }

  ghost predicate RecordAgrees(record: map<Key, Lease>, live: map<Key, Lease>, load: Loading) {
    record == live || live == ReloadRecord(record, load.at, load.seeds)
  }

  /** Writing one channel back, after a change of that channel only, brings it in sync. */
  lemma WriteBack(image: Image<Key, Lease>, index: Table<Key, Lease>, load: Loading,
                  index': Table<Key, Lease>, c: ChannelID, channelIdUpdate: bool)
    requires StoredAs(image, index, load) && NoEmptyChannel(index')
    requires index - {c} == index' - {c}
    requires (c in index) != (c in index') ==> channelIdUpdate
    ensures StoredAs(UpdateStorage(image, index', c, channelIdUpdate), index', load)
  {
    forall d | d != c ensures d in index <==> d in index' {
      assert d in index - {c} <==> d in index' - {c};
    }
    var image' := UpdateStorage(image, index', c, channelIdUpdate);
    assert image'.records.Keys == index'.Keys;
    forall d | d in index' ensures RecordAgrees(image'.records[d], index'[d], load) {
      if d != c {
        assert index[d] == (index - {c})[d] == (index' - {c})[d] == index'[d];
        assert RecordAgrees(image.records[d], index[d], load);
      }
    }
  }

  // ----- The lease list's whole state and its operations -----

  datatype LeaseState = LeaseState(list: seq<Key>, index: Table<Key, Lease>, image: Image<Key, Lease>)

  /** List and index agree, the list is sorted by trigger, and storage mirrors both but
      for what the last load moved. */
  ghost predicate Good(s: LeaseState, load: Loading) {
    && Linked(s.list, s.index)
    && AllLinked(s.list, s.index)
    && Sorted(Deref(s.list, s.index))
    && StoredAs(s.image, s.index, load)
  }

  ghost function LeasesOf(s: LeaseState): seq<Lease>
    requires AllLinked(s.list, s.index)
  {
    Deref(s.list, s.index)
  }

  /** A change of one channel of the index, written back to storage. */
  function Written(s: LeaseState, list: seq<Key>, index: Table<Key, Lease>, c: ChannelID): LeaseState {
    LeaseState(list, index, UpdateStorage(s.image, index, c, (c in s.index) != (c in index)))
  }

  function AddAt(s: LeaseState, l: Lease, p: nat): LeaseState
    requires p <= |s.list|
  {
    Written(s, InsertKeyAt(s.list, p, l.key), Put(s.index, l.key.channel, l.key, l), l.key.channel)
  }

  function DeleteAt(s: LeaseState, i: nat): LeaseState
    requires i < |s.list|
  {
    Written(s, DropAt(s.list, i), Remove(s.index, s.list[i].channel, s.list[i]), s.list[i].channel)
  }

  /** The lease at i gets a new trigger and the place that findSortedPosition finds. */
  function RetimeAt(s: LeaseState, i: nat, t: Time, q: nat): LeaseState
    requires i < |s.list| && q < |s.list| && Has(s.index, s.list[i].channel, s.list[i])
  {
    Written(s, MoveKey(s.list, i, q), Retimed(s, i, t), s.list[i].channel)
  }

  lemma ListedIsLinked(list: seq<Key>, index: Table<Key, Lease>)
    requires Linked(list, index)
    ensures AllLinked(list, index)
  {
    assert forall i :: 0 <= i < |list| ==> list[i] in list;
  }

  lemma PutTouchesOneChannel(index: Table<Key, Lease>, c: ChannelID, k: Key, l: Lease)
    ensures index - {c} == Put(index, c, k, l) - {c}
    ensures index - {c} == Remove(index, c, k) - {c}
  {
  }

  lemma AddGood(s: LeaseState, load: Loading, l: Lease)
    requires Good(s, load) && !Has(s.index, l.key.channel, l.key)
    ensures var s' := AddAt(s, l, FindSortedPosition(LeasesOf(s), l.trigger));
            Good(s', load) && LeasesOf(s') == Insert(LeasesOf(s), l)
  {
    var p := FindSortedPosition(LeasesOf(s), l.trigger);
    var s' := AddAt(s, l, p);
    LinkNew(s.list, s.index, l, p);
    ListedIsLinked(s'.list, s'.index);
    DerefNew(s.list, s.index, l, p);
    InsertKeepsOrder(LeasesOf(s), l);
    PutTouchesOneChannel(s.index, l.key.channel, l.key, l);
    WriteBack(s.image, s.index, load, s'.index, l.key.channel,
              (l.key.channel in s.index) != (l.key.channel in s'.index));
  }

  lemma DeleteGood(s: LeaseState, load: Loading, i: nat)
    requires Good(s, load) && i < |s.list|
    ensures var s' := DeleteAt(s, i);
            Good(s', load) && LeasesOf(s') == RemoveAt(LeasesOf(s), i)
  {
    var k := s.list[i];
    var s' := DeleteAt(s, i);
    Unlink(s.list, s.index, i);
    ListedIsLinked(s'.list, s'.index);
    RemoveAtFacts(LeasesOf(s), i);
    PutTouchesOneChannel(s.index, k.channel, k, s.index[k.channel][k]);
    WriteBack(s.image, s.index, load, s'.index, k.channel, (k.channel in s.index) != (k.channel in s'.index));
  }

  /** The index answers whether a key is on the list, and with which lease. */
  lemma IndexAnswers(s: LeaseState, load: Loading, k: Key)
    requires Good(s, load)
    ensures k in Keys(LeasesOf(s)) <==> Has(s.index, k.channel, k)
    ensures Has(s.index, k.channel, k) ==>
              && IndexOf(LeasesOf(s), k) < |s.list|
              && s.list[IndexOf(LeasesOf(s), k)] == k
              && LeasesOf(s)[IndexOf(LeasesOf(s), k)] == s.index[k.channel][k]
    ensures !Has(s.index, k.channel, k) ==> IndexOf(LeasesOf(s), k) == |s.list|
  {
    DerefKeys(s.list, s.index);
    if Has(s.index, k.channel, k) {
      assert k in s.list;
      var i :| 0 <= i < |s.list| && s.list[i] == k;
      assert IndexOf(LeasesOf(s), s.list[i]) == i;
    }
  }

  lemma ListedKeys(s: LeaseState, load: Loading)
    requires Good(s, load)
    ensures KeysInOrder(LeasesOf(s)) == s.list
    ensures DistinctKeys(LeasesOf(s))
  {
    DerefKeys(s.list, s.index);
    forall i | 0 <= i < |s.list| ensures LeasesOf(s)[i].key == s.list[i] {
      assert Has(s.index, s.list[i].channel, s.list[i]);
    }
  }

  function ChannelLeaseKeys(s: seq<Lease>, c: ChannelID): set<Key> {
    set k | k in Keys(s) && k.channel == c
  }

  /** The index lists a channel exactly when the list has a lease in it, and then with the
      same keys. */
  lemma ChannelKeysOfList(s: LeaseState, load: Loading, c: ChannelID)
    requires Good(s, load)
    ensures var ks := ChannelLeaseKeys(LeasesOf(s), c);
            if c in s.index then ks == s.index[c].Keys && ks != {} else ks == {}
  {
    var ks := ChannelLeaseKeys(LeasesOf(s), c);
    forall k: Key ensures k in ks <==> Has(s.index, c, k) {
      IndexAnswers(s, load, k);
    }
    if c in s.index {
      assert ks == s.index[c].Keys;
      assert s.index[c] != map[];
    }
  }

  /** A channel's part of the list is what the index holds for it. */
  lemma ChannelOfList(s: LeaseState, load: Loading, c: ChannelID)
    requires Good(s, load) && c in s.index
    ensures KeysWithout(s.list, s.index[c].Keys) == KeysOutside(s.list, c)
  {
    forall k | k in s.list ensures k in s.index[c].Keys <==> k.channel == c {
      assert Has(s.index, k.channel, k);
      if k in s.index[c].Keys { assert Has(s.index, c, k); }
    }
    KeysWithoutChannel(s.list, s.index[c].Keys, c);
  }

  /** The position used when the lease at i is retimed: looked up in the list that still
      holds it, with its new trigger. */
  function RetimePosition(s: seq<Lease>, i: nat, t: Time): (q: nat)
    requires i < |s|
    ensures q < |s|
  {
    var p := FindSortedPosition(s[i := s[i].(trigger := t)], t);
    if p > i then p - 1 else p
  }

  /** The index with a new trigger for the lease at i. */
  function Retimed(s: LeaseState, i: nat, t: Time): Table<Key, Lease>
    requires i < |s.list| && Has(s.index, s.list[i].channel, s.list[i])
  {
    var k := s.list[i];
    Put(s.index, k.channel, k, s.index[k.channel][k].(trigger := t))
  }

  /** The list that the scan for a moved lease's place runs over. */
  lemma RetimeScan(s: LeaseState, load: Loading, i: nat, t: Time)
    requires Good(s, load) && i < |s.list|
    ensures var ls, index := LeasesOf(s), Retimed(s, i, t);
            AllLinked(s.list, index) && Deref(s.list, index) == ls[i := ls[i].(trigger := t)]
  {
    var k, l := s.list[i], LeasesOf(s)[i].(trigger := t);
    assert l.key == k by { assert Has(s.index, k.channel, k); }
    Relink(s.list, s.index, i, l);
    ListedIsLinked(s.list, Put(s.index, k.channel, k, l));
  }

  lemma RetimeGood(s: LeaseState, load: Loading, i: nat, t: Time)
    requires Good(s, load) && i < |s.list|
    ensures var s' := RetimeAt(s, i, t, RetimePosition(LeasesOf(s), i, t));
            Good(s', load) && LeasesOf(s') == Reposition(LeasesOf(s), i, t)
  {
    var k, ls := s.list[i], LeasesOf(s);
    var l, q := ls[i].(trigger := t), RetimePosition(ls, i, t);
    var s' := RetimeAt(s, i, t, q);
    assert l.key == k by { assert Has(s.index, k.channel, k); }
    Relink(s.list, s.index, i, l);
    MoveLinked(s.list, s'.index, i, q);
    ListedIsLinked(s'.list, s'.index);
    DerefMoved(s.list, s'.index, i, q);
    assert RemoveAt(ls[i := l], i) == RemoveAt(ls, i);
    RepositionIsRemoveThenInsert(ls, i, t);
    RemoveAtFacts(ls, i);
    InsertKeepsOrder(RemoveAt(ls, i), l);
    PutTouchesOneChannel(s.index, k.channel, k, l);
    WriteBack(s.image, s.index, load, s'.index, k.channel, (k.channel in s.index) != (k.channel in s'.index));
  }

  /** removeChannel: the channel's leases leave the list, the index and storage. */
  function DropLeases(s: LeaseState, c: ChannelID): LeaseState {
    var t := s.index - {c};
    LeaseState(KeysOutside(s.list, c), t, StoreRecord(StoreChannels(s.image, t), t, c))
  }

  lemma DropLeasesGood(s: LeaseState, load: Loading, c: ChannelID)
    requires Good(s, load)
    ensures Good(DropLeases(s, c), load)
    ensures LeasesOf(DropLeases(s, c)) == Outside(LeasesOf(s), c)
  {
    var s' := DropLeases(s, c);
    UnlinkChannel(s.list, s.index, c);
    ListedIsLinked(s'.list, s'.index);
    OutsideFacts(LeasesOf(s), c);
    forall d | d in s'.index ensures RecordAgrees(s'.image.records[d], s'.index[d], load) {
      assert RecordAgrees(s.image.records[d], s.index[d], load);
    }
  }

  // ----- Load -----

  ghost predicate InOrder(list: seq<Key>, index: Table<Key, Lease>) {
    && Linked(list, index)
    && AllLinked(list, index)
    && Sorted(Deref(list, index))
  }

  lemma GrowInOrder(list: seq<Key>, index: Table<Key, Lease>, l: Lease)
    requires InOrder(list, index) && !Has(index, l.key.channel, l.key)
    ensures var p := FindSortedPosition(Deref(list, index), l.trigger);
            InOrder(InsertKeyAt(list, p, l.key), Put(index, l.key.channel, l.key, l))
  {
    var p := FindSortedPosition(Deref(list, index), l.trigger);
    LinkNew(list, index, l, p);
    ListedIsLinked(InsertKeyAt(list, p, l.key), Put(index, l.key.channel, l.key, l));
    DerefNew(list, index, l, p);
    InsertKeepsOrder(Deref(list, index), l);
  }

  /** The index while the record of a channel is being loaded. */
  function PartlyLoaded(before: Table<Key, Lease>, c: ChannelID, record: map<Key, Lease>, done: set<Key>)
    : Table<Key, Lease>
  {
    if done == {} then before else before[c := map k | k in record && k in done :: record[k]]
  }

  lemma PartlyLoadedStep(before: Table<Key, Lease>, c: ChannelID, record: map<Key, Lease>, done: set<Key>, k: Key)
    requires c !in before && done <= record.Keys && k in record && k !in done
    ensures !Has(PartlyLoaded(before, c, record, done), c, k)
    ensures Put(PartlyLoaded(before, c, record, done), c, k, record[k]) == PartlyLoaded(before, c, record, done + {k})
  {
    var t := Put(PartlyLoaded(before, c, record, done), c, k, record[k]);
    assert t[c] == map x | x in record && x in done + {k} :: record[x];
  }

  lemma FullyLoaded(before: Table<Key, Lease>, c: ChannelID, record: map<Key, Lease>)
    requires record != map[]
    ensures PartlyLoaded(before, c, record, record.Keys) == before[c := record]
  {
    assert record.Keys != {};
    assert (map x | x in record && x in record.Keys :: record[x]) == record;
  }

  function ReloadTable(image: Image<Key, Lease>, now: Time, seeds: map<Key, nat>): Table<Key, Lease>
    requires image.channels <= image.records.Keys
  {
    map c | c in image.channels :: ReloadRecord(image.records[c], now, seeds)
  }

  /** The part of a reload that concerns some of the channels. */
  function ReloadSome(image: Image<Key, Lease>, now: Time, seeds: map<Key, nat>, done: set<ChannelID>)
    : Table<Key, Lease>
  {
    map c | c in done && c in image.records :: ReloadRecord(image.records[c], now, seeds)
  }

  /** One more channel of a reload. */
  lemma ReloadOneMore(image: Image<Key, Lease>, now: Time, seeds: map<Key, nat>, todo: set<ChannelID>, c: ChannelID)
    requires todo <= image.channels && c in todo && c in image.records
    requires NoEmptyChannel(image.records) && WellKeyed(image.records)
    ensures var loaded := ReloadRecord(image.records[c], now, seeds);
            && c !in ReloadSome(image, now, seeds, image.channels - todo)
            && loaded != map[]
            && (forall k :: k in loaded ==> k.channel == c && loaded[k].key == k)
            && ReloadSome(image, now, seeds, image.channels - todo)[c := loaded]
               == ReloadSome(image, now, seeds, image.channels - (todo - {c}))
  {
    var loaded := ReloadRecord(image.records[c], now, seeds);
    assert image.channels - (todo - {c}) == (image.channels - todo) + {c};
    var k :| k in image.records[c];
    assert k in loaded;
    forall k | k in loaded ensures k.channel == c && loaded[k].key == k {
      assert Has(image.records, c, k);
    }
  }

  lemma ReloadedIsStored(image: Image<Key, Lease>, index: Table<Key, Lease>, now: Time, seeds: map<Key, nat>)
    requires image.channels == image.records.Keys
    requires index == ReloadTable(image, now, seeds)
    ensures StoredAs(image, index, Loading(now, seeds))
  {
    forall c | c in index ensures RecordAgrees(image.records[c], index[c], Loading(now, seeds)) {
      assert index[c] == ReloadRecord(image.records[c], now, seeds);
    }
  }

  /** How long loading makes a lease wait. */
  function Wait(seed: nat): (d: Duration)
    ensures REPLAY_WAIT_MIN <= d <= REPLAY_WAIT_MAX
  {
    RandDurationInRange(REPLAY_WAIT_MIN, REPLAY_WAIT_MAX, seed)
  }

  /** A lease comes back from storage unchanged exactly when its stored trigger is not past,
      or when it is, was so at the last load too, has not been written since, and both loads
      picked the same instant. Otherwise it comes back with a trigger 5 to 30 minutes ahead. */
  lemma ReloadExactly(stored: Lease, live: Lease, at: Time, seed: nat, now: Time, seed': nat)
    requires at <= now && (live == stored || live == Reloaded(stored, at, seed))
    ensures var back := Reloaded(stored, now, seed');
            && back == live.(end := back.end, trigger := back.trigger)
            && (back == live <==>
                  stored.trigger >= now || (stored != live && at + Wait(seed) == now + Wait(seed')))
            && (back != live ==> now + REPLAY_WAIT_MIN <= back.trigger <= now + REPLAY_WAIT_MAX)
  {
  }

  /** A list of one lease, loaded from a record whose trigger was past. */
  function LoadedOnce(l: Lease, load: Loading): LeaseState {
    var c, k := l.key.channel, l.key;
    var live := Reloaded(l, load.at, SeedFor(load.seeds, k));
    LeaseState([k], map[c := map[k := live]], Image({c}, map[c := map[k := l]]))
  }

  /** Two starts ten minutes apart with no write between them: the trigger that the first
      put 25 minutes ahead is not past, yet the second puts it ten minutes earlier. */
  lemma TwoStartsMoveFutureTrigger(l: Lease, t: Time)
    requires l.trigger < t
    ensures var load := Loading(t, map[l.key := 20 * MINUTE]);
            var s, now := LoadedOnce(l, load), t + 10 * MINUTE;
            var live := s.index[l.key.channel][l.key];
            && Good(s, load) && live.trigger == t + 25 * MINUTE
            && ReloadTable(s.image, now, map[])[l.key.channel][l.key].trigger == t + 15 * MINUTE
  {
    var load := Loading(t, map[l.key := 20 * MINUTE]);
    var s := LoadedOnce(l, load);
    var c, k := l.key.channel, l.key;
    assert forall x: Key :: x in s.list <==> Has(s.index, x.channel, x);
    assert s.index[c] == ReloadRecord(s.image.records[c], load.at, load.seeds);
  }
}
