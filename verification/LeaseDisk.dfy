/**
 * What the lease list keeps in storage, as a function of the list: the operations of the
 * lease thread on the stored image (channels/lease.go, updateStorage and its callers).
 */
module LeaseDisk {
  import opened Wrappers
  import opened ChannelTypes
  import opened ChannelStorage
  import opened LeaseTrigger
  import opened LeaseOrder
  import opened LeasePass
  import opened LeaseIndex

  type Disk = Image<Key, Lease>

  function ChannelsOf(s: seq<Lease>): set<ChannelID> {
    set l | l in s :: l.key.channel
  }

  /** The lease on the list for a key. */
  function LeaseFor(s: seq<Lease>, k: Key): Lease
    requires k in Keys(s)
  {
    s[IndexOf(s, k)]
  }

  /** The leases of a list by channel and fingerprint. */
  function TableOf(s: seq<Lease>): Table<Key, Lease> {
    map c | c in ChannelsOf(s) :: map k | k in ChannelLeaseKeys(s, c) :: LeaseFor(s, k)
  }

  lemma LeaseForMember(s: seq<Lease>, k: Key, l: Lease)
    requires DistinctKeys(s) && l in s && l.key == k
    ensures k in Keys(s) && LeaseFor(s, k) == l
  {
    var i :| 0 <= i < |s| && s[i] == l;
    IndexUnique(s, i);
  }

  lemma TableLookup(s: seq<Lease>, c: ChannelID, k: Key)
    ensures Has(TableOf(s), c, k) <==> k in Keys(s) && k.channel == c
    ensures Has(TableOf(s), c, k) ==> TableOf(s)[c][k] == LeaseFor(s, k) && LeaseFor(s, k) in s
    ensures c in TableOf(s) <==> c in ChannelsOf(s)
  {
    if k in Keys(s) && k.channel == c {
      assert LeaseFor(s, k) in s;
    }
  }

  lemma TableShape(s: seq<Lease>)
    ensures NoEmptyChannel(TableOf(s)) && WellKeyed(TableOf(s))
  {
    var t := TableOf(s);
    forall c | c in t ensures t[c] != map[] {
      var l :| l in s && l.key.channel == c;
      TableLookup(s, c, l.key);
    }
    forall c, k | Has(t, c, k) ensures k.channel == c && t[c][k].key == k {
      TableLookup(s, c, k);
    }
  }

  /** Of a coherent list and index, the index is the table of the list. */
  lemma IndexIsTable(list: seq<Key>, index: Table<Key, Lease>)
    requires Linked(list, index) && AllLinked(list, index)
    ensures TableOf(Deref(list, index)) == index
  {
    var s := Deref(list, index);
    forall c, k ensures Has(TableOf(s), c, k) <==> Has(index, c, k) {
      LinkedLookup(list, index, c, k);
    }
    forall c, k | Has(index, c, k) ensures TableOf(s)[c][k] == index[c][k] {
      LinkedLookup(list, index, c, k);
    }
    TableShape(s);
    SameLookups(TableOf(s), index);
  }

  lemma LinkedLookup(list: seq<Key>, index: Table<Key, Lease>, c: ChannelID, k: Key)
    requires Linked(list, index) && AllLinked(list, index)
    ensures var t := TableOf(Deref(list, index));
            (Has(t, c, k) <==> Has(index, c, k)) && (Has(t, c, k) ==> t[c][k] == index[c][k])
  {
    var s := Deref(list, index);
    TableLookup(s, c, k);
    DerefKeys(list, index);
    if k in list {
      var i :| 0 <= i < |list| && list[i] == k;
      assert IndexOf(s, k) == i;
    }
  }

  // ----- The operations -----

  /** A change of the list in one channel, written back. */
  function Store(disk: Disk, s: seq<Lease>, s': seq<Lease>, c: ChannelID): Disk {
    UpdateStorage(disk, TableOf(s'), c, (c in ChannelsOf(s)) != (c in ChannelsOf(s')))
  }

  /** A removal or renewal of a key; nothing is written when the key is not there. */
  function StoreKey(disk: Disk, s: seq<Lease>, s': seq<Lease>, k: Key): Disk {
    if k in Keys(s) then Store(disk, s, s', k.channel) else disk
  }

  function StoreRemovals(disk: Disk, s: seq<Lease>, ks: seq<Key>): Disk
    decreases |ks|
  {
    if ks == [] then disk
    else
      var s' := RemoveKey(s, ks[0]);
      StoreRemovals(StoreKey(disk, s, s', ks[0]), s', ks[1..])
  }

  function StoreRenewals(disk: Disk, s: seq<Lease>, ks: seq<Key>, r: Reading): Disk
    decreases |ks|
  {
    if ks == [] then disk
    else
      var s' := RenewKey(s, ks[0], r.later, Seed(r, ks[0]));
      StoreRenewals(StoreKey(disk, s, s', ks[0]), s', ks[1..], r)
  }

  /** The writes of a pass. */
  function StorePass(disk: Disk, s: seq<Lease>, bodies: map<Key, Command>, r: Reading): Disk {
    var marked := Marked(s, bodies, r);
    StoreRenewals(StoreRemovals(disk, s, marked), RemoveEach(s, marked), Replayed(s, bodies, r), r)
  }

  function StoreDrop(disk: Disk, s: seq<Lease>, c: ChannelID): Disk {
    var t := TableOf(Outside(s, c));
    StoreRecord(StoreChannels(disk, t), t, c)
  }

  /** A written-back change of a coherent state is Store. */
  lemma WrittenIsStore(s: LeaseState, s': LeaseState, load: Loading, c: ChannelID)
    requires Good(s, load) && Good(s', load) && s' == Written(s, s'.list, s'.index, c)
    ensures s'.image == Store(s.image, LeasesOf(s), LeasesOf(s'), c)
  {
    IndexIsTable(s.list, s.index);
    IndexIsTable(s'.list, s'.index);
  }

  lemma AddIsStore(s: LeaseState, load: Loading, l: Lease)
    requires Good(s, load) && !Has(s.index, l.key.channel, l.key)
    ensures var s' := AddAt(s, l, FindSortedPosition(LeasesOf(s), l.trigger));
            s'.image == Store(s.image, LeasesOf(s), Insert(LeasesOf(s), l), l.key.channel)
  {
    AddGood(s, load, l);
    WrittenIsStore(s, AddAt(s, l, FindSortedPosition(LeasesOf(s), l.trigger)), load, l.key.channel);
  }

  lemma DeleteIsStore(s: LeaseState, load: Loading, i: nat)
    requires Good(s, load) && i < |s.list|
    ensures DeleteAt(s, i).image == Store(s.image, LeasesOf(s), RemoveAt(LeasesOf(s), i), s.list[i].channel)
  {
    DeleteGood(s, load, i);
    WrittenIsStore(s, DeleteAt(s, i), load, s.list[i].channel);
  }

  lemma RetimeIsStore(s: LeaseState, load: Loading, i: nat, t: Time)
    requires Good(s, load) && i < |s.list|
    ensures var s' := RetimeAt(s, i, t, RetimePosition(LeasesOf(s), i, t));
            s'.image == Store(s.image, LeasesOf(s), Reposition(LeasesOf(s), i, t), s.list[i].channel)
  {
    RetimeGood(s, load, i, t);
    WrittenIsStore(s, RetimeAt(s, i, t, RetimePosition(LeasesOf(s), i, t)), load, s.list[i].channel);
  }

  /** The place that the scan over the list with the new trigger finds. */
  ghost function ScanPosition(s: LeaseState, i: nat, t: Time): nat
    requires i < |s.list| && Has(s.index, s.list[i].channel, s.list[i]) && AllLinked(s.list, Retimed(s, i, t))
  {
    var mark := FindSortedPosition(Deref(s.list, Retimed(s, i, t)), t);
    if mark > i then mark - 1 else mark
  }

  /** Retiming with the position that the scan finds. */
  lemma RetimeFacts(s: LeaseState, load: Loading, i: nat, t: Time)
    requires Good(s, load) && i < |s.list|
    ensures AllLinked(s.list, Retimed(s, i, t)) && ScanPosition(s, i, t) < |s.list|
    ensures var s' := RetimeAt(s, i, t, ScanPosition(s, i, t));
            && Good(s', load) && LeasesOf(s') == Reposition(LeasesOf(s), i, t)
            && s'.image == Store(s.image, LeasesOf(s), LeasesOf(s'), s.list[i].channel)
  {
    RetimeScan(s, load, i, t);
    RetimeGood(s, load, i, t);
    RetimeIsStore(s, load, i, t);
  }

  lemma DroppedIsStoreDrop(s: LeaseState, load: Loading, c: ChannelID)
    requires Good(s, load)
    ensures DropLeases(s, c).image == StoreDrop(s.image, LeasesOf(s), c)
  {
    DropLeasesGood(s, load, c);
    var s' := DropLeases(s, c);
    IndexIsTable(s'.list, s'.index);
  }

  // ----- What they keep -----

  /** The lists agree outside one channel. */
  ghost predicate SameOutside(s: seq<Lease>, s': seq<Lease>, c: ChannelID) {
    forall l: Lease :: l.key.channel != c ==> (l in s <==> l in s')
  }

  lemma SameTableOutside(s: seq<Lease>, s': seq<Lease>, c: ChannelID)
    requires DistinctKeys(s) && DistinctKeys(s') && SameOutside(s, s', c)
    ensures TableOf(s) - {c} == TableOf(s') - {c}
  {
    var t, t' := TableOf(s), TableOf(s');
    forall d | d != c ensures d in t <==> d in t' {}
    forall d | d in t && d != c ensures t[d] == t'[d] {
      forall k ensures k in t[d] <==> k in t'[d] {
        TableLookup(s, d, k);
        TableLookup(s', d, k);
      }
      forall k | k in t[d] ensures t[d][k] == t'[d][k] {
        TableLookup(s, d, k);
        TableLookup(s', d, k);
        LeaseForMember(s', k, LeaseFor(s, k));
      }
    }
  }

  /** Disk and list agree, but for what the last load moved. */
  ghost predicate DiskAgrees(disk: Disk, s: seq<Lease>, load: Loading) {
    StoredAs(disk, TableOf(s), load)
  }

  lemma StoreKeeps(disk: Disk, s: seq<Lease>, s': seq<Lease>, c: ChannelID, load: Loading)
    requires DiskAgrees(disk, s, load) && DistinctKeys(s) && DistinctKeys(s') && SameOutside(s, s', c)
    ensures DiskAgrees(Store(disk, s, s', c), s', load)
  {
    SameTableOutside(s, s', c);
    TableShape(s');
    assert c in TableOf(s) <==> c in ChannelsOf(s);
    assert c in TableOf(s') <==> c in ChannelsOf(s');
    WriteBack(disk, TableOf(s), load, TableOf(s'), c, (c in ChannelsOf(s)) != (c in ChannelsOf(s')));
  }

  // ----- Loading -----

  /** What loading makes of a disk: the stored leases, past triggers moved, in order. Only
      leases of one trigger may come in any order. */
  ghost predicate LoadedFrom(s: seq<Lease>, disk: Disk, now: Time, seeds: map<Key, nat>) {
    && Sorted(s) && DistinctKeys(s)
    && disk.channels <= disk.records.Keys
    && TableOf(s) == ReloadTable(disk, now, seeds)
  }

  lemma LoadedInOrder(list: seq<Key>, index: Table<Key, Lease>, disk: Disk, now: Time, seeds: map<Key, nat>)
    requires InOrder(list, index) && disk.channels <= disk.records.Keys && index == ReloadTable(disk, now, seeds)
    ensures LoadedFrom(Deref(list, index), disk, now, seeds)
  {
    IndexIsTable(list, index);
    DerefKeys(list, index);
  }

  lemma StoredShape(s: LeaseState, load: Loading)
    requires Good(s, load)
    ensures NoEmptyChannel(s.image.records) && WellKeyed(s.image.records)
    ensures s.image.channels == s.image.records.Keys
  {
    RecordsShape(s.image, s.index, load);
  }

  lemma RecordsShape(disk: Disk, t: Table<Key, Lease>, load: Loading)
    requires StoredAs(disk, t, load) && NoEmptyChannel(t) && WellKeyed(t)
    ensures NoEmptyChannel(disk.records) && WellKeyed(disk.records)
  {
    forall c | c in disk.records ensures disk.records[c].Keys == t[c].Keys && disk.records[c] != map[] {
      assert RecordAgrees(disk.records[c], t[c], load);
      var k :| k in t[c];
    }
    forall c, k | Has(disk.records, c, k) ensures k.channel == c && disk.records[c][k].key == k {
      assert RecordAgrees(disk.records[c], t[c], load);
      assert Has(t, c, k);
    }
  }

  /** Loading what the list wrote gives the list's keys back, and disk and list agree. */
  lemma LoadedAgrees(disk: Disk, s: seq<Lease>, load: Loading, loaded: seq<Lease>, now: Time, seeds: map<Key, nat>)
    requires DiskAgrees(disk, s, load) && LoadedFrom(loaded, disk, now, seeds)
    ensures DiskAgrees(disk, loaded, Loading(now, seeds)) && Keys(loaded) == Keys(s)
  {
    ReloadedIsStored(disk, TableOf(loaded), now, seeds);
    forall k: Key ensures k in Keys(loaded) <==> k in Keys(s) {
      TableLookup(loaded, k.channel, k);
      TableLookup(s, k.channel, k);
      ReloadedKeys(disk, TableOf(s), load, now, seeds, k);
    }
  }

  lemma ReloadedKeys(disk: Disk, t: Table<Key, Lease>, load: Loading, now: Time, seeds: map<Key, nat>, k: Key)
    requires StoredAs(disk, t, load)
    ensures Has(ReloadTable(disk, now, seeds), k.channel, k) <==> Has(t, k.channel, k)
  {
    if k.channel in t {
      assert RecordAgrees(disk.records[k.channel], t[k.channel], load);
    }
  }

  // ----- Soundness of list and disk together -----

  predicate Leasable(t: MessageType) {
    t == PINNED || t == MUTE
  }

  /** A lease ends no earlier than its command says; loading may only put the end off. */
  predicate LeaseOk(l: Lease) {
    l.end >= l.originating + l.lease && Leasable(l.key.action)
  }

  ghost predicate AllOk(s: seq<Lease>) {
    forall l :: l in s ==> LeaseOk(l)
  }

  ghost predicate DiskOk(disk: Disk) {
    forall c, k :: Has(disk.records, c, k) ==> LeaseOk(disk.records[c][k])
  }

  ghost predicate Sound(s: seq<Lease>, disk: Disk, load: Loading) {
    Sorted(s) && DistinctKeys(s) && AllOk(s) && DiskAgrees(disk, s, load) && DiskOk(disk)
  }

  lemma TableOk(s: seq<Lease>)
    requires AllOk(s)
    ensures forall c, k :: Has(TableOf(s), c, k) ==> LeaseOk(TableOf(s)[c][k])
  {
    forall c, k | Has(TableOf(s), c, k) ensures LeaseOk(TableOf(s)[c][k]) {
      TableLookup(s, c, k);
    }
  }

  lemma StoreSound(s: seq<Lease>, disk: Disk, load: Loading, s': seq<Lease>, c: ChannelID)
    requires Sound(s, disk, load)
    requires Sorted(s') && DistinctKeys(s') && AllOk(s') && SameOutside(s, s', c)
    ensures Sound(s', Store(disk, s, s', c), load)
  {
    StoreKeeps(disk, s, s', c, load);
    TableOk(s');
    StorageOk(disk, TableOf(s'), c, (c in ChannelsOf(s)) != (c in ChannelsOf(s')));
  }

  lemma StorageOk(disk: Disk, t: Table<Key, Lease>, c: ChannelID, channelIdUpdate: bool)
    requires DiskOk(disk) && forall d, k :: Has(t, d, k) ==> LeaseOk(t[d][k])
    ensures DiskOk(UpdateStorage(disk, t, c, channelIdUpdate))
  {
    var disk' := UpdateStorage(disk, t, c, channelIdUpdate);
    forall d, k | Has(disk'.records, d, k) ensures LeaseOk(disk'.records[d][k]) {
      if d == c {
        assert Has(t, c, k);
      } else {
        assert Has(disk.records, d, k);
      }
    }
  }

  lemma InsertSound(s: seq<Lease>, disk: Disk, load: Loading, l: Lease)
    requires Sound(s, disk, load) && LeaseOk(l) && l.key !in Keys(s)
    ensures Sound(Insert(s, l), Store(disk, s, Insert(s, l), l.key.channel), load)
  {
    InsertKeepsOrder(s, l);
    InsertKeepsDistinct(s, l);
    InsertMembers(s, l);
    StoreSound(s, disk, load, Insert(s, l), l.key.channel);
  }

  /** Removing a lease by key, on the list alone. */
  lemma RemoveKeyFacts(s: seq<Lease>, k: Key)
    requires Sorted(s) && DistinctKeys(s) && AllOk(s)
    ensures var s' := RemoveKey(s, k);
            Sorted(s') && DistinctKeys(s') && AllOk(s') && SameOutside(s, s', k.channel) && k !in Keys(s')
  {
    var i := IndexOf(s, k);
    if i < |s| {
      RemoveAtFacts(s, i);
      assert s == s[..i] + [s[i]] + s[i + 1..];
    }
  }

  lemma RemoveSound(s: seq<Lease>, disk: Disk, load: Loading, k: Key)
    requires Sound(s, disk, load)
    ensures Sound(RemoveKey(s, k), StoreKey(disk, s, RemoveKey(s, k), k), load)
  {
    RemoveKeyFacts(s, k);
    if k in Keys(s) {
      StoreSound(s, disk, load, RemoveKey(s, k), k.channel);
    }
  }

  /** Renewing a lease by key, on the list alone. */
  lemma RenewKeyFacts(s: seq<Lease>, k: Key, now: Time, seed: nat)
    requires Sorted(s) && DistinctKeys(s) && AllOk(s)
    ensures var s' := RenewKey(s, k, now, seed);
            Sorted(s') && DistinctKeys(s') && AllOk(s') && SameOutside(s, s', k.channel)
  {
    var i := IndexOf(s, k);
    if i < |s| {
      RemoveKeyFacts(s, k);
      var t := CalculateLeaseTrigger(now, s[i].originating, s[i].lease, seed);
      if t.Some? {
        var l := s[i].(trigger := t.value);
        RepositionIsRemoveThenInsert(s, i, t.value);
        InsertKeepsOrder(RemoveAt(s, i), l);
        InsertKeepsDistinct(RemoveAt(s, i), l);
        InsertMembers(RemoveAt(s, i), l);
      }
    }
  }

  lemma RenewSound(s: seq<Lease>, disk: Disk, load: Loading, k: Key, now: Time, seed: nat)
    requires Sound(s, disk, load)
    ensures Sound(RenewKey(s, k, now, seed), StoreKey(disk, s, RenewKey(s, k, now, seed), k), load)
  {
    RenewKeyFacts(s, k, now, seed);
    if k in Keys(s) {
      StoreSound(s, disk, load, RenewKey(s, k, now, seed), k.channel);
    }
  }

  lemma {:induction false} RemovalsSound(s: seq<Lease>, disk: Disk, load: Loading, ks: seq<Key>)
    requires Sound(s, disk, load)
    ensures Sound(RemoveEach(s, ks), StoreRemovals(disk, s, ks), load)
    decreases |ks|
  {
    if ks != [] {
      RemoveSound(s, disk, load, ks[0]);
      RemovalsSound(RemoveKey(s, ks[0]), StoreKey(disk, s, RemoveKey(s, ks[0]), ks[0]), load, ks[1..]);
    }
  }

  lemma {:induction false} RenewalsSound(s: seq<Lease>, disk: Disk, load: Loading, ks: seq<Key>, r: Reading)
    requires Sound(s, disk, load)
    ensures Sound(RenewEach(s, ks, r), StoreRenewals(disk, s, ks, r), load)
    decreases |ks|
  {
    if ks != [] {
      var s' := RenewKey(s, ks[0], r.later, Seed(r, ks[0]));
      RenewSound(s, disk, load, ks[0], r.later, Seed(r, ks[0]));
      RenewalsSound(s', StoreKey(disk, s, s', ks[0]), load, ks[1..], r);
    }
  }

  /** A pass keeps list and disk sound. */
  lemma PassSound(s: seq<Lease>, disk: Disk, load: Loading, bodies: map<Key, Command>, r: Reading)
    requires Sound(s, disk, load) && r.now <= r.later
    ensures Sound(AfterPass(s, bodies, r), StorePass(disk, s, bodies, r), load)
  {
    var marked := Marked(s, bodies, r);
    RemovalsSound(s, disk, load, marked);
    RenewalsSound(RemoveEach(s, marked), StoreRemovals(disk, s, marked), load, Replayed(s, bodies, r), r);
    SequentialPassRefinesFilter(s, bodies, r);
  }

  lemma DropSound(s: seq<Lease>, disk: Disk, load: Loading, c: ChannelID)
    requires Sound(s, disk, load)
    ensures Sound(Outside(s, c), StoreDrop(disk, s, c), load)
  {
    var s' := Outside(s, c);
    OutsideFacts(s, c);
    OutsideDistinct(s, c);
    DropIsStore(disk, s, c);
    if c in ChannelsOf(s) {
      StoreSound(s, disk, load, s', c);
    } else {
      assert SameOutside(s, s', c) && SameOutside(s', s, c);
      StoreSound(s, disk, load, s', c);
    }
  }

  /** removeChannel rewrites the channel list whether or not it changed. */
  lemma DropIsStore(disk: Disk, s: seq<Lease>, c: ChannelID)
    requires disk.channels == ChannelsOf(s) && DistinctKeys(s)
    ensures StoreDrop(disk, s, c) == Store(disk, s, Outside(s, c), c)
  {
    var s' := Outside(s, c);
    OutsideFacts(s, c);
    assert c !in TableOf(s');
    if c !in ChannelsOf(s) {
      assert ChannelsOf(s') == ChannelsOf(s);
    }
  }

  lemma {:induction false} OutsideDistinct(s: seq<Lease>, c: ChannelID)
    requires DistinctKeys(s)
    ensures DistinctKeys(Outside(s, c))
    ensures forall l :: l in Outside(s, c) ==> l in s
  {
    if s != [] {
      OutsideDistinct(s[1..], c);
      assert s == [s[0]] + s[1..];
      var r := Outside(s[1..], c);
      assert forall i :: 0 <= i < |r| ==> r[i] in s[1..];
      assert forall l :: l in s[1..] ==> l.key != s[0].key;
    }
  }

  /** What a sound state stored loads into a sound state. */
  lemma LoadSound(s: seq<Lease>, disk: Disk, load: Loading, loaded: seq<Lease>, now: Time, seeds: map<Key, nat>)
    requires Sound(s, disk, load) && LoadedFrom(loaded, disk, now, seeds)
    ensures Sound(loaded, disk, Loading(now, seeds)) && Keys(loaded) == Keys(s)
  {
    LoadedAgrees(disk, s, load, loaded, now, seeds);
    LoadedOk(disk, loaded, now, seeds);
  }

  lemma LoadedOk(disk: Disk, loaded: seq<Lease>, now: Time, seeds: map<Key, nat>)
    requires DiskOk(disk) && LoadedFrom(loaded, disk, now, seeds)
    ensures AllOk(loaded)
  {
    forall l | l in loaded ensures LeaseOk(l) {
      LoadedOrigin(disk, loaded, now, seeds, l);
    }
  }

  /** Every loaded lease is a stored one, reloaded. */
  lemma LoadedOrigin(disk: Disk, loaded: seq<Lease>, now: Time, seeds: map<Key, nat>, l: Lease)
    requires LoadedFrom(loaded, disk, now, seeds) && l in loaded
    ensures Has(disk.records, l.key.channel, l.key)
    ensures l == Reloaded(disk.records[l.key.channel][l.key], now, SeedFor(seeds, l.key))
  {
    LeaseForMember(loaded, l.key, l);
    TableLookup(loaded, l.key.channel, l.key);
  }

  /** Loading what a sound state stored rebuilds the same leases, and leaves each of them
      unchanged exactly when ReloadExactly says so of its stored form. */
  lemma SoundReload(s: seq<Lease>, disk: Disk, load: Loading, loaded: seq<Lease>, now: Time, seeds: map<Key, nat>,
                    l: Lease)
    requires Sound(s, disk, load) && LoadedFrom(loaded, disk, now, seeds) && load.at <= now && l in s
    ensures Keys(loaded) == Keys(s) && l.key in Keys(loaded) && Has(disk.records, l.key.channel, l.key)
    ensures var stored, back := disk.records[l.key.channel][l.key], LeaseFor(loaded, l.key);
            && back == l.(end := back.end, trigger := back.trigger)
            && (back == l <==>
                  || stored.trigger >= now
                  || (stored != l && load.at + Wait(SeedFor(load.seeds, l.key)) == now + Wait(SeedFor(seeds, l.key))))
            && (back != l ==> now + REPLAY_WAIT_MIN <= back.trigger <= now + REPLAY_WAIT_MAX)
  {
    LoadSound(s, disk, load, loaded, now, seeds);
    LiveOrReloaded(s, disk, load, l);
    TableLookup(loaded, l.key.channel, l.key);
    var stored := disk.records[l.key.channel][l.key];
    ReloadExactly(stored, l, load.at, SeedFor(load.seeds, l.key), now, SeedFor(seeds, l.key));
    LoadedOrigin(disk, loaded, now, seeds, LeaseFor(loaded, l.key));
  }

  lemma LiveOrReloaded(s: seq<Lease>, disk: Disk, load: Loading, l: Lease)
    requires DistinctKeys(s) && DiskAgrees(disk, s, load) && l in s
    ensures l.key in Keys(s) && Has(disk.records, l.key.channel, l.key)
    ensures var stored := disk.records[l.key.channel][l.key];
            l == stored || l == Reloaded(stored, load.at, SeedFor(load.seeds, l.key))
  {
    var c, k := l.key.channel, l.key;
    LeaseForMember(s, k, l);
    TableLookup(s, c, k);
    assert RecordAgrees(disk.records[c], TableOf(s)[c], load);
  }
}
