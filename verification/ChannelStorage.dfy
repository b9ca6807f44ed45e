/**
 * The storage scheme shared by the lease list, the replay blocker, the action saver and
 * the muted users: a map from channels to non-empty inner maps, mirrored in a key-value
 * store as one list of channels and one record per channel. Storage calls do not fail.
 */
module ChannelStorage {
  import opened Wrappers
  import opened ChannelTypes

  type Table<K, V> = map<ChannelID, map<K, V>>

  /** What is on disk. A missing channel list reads as the empty one. */
  datatype Image<K, V> = Image(channels: set<ChannelID>, records: map<ChannelID, map<K, V>>)

  predicate Has<K, V>(t: Table<K, V>, c: ChannelID, k: K) {
    c in t && k in t[c]
  }

  ghost predicate NoEmptyChannel<K, V>(t: Table<K, V>) {
    forall c :: c in t ==> t[c] != map[]
  }

  function Put<K, V>(t: Table<K, V>, c: ChannelID, k: K, v: V): Table<K, V> {
    t[c := (if c in t then t[c] else map[])[k := v]]
  }

  function Remove<K, V(==)>(t: Table<K, V>, c: ChannelID, k: K): Table<K, V> {
    if !Has(t, c, k) then t
    else if t[c] - {k} == map[] then t - {c}
    else t[c := t[c] - {k}]
  }

  /** Writes the record of one channel; an empty or missing channel deletes it. */
  function StoreRecord<K, V(==)>(i: Image<K, V>, t: Table<K, V>, c: ChannelID): Image<K, V> {
    if c !in t || t[c] == map[] then i.(records := i.records - {c}) else i.(records := i.records[c := t[c]])
  }

  function StoreChannels<K, V>(i: Image<K, V>, t: Table<K, V>): Image<K, V> {
    i.(channels := t.Keys)
  }

  function UpdateStorage<K, V(==)>(i: Image<K, V>, t: Table<K, V>, c: ChannelID, channelIdUpdate: bool): Image<K, V> {
    var i' := StoreRecord(i, t, c);
    if channelIdUpdate then StoreChannels(i', t) else i'
  }

  /** Reads everything back; None when a listed channel has no record. */
  function Load<K, V>(i: Image<K, V>): Option<Table<K, V>> {
    if i.channels <= i.records.Keys then Some(map c | c in i.channels :: i.records[c]) else None
  }

  /** Disk equals memory. */
  ghost predicate Mirrors<K, V>(i: Image<K, V>, t: Table<K, V>) {
    && NoEmptyChannel(t)
    && i.channels == t.Keys
    && i.records == t
  }

  /** Memory together with its image, and the operations the components share. */
  datatype Persisted<K, V> = Persisted(table: Table<K, V>, image: Image<K, V>)

  function PutSaved<K, V(==)>(p: Persisted<K, V>, c: ChannelID, k: K, v: V): Persisted<K, V> {
    var t := Put(p.table, c, k, v);
    Persisted(t, UpdateStorage(p.image, t, c, c !in p.table))
  }

  function RemoveSaved<K, V(==)>(p: Persisted<K, V>, c: ChannelID, k: K): Persisted<K, V> {
    if !Has(p.table, c, k) then p
    else
      var t := Remove(p.table, c, k);
      Persisted(t, UpdateStorage(p.image, t, c, c !in t))
  }

  function DropChannel<K, V(==)>(p: Persisted<K, V>, c: ChannelID): Persisted<K, V> {
    if c !in p.table then p
    else
      var t := p.table - {c};
      Persisted(t, StoreRecord(StoreChannels(p.image, t), t, c))
  }

  ghost predicate Synced<K, V>(p: Persisted<K, V>) {
    Mirrors(p.image, p.table)
  }

  /** Each operation rewrites only the record of the channel it touched, and the channel
      list only when a channel appears or disappears; that is enough to stay in sync. */
  lemma OperationsStaySynced<K, V>(p: Persisted<K, V>, c: ChannelID, k: K, v: V)
    requires Synced(p)
    ensures Synced(PutSaved(p, c, k, v))
    ensures Synced(RemoveSaved(p, c, k))
    ensures Synced(DropChannel(p, c))
  {
    var t := Put(p.table, c, k, v);
    assert t[c] != map[] by { assert k in t[c]; }
  }

  /** Loading what is on disk rebuilds memory. */
  lemma LoadRebuilds<K, V>(p: Persisted<K, V>)
    requires Synced(p)
    ensures Load(p.image) == Some(p.table)
  {
    assert Load(p.image).Some?;
    assert Load(p.image).value == p.table;
  }

  /** Disk holds memory, and perhaps records of a former process besides. The channel list
      is only known to be memory's once memory has been written to. */
  ghost predicate Backed<K, V>(p: Persisted<K, V>) {
    && NoEmptyChannel(p.table)
    && (forall c :: c in p.table ==> c in p.image.records && p.image.records[c] == p.table[c])
    && (p.table != map[] ==> p.image.channels == p.table.Keys)
  }

  lemma OperationsStayBacked<K, V>(p: Persisted<K, V>, c: ChannelID, k: K, v: V)
    requires Backed(p)
    ensures Backed(PutSaved(p, c, k, v))
    ensures Backed(RemoveSaved(p, c, k))
    ensures Backed(DropChannel(p, c))
  {
    var t := Put(p.table, c, k, v);
    assert t[c] != map[] by { assert k in t[c]; }
  }

  /** Loading rebuilds memory exactly when memory is not empty or nothing is listed: a new
      process that has not loaded or written yet does not know what the old one left. */
  lemma LoadRebuildsExactly<K, V>(p: Persisted<K, V>)
    requires Backed(p)
    ensures Load(p.image) == Some(p.table) <==> (p.table == map[] ==> p.image.channels == {})
  {
    if p.table != map[] {
      assert forall c :: c in p.image.channels ==> c in p.table && c in p.image.records;
      var t := Load(p.image).value;
      assert forall c :: c in t <==> c in p.table;
      assert forall c :: c in t ==> t[c] == p.table[c];
      assert t.Keys == p.table.Keys && t == p.table;
    } else if p.image.channels != {} && Load(p.image).Some? {
      SomeChannel(p.image.channels);
      var c :| c in p.image.channels;
      assert c in Load(p.image).value;
    }
  }

  lemma PutLookup<K, V>(t: Table<K, V>, c: ChannelID, k: K, v: V, c': ChannelID, k': K)
    ensures Has(Put(t, c, k, v), c', k') <==> (c', k') == (c, k) || Has(t, c', k')
    ensures Has(Put(t, c, k, v), c', k') ==>
              Put(t, c, k, v)[c'][k'] == if (c', k') == (c, k) then v else t[c'][k']
  {
  }

  lemma RemoveLookup<K, V>(t: Table<K, V>, c: ChannelID, k: K, c': ChannelID, k': K)
    ensures Has(Remove(t, c, k), c', k') <==> (c', k') != (c, k) && Has(t, c', k')
    ensures Has(Remove(t, c, k), c', k') ==> Remove(t, c, k)[c'][k'] == t[c'][k']
  {
    if Has(t, c, k) && c' == c && k' != k && k' in t[c] {
      assert k' in t[c] - {k};
    }
  }

  lemma DropLookup<K, V>(p: Persisted<K, V>, c: ChannelID, c': ChannelID, k': K)
    ensures Has(DropChannel(p, c).table, c', k') <==> c' != c && Has(p.table, c', k')
    ensures Has(DropChannel(p, c).table, c', k') ==> DropChannel(p, c).table[c'][k'] == p.table[c'][k']
  {
  }

  /** Tables without empty channels are equal when their lookups are. */
  lemma SameLookups<K, V>(t: Table<K, V>, t': Table<K, V>)
    requires NoEmptyChannel(t) && NoEmptyChannel(t')
    requires forall c, k :: Has(t, c, k) <==> Has(t', c, k)
    requires forall c, k :: Has(t, c, k) && Has(t', c, k) ==> t[c][k] == t'[c][k]
    ensures t == t'
  {
    forall c ensures c in t <==> c in t' {
      if c in t { var k :| k in t[c]; assert Has(t, c, k); }
      if c in t' { var k :| k in t'[c]; assert Has(t', c, k); }
    }
    forall c | c in t ensures t[c] == t'[c] {
      assert forall k :: k in t[c] <==> Has(t, c, k);
      assert forall k :: k in t'[c] <==> Has(t', c, k);
    }
  }

  lemma SomeChannel(s: set<ChannelID>)
    requires s != {}
    ensures exists c :: c in s
  {
    assert (forall c :: c !in s) ==> s == {};
  }

  /** load: reads the channel list, then the record of each channel; stops with an error
      at a channel without one. */
  method LoadTable<K, V>(i: Image<K, V>) returns (ok: bool, t: Table<K, V>)
    ensures ok <==> Load(i).Some?
    ensures ok ==> t == Load(i).value
  {
    t := map[];
    var todo := i.channels;
    while todo != {}
      invariant t.Keys + todo == i.channels
      invariant t.Keys <= i.records.Keys
      invariant forall c :: c in t ==> t[c] == i.records[c]
      decreases todo
    {
      SomeChannel(todo);
      var c :| c in todo;
      if c !in i.records {
        return false, t;
      }
      t := t[c := i.records[c]];
      todo := todo - {c};
    }
    ok := true;
    ghost var m := Load(i).value;
    assert t.Keys == m.Keys;
    assert forall c :: c in m ==> m[c] == t[c];
  }
}
