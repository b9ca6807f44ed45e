/**
 * Actions that arrived before the message they apply to (channels/actionSaver.go).
 */
module ActionSaver {
  import opened Wrappers
  import opened ChannelTypes
  import opened ChannelStorage
  import opened LeaseTrigger

  const MAX_SAVED_ACTION_AGE: Duration := 24 * HOUR

  datatype SavedAction = SavedAction(received: Time, target: MessageID, command: Command)

  predicate IsDelete(a: SavedAction) {
    a.command.messageType == DELETE
  }

  predicate Stale(a: SavedAction, now: Time) {
    Sub(now, a.received) > MAX_SAVED_ACTION_AGE
  }

  /** Whether a newly received action replaces the saved one: nothing replaces a delete, a
      delete replaces anything else, and otherwise only a later one does. */
  predicate Replaces(old_: SavedAction, new_: SavedAction) {
    !IsDelete(old_) && (IsDelete(new_) || new_.command.originating > old_.command.originating)
  }

  function AddSaved(t: SavedTable, a: SavedAction): SavedTable {
    var c := a.command.channel;
    if Has(t, c, a.target) && !Replaces(t[c][a.target], a) then t else Put(t, c, a.target, a)
  }

  type SavedTable = Table<MessageID, SavedAction>
  type SavedStore = Persisted<MessageID, SavedAction>

  /** addAction, in memory and on disk. */
  function AddAndStore(p: SavedStore, a: SavedAction): SavedStore {
    var c := a.command.channel;
    if Has(p.table, c, a.target) && !Replaces(p.table[c][a.target], a) then p else PutSaved(p, c, a.target, a)
  }

  // ----- Merging -----

  /** What is saved for one target after a sequence of actions. */
  function Merged(actions: seq<SavedAction>): Option<SavedAction> {
    if actions == [] then None
    else
      var before, last := Merged(actions[..|actions| - 1]), actions[|actions| - 1];
      if before.Some? && !Replaces(before.value, last) then before else Some(last)
  }

  /** An action that may win: a delete if there is one, otherwise one of the latest. */
  ghost predicate Winner(a: SavedAction, actions: seq<SavedAction>) {
    && a in actions
    && ((exists d :: d in actions && IsDelete(d)) ==> IsDelete(a))
    && (!IsDelete(a) ==> forall b :: b in actions ==> b.command.originating <= a.command.originating)
  }

  /** After any sequence of actions the saved one is a winner, and every action before it
      was not one: the first winner is kept. */
  lemma {:induction false} MergedIsFirstWinner(actions: seq<SavedAction>) returns (i: nat)
    requires actions != []
    ensures i < |actions| && Merged(actions) == Some(actions[i])
    ensures Winner(actions[i], actions)
    ensures forall j :: 0 <= j < i ==> !Winner(actions[j], actions)
  {
    var n := |actions| - 1;
    var before, last := actions[..n], actions[n];
    assert actions == before + [last];
    if n == 0 {
      i := 0;
      assert forall b :: b in actions ==> b == last;
    } else {
      i := MergedIsFirstWinner(before);
      var w := before[i];
      assert forall b :: b in actions <==> b in before || b == last;
      if Replaces(w, last) {
        forall j | 0 <= j < n ensures !Winner(actions[j], actions) {
          assert actions[j] == before[j] && before[j] in before && last in actions && w in actions;
        }
        i := n;
      } else {
        forall j | 0 <= j < i ensures !Winner(actions[j], actions) {
          assert actions[j] == before[j];
          if Winner(actions[j], actions) {
            assert Winner(before[j], before);
            assert false;
          }
        }
      }
    }
  }

  /** All actions that may win are the same one. */
  ghost predicate OneWinner(actions: seq<SavedAction>) {
    forall a, b :: Winner(a, actions) && Winner(b, actions) ==> a == b
  }

  ghost predicate OrderFree(actions: seq<SavedAction>) {
    forall other: seq<SavedAction> :: multiset(other) == multiset(actions) ==> Merged(other) == Merged(actions)
  }

  lemma SameMembers(a: seq<SavedAction>, b: seq<SavedAction>)
    requires multiset(a) == multiset(b)
    ensures forall x :: x in a <==> x in b
  {
    assert forall x :: x in a <==> x in multiset(a);
    assert forall x :: x in b <==> x in multiset(b);
  }

  /** Moving one action to the front. */
  function Promote(s: seq<SavedAction>, i: nat): seq<SavedAction>
    requires i < |s|
  {
    [s[i]] + s[..i] + s[i + 1..]
  }

  lemma PromoteIsPermutation(s: seq<SavedAction>, i: nat)
    requires i < |s|
    ensures multiset(Promote(s, i)) == multiset(s)
  {
    assert s == s[..i] + [s[i]] + s[i + 1..];
  }

  /** The saved action does not depend on the order of arrival exactly when there are not
      two different actions that may win. */
  lemma OrderFreeExactly(actions: seq<SavedAction>)
    requires actions != []
    ensures OrderFree(actions) <==> OneWinner(actions)
  {
    if OneWinner(actions) {
      forall other: seq<SavedAction> | multiset(other) == multiset(actions)
        ensures Merged(other) == Merged(actions)
      {
        SameMembers(other, actions);
        assert |other| == |multiset(other)| == |actions|;
        var i := MergedIsFirstWinner(actions);
        var j := MergedIsFirstWinner(other);
        assert Winner(other[j], actions);
      }
    }
    if OrderFree(actions) {
      forall a, b | Winner(a, actions) && Winner(b, actions) ensures a == b {
        var i :| 0 <= i < |actions| && actions[i] == a;
        var j :| 0 <= j < |actions| && actions[j] == b;
        WinnerFirst(actions, i);
        WinnerFirst(actions, j);
      }
    }
  }

  lemma WinnerFirst(actions: seq<SavedAction>, i: nat)
    requires i < |actions| && Winner(actions[i], actions)
    ensures multiset(Promote(actions, i)) == multiset(actions)
    ensures Merged(Promote(actions, i)) == Some(actions[i])
  {
    var p := Promote(actions, i);
    PromoteIsPermutation(actions, i);
    SameMembers(p, actions);
    var j := MergedIsFirstWinner(p);
    assert p[0] == actions[i] && Winner(p[0], p);
  }

  /** In particular: with distinct times and at most one delete, any order saves the same. */
  lemma DistinctTimesAreOrderFree(actions: seq<SavedAction>)
    requires actions != []
    requires forall i, j :: 0 <= i < j < |actions| ==>
               actions[i].command.originating != actions[j].command.originating
               && !(IsDelete(actions[i]) && IsDelete(actions[j]))
    ensures OrderFree(actions)
  {
    forall a, b | Winner(a, actions) && Winner(b, actions) ensures a == b {
      var i :| 0 <= i < |actions| && actions[i] == a;
      var j :| 0 <= j < |actions| && actions[j] == b;
    }
    OrderFreeExactly(actions);
  }

  /** Adding to the table merges per target. */
  lemma AddSavedMerges(t: SavedTable, a: SavedAction, history: seq<SavedAction>)
    requires var c := a.command.channel;
             match Merged(history)
             case None => !Has(t, c, a.target)
             case Some(s) => Has(t, c, a.target) && t[c][a.target] == s
    ensures var c := a.command.channel;
            && Has(AddSaved(t, a), c, a.target)
            && Merged(history + [a]) == Some(AddSaved(t, a)[c][a.target])
  {
    var h := history + [a];
    assert h[..|h| - 1] == history;
    PutLookup(t, a.command.channel, a.target, a, a.command.channel, a.target);
  }

  // ----- Purging -----

  function Fresh(record: map<MessageID, SavedAction>, now: Time): map<MessageID, SavedAction> {
    map m | m in record && !Stale(record[m], now) :: record[m]
  }

  /** The table without its stale actions. */
  function Purged(t: SavedTable, now: Time): SavedTable {
    map c | c in t && Fresh(t[c], now) != map[] :: Fresh(t[c], now)
  }

  /** What a purge leaves: the actions received within the last 24 hours, as they were. */
  lemma PurgedExactly(t: SavedTable, now: Time, c: ChannelID, m: MessageID)
    ensures Has(Purged(t, now), c, m) <==> Has(t, c, m) && now - t[c][m].received <= 24 * HOUR
    ensures Has(Purged(t, now), c, m) ==> Purged(t, now)[c][m] == t[c][m]
  {
    if Has(t, c, m) && now - t[c][m].received <= 24 * HOUR {
      assert m in Fresh(t[c], now);
    }
  }

  /** The loop that deletes the stale actions of a record. */
  method DropStale(record: map<MessageID, SavedAction>, now: Time) returns (kept: map<MessageID, SavedAction>)
    ensures kept == Fresh(record, now)
    ensures forall m :: m in kept <==> m in record && now - record[m].received <= 24 * HOUR
  {
    kept := record;
    var left := record.Keys;
    while left != {}
      invariant left <= record.Keys
      invariant forall m :: m in kept <==> m in record && (m in left || !Stale(record[m], now))
      invariant forall m :: m in kept ==> kept[m] == record[m]
      decreases left
    {
      SomeMessage(left);
      var m :| m in left;
      if Sub(now, record[m].received) > MAX_SAVED_ACTION_AGE {
        kept := kept - {m};
      }
      left := left - {m};
    }
    ghost var f := Fresh(record, now);
    assert forall m :: m in kept <==> m in f;
    assert forall m :: m in f ==> f[m] == kept[m];
  }

  /** The purge of some of the channels. */
  function PurgedIn(t: SavedTable, now: Time, done: set<ChannelID>): SavedTable {
    map c | c in t && (c in done ==> Fresh(t[c], now) != map[]) :: if c in done then Fresh(t[c], now) else t[c]
  }

  /** The records after each channel of the old table was written back from the new. */
  function Rewritten(records: SavedTable, t: SavedTable, t': SavedTable): SavedTable {
    map c | c in records && (c in t ==> c in t') :: if c in t' then t'[c] else records[c]
  }

  /** Purging some of the channels, in memory and on disk: each record is written, and the
      channel list when a channel went. */
  function PurgeIn(p: SavedStore, now: Time, done: set<ChannelID>): SavedStore {
    var t := PurgedIn(p.table, now, done);
    Persisted(t, Image(if t.Keys == p.table.Keys then p.image.channels else t.Keys,
                       Rewritten(p.image.records, p.table, t)))
  }

  /** Purging one channel, in memory and on disk. */
  function PurgeOne(p: SavedStore, now: Time, c: ChannelID): SavedStore
    requires c in p.table
  {
    var kept := Fresh(p.table[c], now);
    var t := if kept == map[] then p.table - {c} else p.table[c := kept];
    Persisted(t, UpdateStorage(p.image, t, c, kept == map[]))
  }

  /** purge, in memory and on disk. */
  function PurgeAndStore(p: SavedStore, now: Time): SavedStore {
    PurgeIn(p, now, p.table.Keys)
  }

  lemma PurgeTable(p: SavedStore, now: Time)
    ensures PurgeAndStore(p, now).table == Purged(p.table, now)
  {
  }

  lemma PurgeNone(p: SavedStore, now: Time)
    requires Backed(p)
    ensures PurgeIn(p, now, {}) == p
  {
    assert PurgedIn(p.table, now, {}) == p.table;
    var r := Rewritten(p.image.records, p.table, p.table);
    assert forall c :: c in r <==> c in p.image.records;
    assert forall c :: c in r ==> r[c] == p.image.records[c];
  }

  lemma PurgeStaysBacked(p: SavedStore, now: Time, done: set<ChannelID>)
    requires Backed(p)
    ensures Backed(PurgeIn(p, now, done))
  {
  }

  lemma PurgedOneMore(t: SavedTable, now: Time, done: set<ChannelID>, c: ChannelID)
    requires c in t && c !in done
    ensures var q, kept := PurgedIn(t, now, done), Fresh(t[c], now);
            && c in q && q[c] == t[c]
            && PurgedIn(t, now, done + {c}) == (if kept == map[] then q - {c} else q[c := kept])
  {
  }

  lemma RewrittenOneMore(records: SavedTable, t: SavedTable, q: SavedTable, c: ChannelID,
                         kept: map<MessageID, SavedAction>)
    requires c in t && c in q && q.Keys <= t.Keys && forall d :: d in t ==> d in records
    ensures Rewritten(records, t, q - {c}) == Rewritten(records, t, q) - {c}
    ensures Rewritten(records, t, q[c := kept]) == Rewritten(records, t, q)[c := kept]
  {
  }

  /** Writing one more purged channel back. */
  lemma PurgeOneMore(p: SavedStore, now: Time, done: set<ChannelID>, c: ChannelID)
    requires Backed(p) && c in p.table && c !in done
    ensures c in PurgeIn(p, now, done).table
    ensures PurgeIn(p, now, done + {c}) == PurgeOne(PurgeIn(p, now, done), now, c)
  {
    var q, kept := PurgedIn(p.table, now, done), Fresh(p.table[c], now);
    PurgedOneMore(p.table, now, done, c);
    RewrittenOneMore(p.image.records, p.table, q, c, kept);
    if kept == map[] {
      assert c !in q - {c};
    }
  }

  class Saver {
    var actions: SavedTable
    var image: Image<MessageID, SavedAction>
    var cleanups: seq<(ChannelID, MessageID)>   // deletions handed to goroutines

    ghost function State(): SavedStore
      reads this
    {
      Persisted(actions, image)
    }

    ghost predicate Valid()
      reads this
    {
      Backed(State())
    }

    constructor ()
      ensures Valid() && State() == Persisted(map[], Image({}, map[])) && cleanups == []
    {
      actions, image, cleanups := map[], Image({}, map[]), [];
    }

    /** addAction. */
    method AddAction(sa: SavedAction)
      requires Valid()
      modifies this`actions, this`image
      ensures Valid() && State() == AddAndStore(old(State()), sa)
    {
      ghost var before := State();
      var c, key := sa.command.channel, sa.target;
      OperationsStayBacked(before, c, key, sa);
      var channelIdUpdate := false;
      if c !in actions {
        actions := actions[c := map[key := sa]];
        channelIdUpdate := true;
      } else if key !in actions[c] {
        actions := actions[c := actions[c][key := sa]];
      } else if !IsDelete(actions[c][key]) {
        if IsDelete(sa) {
          actions := actions[c := actions[c][key := sa]];
        } else if sa.command.originating > actions[c][key].command.originating {
          actions := actions[c := actions[c][key := sa]];
        } else {
          return;
        }
      }
      assert actions == before.table || actions == Put(before.table, c, key, sa);
      image := UpdateStorage(image, actions, c, channelIdUpdate);
    }

    /** CheckSavedActions: the saved action, if any, whose deletion is handed to a goroutine. */
    method CheckSavedActions(c: ChannelID, m: MessageID) returns (update: Option<SavedAction>, deleted: bool)
      modifies this`cleanups
      ensures cleanups == old(cleanups) + if Has(actions, c, m) then [(c, m)] else []
      ensures deleted <==> Has(actions, c, m) && IsDelete(actions[c][m])
      ensures update == if Has(actions, c, m) && !IsDelete(actions[c][m]) then Some(actions[c][m]) else None
    {
      update, deleted := None, false;
      if c in actions && m in actions[c] {
        cleanups := cleanups + [(c, m)];
        if IsDelete(actions[c][m]) {
          deleted := true;
        } else {
          update := Some(actions[c][m]);
        }
      }
    }

    /** deleteAction: removes whatever is now saved for the target. */
    method DeleteAction(c: ChannelID, m: MessageID)
      requires Valid()
      modifies this`actions, this`image
      ensures Valid() && State() == RemoveSaved(old(State()), c, m)
    {
      if c !in actions || m !in actions[c] {
        return;
      }
      ghost var before := State();
      OperationsStayBacked(before, c, m, before.table[c][m]);
      var rest := actions[c] - {m};
      var channelIdUpdate := |rest| == 0;
      actions := if channelIdUpdate then actions - {c} else actions[c := rest];
      assert actions == Remove(before.table, c, m);
      image := UpdateStorage(image, actions, c, channelIdUpdate);
    }

    /** RemoveChannel. */
    method RemoveChannel(c: ChannelID)
      requires Valid()
      modifies this`actions, this`image
      ensures Valid() && State() == DropChannel(old(State()), c)
    {
      if c !in actions {
        return;
      }
      actions := actions - {c};
      image := StoreChannels(image, actions);
      image := StoreRecord(image, actions, c);
    }

    /** The purge of one channel. */
    method PurgeChannel(c: ChannelID, now: Time)
      requires c in actions
      modifies this`actions, this`image
      ensures State() == PurgeOne(old(State()), now, c)
    {
      var kept := DropStale(actions[c], now);
      var channelIdUpdate := |kept| == 0;
      if channelIdUpdate {
        actions := actions - {c};
      } else {
        actions := actions[c := kept];
      }
      image := UpdateStorage(image, actions, c, channelIdUpdate);
    }

    /** purge. */
    method Purge(now: Time)
      requires Valid()
      modifies this`actions, this`image
      ensures Valid() && State() == PurgeAndStore(old(State()), now)
      ensures actions == Purged(old(actions), now)
    {
      ghost var before := State();
      ghost var done := {};
      PurgeNone(before, now);
      var left := actions.Keys;
      while left != {}
        invariant left <= before.table.Keys && done == before.table.Keys - left
        invariant State() == PurgeIn(before, now, done)
        decreases left
      {
        SomeChannel(left);
        var c :| c in left;
        PurgeOneMore(before, now, done, c);
        PurgeChannel(c, now);
        left, done := left - {c}, done + {c};
      }
      assert done == before.table.Keys;
      PurgeStaysBacked(before, now, done);
      PurgeTable(before, now);
    }

    /** load: stale actions are dropped from memory but stay in storage. */
    method LoadAll(now: Time) returns (ok: bool)
      requires actions == map[]
      modifies this`actions
      ensures ok <==> Load(image).Some?
      ensures ok ==> actions == Purged(Load(image).value, now)
    {
      var t;
      ok, t := LoadTable(image);
      actions := map c | c in t && Fresh(t[c], now) != map[] :: Fresh(t[c], now);
    }

    /** NewActionSaver over old storage, which is not loaded. */
    method Reopen()
      modifies this
      ensures Valid() && State() == Persisted(map[], old(image)) && cleanups == []
    {
      actions, cleanups := map[], [];
    }
  }

  lemma SomeMessage(s: set<MessageID>)
    requires s != {}
    ensures exists m :: m in s
  {
    assert (forall m :: m !in s) ==> s == {};
  }
}
