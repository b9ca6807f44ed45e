/**
 * Which of two conflicting commands is current (channels/replayBlocker.go) and the
 * bodies of the current ones (channels/commandStore.go).
 */
module ReplayBlocker {
  import opened Wrappers
  import opened ChannelTypes
  import opened ChannelStorage

  datatype Entry = Entry(channel: ChannelID, action: MessageType, payload: Content,
                         round: nat, unsanitized: Content)

  function EntryKey(e: Entry): Key {
    Key(e.channel, e.action, e.payload)
  }

  /** The blocker's entries and the command store's bodies. */
  datatype Ledger = Ledger(commands: Persisted<Key, Entry>, bodies: map<Key, Command>)

  function SanitizedKey(cmd: Command, sanitized: Content): Key {
    Key(cmd.channel, cmd.messageType, sanitized)
  }

  /** A command is blocked by a stored one that is at least as new and says otherwise. */
  predicate Blocked(t: Table<Key, Entry>, cmd: Command, sanitized: Content) {
    var k := SanitizedKey(cmd, sanitized);
    && Has(t, cmd.channel, k)
    && t[cmd.channel][k].round >= cmd.originatingRound
    && t[cmd.channel][k].unsanitized != cmd.content
  }

  function NewEntry(cmd: Command, sanitized: Content): Entry {
    Entry(cmd.channel, cmd.messageType, sanitized, cmd.originatingRound, cmd.content)
  }

  function Accept(l: Ledger, cmd: Command, sanitized: Content): Ledger {
    var k := SanitizedKey(cmd, sanitized);
    Ledger(PutSaved(l.commands, cmd.channel, k, NewEntry(cmd, sanitized)),
           l.bodies[k := cmd.(content := sanitized)])
  }

  /** Expiry: entry and body go together. */
  function Forget(l: Ledger, k: Key): Ledger {
    Ledger(RemoveSaved(l.commands, k.channel, k), l.bodies - {k})
  }

  function ChannelKeys(t: Table<Key, Entry>, c: ChannelID): set<Key> {
    if c in t then t[c].Keys else {}
  }

  /** Removal of a channel: the bodies of its leases, then its entries and their bodies. */
  function ForgetChannel(l: Ledger, c: ChannelID, leaseKeys: set<Key>): Ledger {
    Ledger(DropChannel(l.commands, c), l.bodies - leaseKeys - ChannelKeys(l.commands.table, c))
  }

  /** Every entry sits under its own channel and fingerprint. */
  ghost predicate WellKeyed(t: Table<Key, Entry>) {
    forall c, k :: Has(t, c, k) ==> k.channel == c && EntryKey(t[c][k]) == k
  }

  /** A body is stored exactly where there is an entry, with the same payload and round. */
  ghost predicate Agrees(l: Ledger) {
    && WellKeyed(l.commands.table)
    && (forall k :: k in l.bodies <==> Has(l.commands.table, k.channel, k))
    && (forall k :: k in l.bodies ==>
          CommandKey(l.bodies[k]) == k && l.bodies[k].originatingRound == l.commands.table[k.channel][k].round)
  }

  lemma AcceptAgrees(l: Ledger, cmd: Command, sanitized: Content)
    requires Agrees(l)
    ensures Agrees(Accept(l, cmd, sanitized))
  {
    var k, e := SanitizedKey(cmd, sanitized), NewEntry(cmd, sanitized);
    forall c', k' { PutLookup(l.commands.table, cmd.channel, k, e, c', k'); }
  }

  /** A stored body is a command as it came, with only its content sanitized. */
  predicate BodyOf(body: Command, cmd: Command, sanitized: Content) {
    && body.channel == cmd.channel && body.messageID == cmd.messageID && body.messageType == cmd.messageType
    && body.content == sanitized && body.encrypted == cmd.encrypted && body.timestamp == cmd.timestamp
    && body.originating == cmd.originating && body.lease == cmd.lease
    && body.originatingRound == cmd.originatingRound && body.round == cmd.round && body.fromAdmin == cmd.fromAdmin
  }

  /** What is stored of an accepted command, under its fingerprint and nowhere else: its body,
      and an entry with its round and with its payload as it came. */
  lemma AcceptStores(l: Ledger, cmd: Command, sanitized: Content)
    ensures var l', fp := Accept(l, cmd, sanitized), Key(cmd.channel, cmd.messageType, sanitized);
            && fp in l'.bodies && BodyOf(l'.bodies[fp], cmd, sanitized)
            && Has(l'.commands.table, cmd.channel, fp)
            && l'.commands.table[cmd.channel][fp].round == cmd.originatingRound
            && l'.commands.table[cmd.channel][fp].unsanitized == cmd.content
            && forall k: Key :: k != fp ==>
                 && (k in l'.bodies <==> k in l.bodies) && (k in l.bodies ==> l'.bodies[k] == l.bodies[k])
                 && (Has(l'.commands.table, k.channel, k) <==> Has(l.commands.table, k.channel, k))
                 && (Has(l.commands.table, k.channel, k) ==>
                       l'.commands.table[k.channel][k] == l.commands.table[k.channel][k])
  {
    var fp := Key(cmd.channel, cmd.messageType, sanitized);
    forall k: Key { PutLookup(l.commands.table, cmd.channel, fp, NewEntry(cmd, sanitized), k.channel, k); }
  }

  lemma ForgetAgrees(l: Ledger, k: Key)
    requires Agrees(l)
    ensures Agrees(Forget(l, k))
  {
    forall c', k' { RemoveLookup(l.commands.table, k.channel, k, c', k'); }
  }

  /** The two calls that forgetting a command takes: the entry goes, then the body. */
  function ForgetEntry(l: Ledger, k: Key): Ledger {
    l.(commands := RemoveSaved(l.commands, k.channel, k))
  }

  function DropBody(l: Ledger, k: Key): Ledger {
    l.(bodies := l.bodies - {k})
  }

  /** A command accepted between the two calls: entries and bodies still agree exactly when
      it has another fingerprint. Otherwise its new body is dropped and its entry stays. */
  lemma AcceptedWhileForgetting(l: Ledger, k: Key, cmd: Command, sanitized: Content)
    requires Agrees(l)
    ensures Forget(l, k) == DropBody(ForgetEntry(l, k), k)
    ensures Agrees(DropBody(Accept(ForgetEntry(l, k), cmd, sanitized), k)) <==> SanitizedKey(cmd, sanitized) != k
  {
    var k' := SanitizedKey(cmd, sanitized);
    var l1 := ForgetEntry(l, k);
    var l2 := DropBody(Accept(l1, cmd, sanitized), k);
    if k' == k {
      PutLookup(l1.commands.table, k.channel, k, NewEntry(cmd, sanitized), k.channel, k);
      assert Has(l2.commands.table, k.channel, k) && k !in l2.bodies;
    } else {
      ForgetAgrees(l, k);
      AcceptAgrees(Forget(l, k), cmd, sanitized);
      var body := cmd.(content := sanitized);
      assert l.bodies[k' := body] - {k} == (l.bodies - {k})[k' := body];
      assert l2 == Accept(Forget(l, k), cmd, sanitized);
    }
  }

  /** Removing a channel leaves no entry and no body of it, provided the leases whose
      bodies go with it are its own; nothing of any other channel changes. */
  lemma ForgetChannelAgrees(l: Ledger, c: ChannelID, leaseKeys: set<Key>)
    requires Agrees(l)
    requires forall k :: k in leaseKeys ==> k.channel == c
    ensures Agrees(ForgetChannel(l, c, leaseKeys))
    ensures forall k :: k in ForgetChannel(l, c, leaseKeys).bodies <==> k in l.bodies && k.channel != c
    ensures forall k: Key :: Has(ForgetChannel(l, c, leaseKeys).commands.table, k.channel, k)
                   <==> Has(l.commands.table, k.channel, k) && k.channel != c
  {
    var r, t := ForgetChannel(l, c, leaseKeys), l.commands.table;
    forall c', k': Key { DropLookup(l.commands, c, c', k'); }
    forall k: Key ensures k in r.bodies <==> k in l.bodies && k.channel != c {
      if k.channel == c {
        assert k in l.bodies ==> Has(t, c, k);
      } else {
        assert k !in ChannelKeys(t, c) by { assert Has(t, c, k) ==> k.channel == c; }
      }
    }
  }

  function ForgetEach(l: Ledger, ks: seq<Key>): Ledger
    decreases |ks|
  {
    if ks == [] then l else ForgetEach(Forget(l, ks[0]), ks[1..])
  }

  lemma ForgetEachAppend(l: Ledger, a: seq<Key>, b: seq<Key>)
    ensures ForgetEach(l, a + b) == ForgetEach(ForgetEach(l, a), b)
    decreases |a|
  {
    if a == [] {
      assert a + b == b;
    } else {
      assert (a + b)[1..] == a[1..] + b;
      ForgetEachAppend(Forget(l, a[0]), a[1..], b);
    }
  }

  /** What forgetting one command leaves. */
  lemma ForgetOne(l: Ledger, k: Key)
    requires Agrees(l) && Synced(l.commands)
    ensures Agrees(Forget(l, k)) && Synced(Forget(l, k).commands)
    ensures forall c, k' :: Has(Forget(l, k).commands.table, c, k') ==>
              && Has(l.commands.table, c, k')
              && Forget(l, k).commands.table[c][k'] == l.commands.table[c][k']
  {
    ForgetAgrees(l, k);
    if Has(l.commands.table, k.channel, k) {
      OperationsStaySynced(l.commands, k.channel, k, l.commands.table[k.channel][k]);
    }
    forall c, k' { RemoveLookup(l.commands.table, k.channel, k, c, k'); }
  }

  lemma {:induction false} ForgetEachBodies(l: Ledger, ks: seq<Key>)
    ensures ForgetEach(l, ks).bodies == l.bodies - (set k | k in ks)
    decreases |ks|
  {
    if ks != [] {
      ForgetEachBodies(Forget(l, ks[0]), ks[1..]);
      assert ks == [ks[0]] + ks[1..];
      assert (set x | x in ks) == {ks[0]} + (set x | x in ks[1..]);
    }
  }

  lemma {:induction false} ForgetEachAgrees(l: Ledger, ks: seq<Key>)
    requires Agrees(l) && Synced(l.commands)
    ensures Agrees(ForgetEach(l, ks)) && Synced(ForgetEach(l, ks).commands)
    ensures ForgetEach(l, ks).bodies == l.bodies - (set k | k in ks)
    ensures forall c, k :: Has(ForgetEach(l, ks).commands.table, c, k) ==>
              && Has(l.commands.table, c, k)
              && ForgetEach(l, ks).commands.table[c][k] == l.commands.table[c][k]
    decreases |ks|
  {
    ForgetEachBodies(l, ks);
    if ks != [] {
      ForgetOne(l, ks[0]);
      ForgetEachAgrees(Forget(l, ks[0]), ks[1..]);
    }
  }

  // ----- Rounds -----

  function Verify(l: Ledger, cmd: Command, sanitized: Content): Ledger {
    if Blocked(l.commands.table, cmd, sanitized) then l else Accept(l, cmd, sanitized)
  }

  /** The stored command changes what it says only for a strictly newer command. */
  lemma FlipsOnlyForward(l: Ledger, cmd: Command, sanitized: Content, k: Key)
    requires Has(l.commands.table, k.channel, k)
    ensures var t := Verify(l, cmd, sanitized).commands.table;
            && Has(t, k.channel, k)
            && (t[k.channel][k].unsanitized != l.commands.table[k.channel][k].unsanitized
                ==> t[k.channel][k].round > l.commands.table[k.channel][k].round)
  {
    if !Blocked(l.commands.table, cmd, sanitized) {
      PutLookup(l.commands.table, cmd.channel, SanitizedKey(cmd, sanitized), NewEntry(cmd, sanitized), k.channel, k);
    }
  }

  /** A command for one target and what is stored for it after a history of them. */
  datatype Report = Report(round: nat, content: Content)

  function Stored(history: seq<Report>): Option<Report> {
    if history == [] then None
    else
      var before, latest := Stored(history[..|history| - 1]), history[|history| - 1];
      if before.Some? && before.value.round >= latest.round && before.value.content != latest.content
      then before else Some(latest)
  }

  /** A repeat of the stored verb from an older round: accepted, although older. */
  predicate StaleRepeat(history: seq<Report>, latest: Report) {
    var s := Stored(history);
    s.Some? && s.value.content == latest.content && latest.round < s.value.round
  }

  ghost predicate NoStaleRepeat(history: seq<Report>) {
    forall i :: 0 <= i < |history| ==> !StaleRepeat(history[..i], history[i])
  }

  ghost predicate StoresNewest(history: seq<Report>) {
    history != [] ==>
      Stored(history).Some? && forall i :: 0 <= i < |history| ==> history[i].round <= Stored(history).value.round
  }

  lemma {:induction false} NewestUnlessStale(history: seq<Report>)
    requires NoStaleRepeat(history)
    ensures StoresNewest(history)
  {
    if history != [] {
      var before, latest := history[..|history| - 1], history[|history| - 1];
      forall i | 0 <= i < |before| ensures before[..i] == history[..i] && before[i] == history[i] {}
      NewestUnlessStale(before);
      assert !StaleRepeat(before, latest);
      forall i | 0 <= i < |history| ensures history[i].round <= Stored(history).value.round {
        if i < |before| { assert history[i] == before[i]; }
      }
    }
  }

  lemma PrefixHasNoStale(history: seq<Report>, n: nat)
    requires NoStaleRepeat(history) && n <= |history|
    ensures NoStaleRepeat(history[..n])
  {
    var h := history[..n];
    forall i | 0 <= i < |h| ensures !StaleRepeat(h[..i], h[i]) {
      assert h[..i] == history[..i];
    }
  }

  /** A stale repeat takes the stored round back. */
  lemma StaleLosesNewest(history: seq<Report>, i: nat)
    requires i < |history| && StaleRepeat(history[..i], history[i])
    ensures !StoresNewest(history[..i + 1])
  {
    var h, before := history[..i + 1], history[..i];
    assert h[..|h| - 1] == before && h[i] == history[i];
    StoredWasSeen(before);
    var j :| 0 <= j < |before| && before[j] == Stored(before).value;
    assert h[j] == before[j];
  }

  /** The stored round is the newest seen throughout a history exactly when no accepted
      command repeats the stored verb from an older round. */
  lemma StoresNewestExactly(history: seq<Report>)
    ensures NoStaleRepeat(history)
       <==> forall n :: 0 <= n <= |history| ==> StoresNewest(history[..n])
  {
    if NoStaleRepeat(history) {
      forall n | 0 <= n <= |history| ensures StoresNewest(history[..n]) {
        PrefixHasNoStale(history, n);
        NewestUnlessStale(history[..n]);
      }
    } else {
      var i :| 0 <= i < |history| && StaleRepeat(history[..i], history[i]);
      StaleLosesNewest(history, i);
    }
  }

  lemma {:induction false} StoredWasSeen(history: seq<Report>)
    requires history != []
    ensures Stored(history).Some?
    ensures exists j :: 0 <= j < |history| && history[j] == Stored(history).value
  {
    var n := |history| - 1;
    if n == 0 {
      assert history[0] == Stored(history).value;
    } else {
      StoredWasSeen(history[..n]);
      if Stored(history) == Stored(history[..n]) {
        var j :| 0 <= j < n && history[..n][j] == Stored(history[..n]).value;
        assert history[j] == Stored(history).value;
      } else {
        assert history[n] == Stored(history).value;
      }
    }
  }

  /** Verifying one target's commands in turn stores exactly what Stored says. */
  lemma VerifyFollowsStored(l: Ledger, cmd: Command, sanitized: Content, history: seq<Report>)
    requires var k := SanitizedKey(cmd, sanitized);
             match Stored(history)
             case None => !Has(l.commands.table, k.channel, k)
             case Some(r) => Has(l.commands.table, k.channel, k)
                             && l.commands.table[k.channel][k].round == r.round
                             && l.commands.table[k.channel][k].unsanitized == r.content
    ensures var k, t := SanitizedKey(cmd, sanitized), Verify(l, cmd, sanitized).commands.table;
            var s := Stored(history + [Report(cmd.originatingRound, cmd.content)]);
            && s.Some? && Has(t, k.channel, k)
            && t[k.channel][k].round == s.value.round && t[k.channel][k].unsanitized == s.value.content
  {
    var h := history + [Report(cmd.originatingRound, cmd.content)];
    assert h[..|h| - 1] == history;
    var k := SanitizedKey(cmd, sanitized);
    PutLookup(l.commands.table, cmd.channel, k, NewEntry(cmd, sanitized), k.channel, k);
  }

  // ----- The stateful components -----

  /** channels/commandStore.go. */
  class CommandStore {
    var kv: map<Key, Command>

    constructor ()
      ensures kv == map[]
    {
      kv := map[];
    }

    method SaveCommand(cmd: Command)
      modifies this
      ensures kv == old(kv)[CommandKey(cmd) := cmd]
    {
      kv := kv[CommandKey(cmd) := cmd];
    }

    method LoadCommand(k: Key) returns (r: Option<Command>)
      ensures r.Some? <==> k in kv
      ensures r.Some? ==> r.value == kv[k]
    {
      r := if k in kv then Some(kv[k]) else None;
    }

    method DeleteCommand(k: Key)
      modifies this
      ensures kv == old(kv) - {k}
    {
      kv := kv - {k};
    }
  }

  /** channels/replayBlocker.go. Replays are handed to their own goroutine; the keys it
      is started with are queued in order. */
  class Blocker {
    const store: CommandStore
    var commandsByChannel: Table<Key, Entry>
    var image: Image<Key, Entry>
    var replays: seq<Key>

    ghost function State(): Ledger
      reads this, store
    {
      Ledger(Persisted(commandsByChannel, image), store.kv)
    }

    ghost predicate Valid()
      reads this
    {
      WellKeyed(commandsByChannel) && Mirrors(image, commandsByChannel)
    }

    constructor (store: CommandStore)
      ensures Valid() && this.store == store && commandsByChannel == map[] && replays == []
    {
      this.store := store;
      commandsByChannel, image, replays := map[], Image({}, map[]), [];
    }

    method VerifyReplay(cmd: Command, sanitized: Content) returns (verified: bool)
      requires Valid()
      modifies this, store
      ensures Valid()
      ensures verified <==> !old(Blocked(commandsByChannel, cmd, sanitized))
      ensures verified ==> State() == Accept(old(State()), cmd, sanitized) && replays == old(replays)
      ensures !verified ==> State() == old(State()) && replays == old(replays) + [SanitizedKey(cmd, sanitized)]
    {
      ghost var before := Persisted(commandsByChannel, image);
      var fp := Key(cmd.channel, cmd.messageType, sanitized);
      var entry := NewEntry(cmd, sanitized);
      var channelIdUpdate := false;
      if cmd.channel in commandsByChannel {
        var messages := commandsByChannel[cmd.channel];
        if fp in messages
           && messages[fp].round >= cmd.originatingRound
           && messages[fp].unsanitized != cmd.content {
          replays := replays + [EntryKey(messages[fp])];
          return false;
        }
        commandsByChannel := commandsByChannel[cmd.channel := messages[fp := entry]];
      } else {
        commandsByChannel := commandsByChannel[cmd.channel := map[fp := entry]];
        channelIdUpdate := true;
      }
      store.SaveCommand(cmd.(content := sanitized));
      image := UpdateStorage(image, commandsByChannel, cmd.channel, channelIdUpdate);
      verified := true;
      OperationsStaySynced(before, cmd.channel, fp, entry);
      assert commandsByChannel == Put(before.table, cmd.channel, fp, entry);
      forall c', k' { PutLookup(before.table, cmd.channel, fp, entry, c', k'); }
    }

    method RemoveCommand(fp: Key)
      requires Valid()
      modifies this
      ensures Valid() && replays == old(replays)
      ensures Persisted(commandsByChannel, image)
           == RemoveSaved(old(Persisted(commandsByChannel, image)), fp.channel, fp)
    {
      ghost var before := Persisted(commandsByChannel, image);
      if fp.channel !in commandsByChannel || fp !in commandsByChannel[fp.channel] {
        return;
      }
      var channelIdUpdate := false;
      commandsByChannel := commandsByChannel[fp.channel := commandsByChannel[fp.channel] - {fp}];
      if |commandsByChannel[fp.channel]| == 0 {
        commandsByChannel := commandsByChannel - {fp.channel};
        channelIdUpdate := true;
      }
      image := UpdateStorage(image, commandsByChannel, fp.channel, channelIdUpdate);
      assert commandsByChannel == Remove(before.table, fp.channel, fp);
      OperationsStaySynced(before, fp.channel, fp, before.table[fp.channel][fp]);
      forall c', k' { RemoveLookup(before.table, fp.channel, fp, c', k'); }
    }

    method RemoveChannelCommands(c: ChannelID)
      requires Valid()
      modifies this, store
      ensures Valid() && replays == old(replays)
      ensures State() == ForgetChannel(old(State()), c, {})
    {
      if c !in commandsByChannel {
        return;
      }
      DeleteBodies(c);
      DropEntries(c);
    }

    /** The entries of a channel go, in memory and on disk. */
    method DropEntries(c: ChannelID)
      requires Valid() && c in commandsByChannel
      modifies this`commandsByChannel, this`image
      ensures Valid()
      ensures Persisted(commandsByChannel, image) == DropChannel(old(Persisted(commandsByChannel, image)), c)
    {
      commandsByChannel := commandsByChannel - {c};
      image := StoreChannels(image, commandsByChannel);
      image := StoreRecord(image, commandsByChannel, c);
    }

    /** The loop of removeChannelCommands: the body of each command goes. */
    method DeleteBodies(c: ChannelID)
      requires WellKeyed(commandsByChannel) && c in commandsByChannel
      modifies store
      ensures store.kv == old(store.kv) - commandsByChannel[c].Keys
    {
      var commands := commandsByChannel[c];
      var left := commands.Keys;
      while left != {}
        invariant left <= commands.Keys
        invariant store.kv == old(store.kv) - (commands.Keys - left)
        decreases left
      {
        var k :| k in left;
        assert Has(commandsByChannel, c, k);
        store.DeleteCommand(EntryKey(commands[k]));
        left := left - {k};
      }
    }

    /** load: an error leaves what was read so far. */
    method LoadAll() returns (ok: bool)
      modifies this
      ensures image == old(image) && replays == old(replays)
      ensures ok <==> Load(image).Some?
      ensures ok ==> commandsByChannel == Load(image).value
    {
      ok, commandsByChannel := LoadTable(image);
    }

    /** A new process over the same storage. */
    method Reopen()
      requires Valid()
      modifies this
      ensures Valid() && State() == old(State()) && replays == []
    {
      LoadRebuilds(Persisted(commandsByChannel, image));
      replays := [];
      var ok := LoadAll();
    }
  }
}
