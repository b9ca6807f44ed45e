/**
 * channels/lease.go: the lease list as the lease thread changes it, operation by
 * operation, and one pass of the thread.
 */
module ActionLeaseList {
  import opened Wrappers
  import opened ChannelTypes
  import opened ChannelStorage
  import opened LeaseTrigger
  import opened LeaseOrder
  import opened LeasePass
  import opened LeaseIndex
  import opened LeaseDisk
  import opened ReplayBlocker

  class LeaseList {
    const blocker: Blocker
    var leases: seq<Key>
    var messagesByChannel: Table<Key, Lease>
    var image: Image<Key, Lease>
    ghost var load: Loading   // the last load

    ghost function State(): LeaseState
      reads this
    {
      LeaseState(leases, messagesByChannel, image)
    }

    ghost predicate Valid()
      reads this, blocker
    {
      Good(State(), load) && blocker.Valid()
    }

    /** The leases in list order. */
    ghost function List(): seq<Lease>
      reads this
      requires AllLinked(leases, messagesByChannel)
    {
      LeasesOf(State())
    }

    constructor (blocker: Blocker)
      requires blocker.Valid()
      ensures Valid() && this.blocker == blocker && leases == [] && messagesByChannel == map[]
      ensures List() == [] && image == Image({}, map[]) && load == Loading(0, map[])
    {
      this.blocker := blocker;
      leases, messagesByChannel, image, load := [], map[], Image({}, map[]), Loading(0, map[]);
    }

    /** findSortedPosition: the first lease that fires after t. */
    method FindSortedPosition(t: Time) returns (mark: nat)
      requires AllLinked(leases, messagesByChannel)
      ensures mark == LeaseOrder.FindSortedPosition(List(), t)
    {
      mark := 0;
      while mark < |leases|
        invariant mark <= |leases|
        invariant forall i :: 0 <= i < mark ==> List()[i].trigger <= t
      {
        var k := leases[mark];
        if messagesByChannel[k.channel][k].trigger > t {
          break;
        }
        mark := mark + 1;
      }
      PositionUnique(List(), t, mark);
    }

    /** updateStorage. */
    method StoreLeases(c: ChannelID, channelIdUpdate: bool)
      modifies this`image
      ensures image == UpdateStorage(old(image), messagesByChannel, c, channelIdUpdate)
    {
      if c !in messagesByChannel || |messagesByChannel[c]| == 0 {
        image := image.(records := image.records - {c});
      } else {
        image := image.(records := image.records[c := messagesByChannel[c]]);
      }
      if channelIdUpdate {
        image := image.(channels := messagesByChannel.Keys);
      }
    }

    /** addMessage. The packet is a new object whose list element is nil, so when a lease
        with its fingerprint is live the source dereferences nil. */
    method AddMessage(packet: Lease) returns (panicked: bool)
      requires Valid()
      modifies this
      ensures Valid() && load == old(load)
      ensures panicked <==> packet.key in Keys(old(List()))
      ensures panicked ==> State() == old(State())
      ensures !panicked ==>
                && List() == Insert(old(List()), packet)
                && image == Store(old(image), old(List()), List(), packet.key.channel)
    {
      ghost var before := State();
      IndexAnswers(before, load, packet.key);
      var k := packet.key;
      if k.channel in messagesByChannel && k in messagesByChannel[k.channel] {
        return true;
      }
      AddGood(before, load, packet);
      AddIsStore(before, load, packet);
      WriteAddition(packet);
      panicked := false;
    }

    /** The writes of an addition. */
    method WriteAddition(packet: Lease)
      requires AllLinked(leases, messagesByChannel)
      modifies this`leases, this`messagesByChannel, this`image
      ensures State() == AddAt(old(State()), packet, LeaseOrder.FindSortedPosition(old(List()), packet.trigger))
    {
      var k := packet.key;
      var channelIdUpdate := k.channel !in messagesByChannel;
      var p := FindSortedPosition(packet.trigger);
      leases := leases[..p] + [k] + leases[p..];
      messagesByChannel := Put(messagesByChannel, k.channel, k, packet);
      StoreLeases(k.channel, channelIdUpdate);
    }

    /** Where a live key sits on the list: the source keeps this link in the lease message. */
    method Locate(k: Key) returns (i: nat)
      requires Good(State(), load) && Has(messagesByChannel, k.channel, k)
      ensures i < |leases| && leases[i] == k && i == IndexOf(List(), k)
    {
      ghost var at := IndexOf(List(), k);
      IndexAnswers(State(), load, k);
      i := 0;
      while leases[i] != k
        invariant i <= at
        decreases at - i
      {
        i := i + 1;
      }
      assert leases[i] == List()[i].key by { IndexAnswers(State(), load, leases[i]); }
    }

    /** Deletes a key from the map, and the channel with its last key. */
    method Unmap(k: Key) returns (channelIdUpdate: bool)
      requires Has(messagesByChannel, k.channel, k)
      modifies this`messagesByChannel
      ensures messagesByChannel == Remove(old(messagesByChannel), k.channel, k)
      ensures channelIdUpdate <==> k.channel !in messagesByChannel
    {
      messagesByChannel := messagesByChannel[k.channel := messagesByChannel[k.channel] - {k}];
      channelIdUpdate := |messagesByChannel[k.channel]| == 0;
      if channelIdUpdate {
        messagesByChannel := messagesByChannel - {k.channel};
      }
    }

    /** The writes of a removal. */
    method WriteRemoval(i: nat)
      requires i < |leases| && Has(messagesByChannel, leases[i].channel, leases[i])
      modifies this`leases, this`messagesByChannel, this`image
      ensures State() == DeleteAt(old(State()), i)
    {
      var k := leases[i];
      leases := DropAt(leases, i);
      var channelIdUpdate := Unmap(k);
      StoreLeases(k.channel, channelIdUpdate);
    }

    /** Takes the lease at position i off the list, the index and storage. */
    method Unlist(i: nat)
      requires Good(State(), load) && i < |leases|
      modifies this`leases, this`messagesByChannel, this`image
      ensures Good(State(), load)
      ensures List() == RemoveAt(old(List()), i)
      ensures image == Store(old(image), old(List()), List(), old(leases[i]).channel)
    {
      DeleteGood(State(), load, i);
      DeleteIsStore(State(), load, i);
      WriteRemoval(i);
    }

    /** removeMessage. */
    method RemoveMessage(k: Key, leaseExpired: bool)
      requires Valid()
      modifies this, blocker, blocker.store
      ensures Valid() && blocker.replays == old(blocker.replays)
      ensures load == old(load) && List() == RemoveKey(old(List()), k)
      ensures image == StoreKey(old(image), old(List()), List(), k)
      ensures blocker.State() == if leaseExpired && k in Keys(old(List())) then Forget(old(blocker.State()), k)
                                 else old(blocker.State())
    {
      IndexAnswers(State(), load, k);
      if k.channel !in messagesByChannel || k !in messagesByChannel[k.channel] {
        return;
      }
      var i := Locate(k);
      Unlist(i);
      if leaseExpired {
        blocker.RemoveCommand(k);
        blocker.store.DeleteCommand(k);
      }
    }

    /** The writes of updateLease: the trigger of the lease at i is changed in place and the
        lease moved before the position found in the list that still holds it. */
    method WriteTrigger(i: nat, t: Time)
      requires i < |leases| && Has(messagesByChannel, leases[i].channel, leases[i])
      requires AllLinked(leases, Retimed(State(), i, t))
      requires ScanPosition(State(), i, t) < |leases|
      modifies this`leases, this`messagesByChannel, this`image
      ensures State() == old(RetimeAt(State(), i, t, ScanPosition(State(), i, t)))
    {
      var k := leases[i];
      messagesByChannel := Put(messagesByChannel, k.channel, k, messagesByChannel[k.channel][k].(trigger := t));
      var mark := FindSortedPosition(t);
      leases := MoveKey(leases, i, if mark > i then mark - 1 else mark);
      StoreLeases(k.channel, false);
    }

    /** updateLease, with the write that follows it. */
    method Retime(i: nat, t: Time)
      requires Good(State(), load) && i < |leases|
      modifies this`leases, this`messagesByChannel, this`image
      ensures Good(State(), load)
      ensures List() == Reposition(old(List()), i, t)
      ensures image == Store(old(image), old(List()), List(), old(leases[i]).channel)
    {
      RetimeFacts(State(), load, i, t);
      WriteTrigger(i, t);
    }

    /** updateLeaseTrigger. */
    method UpdateLeaseTrigger(k: Key, now: Time, seed: nat)
      requires Valid()
      modifies this, blocker, blocker.store
      ensures Valid() && blocker.replays == old(blocker.replays)
      ensures load == old(load) && List() == RenewKey(old(List()), k, now, seed)
      ensures image == StoreKey(old(image), old(List()), List(), k)
      ensures blocker.State() == if RunsOutAt(old(List()), k, now, seed) then Forget(old(blocker.State()), k)
                                 else old(blocker.State())
    {
      IndexAnswers(State(), load, k);
      if k.channel !in messagesByChannel || k !in messagesByChannel[k.channel] {
        return;
      }
      var i := Locate(k);
      var lm := messagesByChannel[k.channel][k];
      var trigger := CalculateLeaseTrigger(now, lm.originating, lm.lease, seed);
      if trigger.None? {
        RemoveMessage(k, true);
      } else {
        Retime(i, trigger.value);
      }
    }

    /** The loop of removeChannel: each lease of the channel leaves the list and its body
        the command store. */
    method DeleteLeases(ks: set<Key>)
      modifies this`leases, blocker.store
      ensures leases == KeysWithout(old(leases), ks)
      ensures blocker.store.kv == old(blocker.store.kv) - ks
    {
      var left := ks;
      KeysWithoutNone(leases);
      assert ks - left == {};
      while left != {}
        invariant left <= ks
        invariant leases == KeysWithout(old(leases), ks - left)
        invariant blocker.store.kv == old(blocker.store.kv) - (ks - left)
        decreases left
      {
        var k :| k in left;
        KeysWithoutTwice(old(leases), ks - left, {k});
        assert (ks - left) + {k} == ks - (left - {k});
        leases := KeysWithout(leases, {k});
        blocker.store.DeleteCommand(k);
        left := left - {k};
      }
      assert ks - left == ks;
    }

    /** The writes of removeChannel. */
    method WriteDrop(c: ChannelID)
      requires c in messagesByChannel && blocker.Valid()
      modifies this`leases, this`messagesByChannel, this`image, blocker, blocker.store
      ensures blocker.Valid() && blocker.replays == old(blocker.replays)
      ensures blocker.State() == ForgetChannel(old(blocker.State()), c, old(messagesByChannel)[c].Keys)
      ensures leases == KeysWithout(old(leases), old(messagesByChannel)[c].Keys)
      ensures messagesByChannel == old(messagesByChannel) - {c}
      ensures image == StoreRecord(StoreChannels(old(image), messagesByChannel), messagesByChannel, c)
    {
      DeleteLeases(messagesByChannel[c].Keys);
      blocker.RemoveChannelCommands(c);
      messagesByChannel := messagesByChannel - {c};
      image := image.(channels := messagesByChannel.Keys);
      image := image.(records := image.records - {c});
    }

    /** removeChannel. */
    method RemoveChannel(c: ChannelID)
      requires Valid()
      modifies this, blocker, blocker.store
      ensures Valid() && blocker.replays == old(blocker.replays) && load == old(load)
      ensures c !in old(messagesByChannel) ==> State() == old(State()) && blocker.State() == old(blocker.State())
      ensures c in old(messagesByChannel) ==>
                && List() == Outside(old(List()), c) && image == StoreDrop(old(image), old(List()), c)
                && blocker.State() == ForgetChannel(old(blocker.State()), c, old(messagesByChannel)[c].Keys)
    {
      if c !in messagesByChannel {
        return;
      }
      ghost var before := State();
      ChannelOfList(before, load, c);
      DropLeasesGood(before, load, c);
      DroppedIsStoreDrop(before, load, c);
      WriteDrop(c);
      assert State() == DropLeases(before, c);
    }

    /** The scan of a pass: which due leases are removed, undone and replayed. The clock is
        read anew for every lease; reading i is taken at position i. */
    method Scan(clock: seq<Time>)
      returns (n: nat, toRemove: seq<Key>, toUpdate: seq<Key>, undos: seq<Command>, sent: seq<(ChannelID, Blob)>)
      requires AllLinked(leases, messagesByChannel) && KeysInOrder(List()) == leases
      requires |clock| == |leases| + 1
      requires forall i, j :: 0 <= i < j < |clock| ==> clock[i] <= clock[j]
      ensures n <= |leases| && n == DueCount(List(), clock[n])
      ensures forall i :: 0 <= i < n ==> List()[i].trigger <= clock[i] - MILLISECOND
      ensures n < |leases| ==> List()[n].trigger > clock[n] - MILLISECOND
      ensures toRemove == ScanMarked(List()[..n], blocker.store.kv)
      ensures toUpdate == ScanReplayed(List()[..n], blocker.store.kv)
      ensures undos == ScanUndos(List()[..n], blocker.store.kv)
      ensures sent == Sends(toUpdate, blocker.store.kv)
    {
      n, toRemove, toUpdate, undos, sent := 0, [], [], [], [];
      ghost var ls, kv := List(), blocker.store.kv;
      while n < |leases|
        invariant n <= |leases|
        invariant forall i :: 0 <= i < n ==> ls[i].trigger <= clock[i] - MILLISECOND
        invariant toRemove == ScanMarked(ls[..n], kv)
        invariant toUpdate == ScanReplayed(ls[..n], kv)
        invariant undos == ScanUndos(ls[..n], kv)
        invariant sent == Sends(toUpdate, kv)
      {
        var k := leases[n];
        var lm := messagesByChannel[k.channel][k];
        assert lm == ls[n] && lm.key == k;
        if lm.trigger > clock[n] - MILLISECOND {
          break;
        }
        ScanStep(ls, n, kv);
        var cm := blocker.store.LoadCommand(lm.key);
        if cm.None? {
          toRemove := toRemove + [lm.key];
        } else if lm.trigger >= lm.end {
          toRemove := toRemove + [lm.key];
          undos := undos + [UndoCall(lm, cm.value)];
        } else {
          SendsSnoc(toUpdate, lm.key, kv);
          toUpdate := toUpdate + [lm.key];
          sent := sent + [(lm.key.channel, cm.value.encrypted)];
        }
        n := n + 1;
      }
      PositionUnique(ls, clock[n] - MILLISECOND, n);
    }

    /** Removes the marked leases one by one. */
    method RemoveAll(ks: seq<Key>)
      requires Valid()
      modifies this, blocker, blocker.store
      ensures Valid() && blocker.replays == old(blocker.replays) && load == old(load)
      ensures List() == RemoveEach(old(List()), ks) && image == StoreRemovals(old(image), old(List()), ks)
      ensures blocker.State() == ForgetListed(old(blocker.State()), old(List()), ks)
    {
      assert ks[0..] == ks;
      for j := 0 to |ks|
        invariant Valid() && blocker.replays == old(blocker.replays) && load == old(load)
        invariant RemoveEach(List(), ks[j..]) == RemoveEach(old(List()), ks)
        invariant StoreRemovals(image, List(), ks[j..]) == StoreRemovals(old(image), old(List()), ks)
        invariant ForgetListed(blocker.State(), List(), ks[j..])
               == ForgetListed(old(blocker.State()), old(List()), ks)
      {
        assert ks[j..][1..] == ks[j + 1..];
        RemoveMessage(ks[j], true);
      }
      assert ks[|ks|..] == [];
    }

    /** Reschedules the replayed leases one by one. */
    method RenewAll(ks: seq<Key>, r: Reading)
      requires Valid()
      modifies this, blocker, blocker.store
      ensures Valid() && blocker.replays == old(blocker.replays) && load == old(load)
      ensures List() == RenewEach(old(List()), ks, r) && image == StoreRenewals(old(image), old(List()), ks, r)
      ensures blocker.State() == ForgetEach(old(blocker.State()), LostInRenewal(old(List()), ks, r))
    {
      assert ks[0..] == ks;
      for j := 0 to |ks|
        invariant Valid() && blocker.replays == old(blocker.replays) && load == old(load)
        invariant RenewEach(List(), ks[j..], r) == RenewEach(old(List()), ks, r)
        invariant StoreRenewals(image, List(), ks[j..], r) == StoreRenewals(old(image), old(List()), ks, r)
        invariant ForgetEach(blocker.State(), LostInRenewal(List(), ks[j..], r))
               == ForgetEach(old(blocker.State()), LostInRenewal(old(List()), ks, r))
      {
        assert ks[j..][1..] == ks[j + 1..];
        ghost var rest := LostInRenewal(RenewKey(List(), ks[j], r.later, Seed(r, ks[j])), ks[j + 1..], r);
        assert ([ks[j]] + rest)[1..] == rest;
        UpdateLeaseTrigger(ks[j], r.later, Seed(r, ks[j]));
      }
      assert ks[|ks|..] == [];
    }

    /** One iteration of updateLeasesThread after its select: scan the due leases, set the
        alarm for the first that is not, then remove and reschedule. */
    method Pass(clock: seq<Time>, later: Time, seeds: map<Key, nat>)
      returns (n: nat, undos: seq<Command>, sent: seq<(ChannelID, Blob)>, alarm: Option<Time>)
      requires Valid() && |clock| == |leases| + 1 && clock[|leases|] <= later
      requires forall i, j :: 0 <= i < j < |clock| ==> clock[i] <= clock[j]
      modifies this, blocker, blocker.store
      ensures Valid() && blocker.replays == old(blocker.replays) && load == old(load)
      ensures n <= |old(leases)|
      ensures forall i :: 0 <= i < n ==> old(List())[i].trigger <= clock[i] - MILLISECOND
      ensures n < |old(leases)| ==> old(List())[n].trigger > clock[n] - MILLISECOND
      ensures var ls, kv, r := old(List()), old(blocker.store.kv), Reading(clock[n], later, seeds);
              && List() == AfterPass(ls, kv, r) && image == StorePass(old(image), ls, kv, r)
              && blocker.State() == ForgetEach(old(blocker.State()), Forgotten(ls, kv, r))
              && undos == Undos(ls, kv, r)
              && sent == Sends(Replayed(ls, kv, r), kv)
              && alarm == (if Kept(ls, r.now) == [] then None else Some(Kept(ls, r.now)[0].trigger))
    {
      ghost var ls, kv := List(), blocker.store.kv;
      ListedKeys(State(), load);
      var toRemove, toUpdate;
      n, toRemove, toUpdate, undos, sent := Scan(clock);
      var r := Reading(clock[n], later, seeds);
      PassSetup(ls, kv, r);
      PassForgets(old(blocker.State()), ls, kv, r);
      alarm := None;
      if n < |leases| {
        var k := leases[n];
        alarm := Some(messagesByChannel[k.channel][k].trigger);
      }
      RemoveAll(toRemove);
      RenewAll(toUpdate, r);
    }

    /** insertLease, with the map entry that load adds beside it. */
    method InsertLease(l: Lease)
      requires InOrder(leases, messagesByChannel) && !Has(messagesByChannel, l.key.channel, l.key)
      modifies this`leases, this`messagesByChannel
      ensures InOrder(leases, messagesByChannel)
      ensures messagesByChannel == Put(old(messagesByChannel), l.key.channel, l.key, l)
    {
      GrowInOrder(leases, messagesByChannel, l);
      var p := FindSortedPosition(l.trigger);
      leases := leases[..p] + [l.key] + leases[p..];
      messagesByChannel := Put(messagesByChannel, l.key.channel, l.key, l);
    }

    /** Inserts the leases of one channel's record, as it is after past triggers were moved. */
    method LoadChannel(c: ChannelID, loaded: map<Key, Lease>)
      requires InOrder(leases, messagesByChannel) && c !in messagesByChannel && loaded != map[]
      requires forall k :: k in loaded ==> k.channel == c && loaded[k].key == k
      modifies this`leases, this`messagesByChannel
      ensures InOrder(leases, messagesByChannel)
      ensures messagesByChannel == old(messagesByChannel)[c := loaded]
    {
      ghost var before := messagesByChannel;
      var left := loaded.Keys;
      while left != {}
        invariant left <= loaded.Keys
        invariant InOrder(leases, messagesByChannel)
        invariant messagesByChannel == PartlyLoaded(before, c, loaded, loaded.Keys - left)
        decreases left
      {
        var k :| k in left;
        PartlyLoadedStep(before, c, loaded, loaded.Keys - left, k);
        InsertLease(loaded[k]);
        assert (loaded.Keys - left) + {k} == loaded.Keys - (left - {k});
        left := left - {k};
      }
      assert loaded.Keys - left == loaded.Keys;
      FullyLoaded(before, c, loaded);
    }

    /** load. */
    method LoadAll(now: Time, seeds: map<Key, nat>) returns (ok: bool)
      requires leases == [] && messagesByChannel == map[] && blocker.Valid()
      requires NoEmptyChannel(image.records) && LeaseIndex.WellKeyed(image.records)
      modifies this
      ensures image == old(image) && load == Loading(now, seeds)
      ensures ok <==> image.channels <= image.records.Keys
      ensures ok ==> InOrder(leases, messagesByChannel) && messagesByChannel == ReloadTable(image, now, seeds)
      ensures ok ==> LoadedFrom(List(), image, now, seeds)
      ensures ok && image.channels == image.records.Keys ==> Valid()
    {
      load := Loading(now, seeds);
      var todo := image.channels;
      while todo != {}
        invariant image == old(image) && load == Loading(now, seeds)
        invariant InOrder(leases, messagesByChannel)
        invariant todo <= image.channels && image.channels - todo <= image.records.Keys
        invariant messagesByChannel == ReloadSome(image, now, seeds, image.channels - todo)
        decreases todo
      {
        SomeChannel(todo);
        var c :| c in todo;
        if c !in image.records {
          return false;
        }
        ReloadOneMore(image, now, seeds, todo, c);
        LoadChannel(c, ReloadRecord(image.records[c], now, seeds));
        todo := todo - {c};
      }
      ok := true;
      assert image.channels - {} == image.channels;
      assert messagesByChannel == ReloadTable(image, now, seeds);
      LoadedInOrder(leases, messagesByChannel, image, now, seeds);
      if image.channels == image.records.Keys {
        ReloadedIsStored(image, messagesByChannel, now, seeds);
      }
    }

    /** A new process over the same storage. */
    method Reopen(now: Time, seeds: map<Key, nat>)
      requires Valid()
      modifies this
      ensures Valid() && image == old(image) && load == Loading(now, seeds)
      ensures LoadedFrom(List(), image, now, seeds)
    {
      StoredShape(State(), load);
      leases, messagesByChannel := [], map[];
      var ok := LoadAll(now, seeds);
    }
  }

  /** What the scan appends for one lease. */
  lemma ScanStep(ls: seq<Lease>, n: nat, kv: map<Key, Command>)
    requires n < |ls|
    ensures var l, k := ls[n], ls[n].key;
            var ends := k !in kv || l.trigger >= l.end;
            && ScanMarked(ls[..n + 1], kv) == ScanMarked(ls[..n], kv) + (if ends then [k] else [])
            && ScanReplayed(ls[..n + 1], kv) == ScanReplayed(ls[..n], kv) + (if ends then [] else [k])
            && ScanUndos(ls[..n + 1], kv)
               == ScanUndos(ls[..n], kv) + (if k in kv && l.trigger >= l.end then [UndoCall(l, kv[k])] else [])
  {
    assert ls[..n + 1][..n] == ls[..n];
  }

  /** What the scan of the due head comes to. */
  lemma PassSetup(ls: seq<Lease>, kv: map<Key, Command>, r: Reading)
    requires Sorted(ls) && DistinctKeys(ls) && r.now <= r.later
    ensures var n := DueCount(ls, r.now);
            && ScanMarked(ls[..n], kv) == Marked(ls, kv, r)
            && ScanReplayed(ls[..n], kv) == Replayed(ls, kv, r)
            && ScanUndos(ls[..n], kv) == Undos(ls, kv, r)
            && Kept(ls, r.now) == ls[n..]
    ensures RenewEach(RemoveEach(ls, Marked(ls, kv, r)), Replayed(ls, kv, r), r) == AfterPass(ls, kv, r)
  {
    KeptIsSuffix(ls, r.now);
    SequentialPassRefinesFilter(ls, kv, r);
    ScanCollects(ls[..DueCount(ls, r.now)], kv, r);
  }

  lemma PassForgets(l: Ledger, ls: seq<Lease>, kv: map<Key, Command>, r: Reading)
    requires Sorted(ls) && DistinctKeys(ls) && r.now <= r.later
    ensures ForgetEach(ForgetListed(l, ls, Marked(ls, kv, r)),
                       LostInRenewal(RemoveEach(ls, Marked(ls, kv, r)), Replayed(ls, kv, r), r))
         == ForgetEach(l, Forgotten(ls, kv, r))
  {
    SequentialPassForgets(ls, kv, r);
    MarkedUnique(ls, kv, r);
    AllListed(l, ls, Marked(ls, kv, r));
    ForgetEachAppend(l, Marked(ls, kv, r), LostInRenewal(RemoveEach(ls, Marked(ls, kv, r)), Replayed(ls, kv, r), r));
  }
}
