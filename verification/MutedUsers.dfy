/**
 * The muted users of each channel (channels/mutedUsers.go).
 */
module MutedUsers {
  import opened Wrappers
  import opened ChannelTypes
  import opened ChannelStorage

  type MutedTable = Table<PubKey, ()>

  predicate IsMuted(t: MutedTable, c: ChannelID, u: PubKey) {
    Has(t, c, u)
  }

  class MutedUserManager {
    var list: MutedTable
    var image: Image<PubKey, ()>

    ghost function State(): Persisted<PubKey, ()>
      reads this
    {
      Persisted(list, image)
    }

    ghost predicate Valid()
      reads this
    {
      Mirrors(image, list)
    }

    constructor ()
      ensures Valid() && list == map[]
    {
      list, image := map[], Image({}, map[]);
    }

    method MuteUser(c: ChannelID, u: PubKey)
      requires Valid()
      modifies this
      ensures Valid()
      ensures State() == PutSaved(old(State()), c, u, ())
    {
      ghost var before := State();
      var channelIdUpdate := false;
      if c !in list {
        list := list[c := map[]];
        channelIdUpdate := true;
      }
      list := list[c := list[c][u := ()]];
      assert list == Put(before.table, c, u, ());
      image := UpdateStorage(image, list, c, channelIdUpdate);
      OperationsStaySynced(before, c, u, ());
    }

    /** unmuteUser writes the channel back even when the user was not muted. */
    method UnmuteUser(c: ChannelID, u: PubKey)
      requires Valid()
      modifies this
      ensures Valid()
      ensures State() == RemoveSaved(old(State()), c, u)
    {
      if c !in list {
        return;
      }
      ghost var before := State();
      var mutedUsers := list[c] - {u};
      list := list[c := mutedUsers];
      var channelIdUpdate := false;
      if |mutedUsers| == 0 {
        list := list - {c};
        channelIdUpdate := true;
      }
      image := UpdateStorage(image, list, c, channelIdUpdate);
      if u in before.table[c] {
        assert list == Remove(before.table, c, u);
        OperationsStaySynced(before, c, u, ());
      } else {
        assert mutedUsers == before.table[c];
        assert list == before.table && image == before.image;
      }
    }

    method IsMutedIn(c: ChannelID, u: PubKey) returns (muted: bool)
      ensures muted <==> IsMuted(list, c, u)
    {
      if c !in list {
        return false;
      }
      muted := u in list[c];
    }

    method RemoveChannel(c: ChannelID)
      requires Valid()
      modifies this
      ensures Valid()
      ensures State() == DropChannel(old(State()), c)
    {
      if c !in list {
        return;
      }
      ghost var before := State();
      list := list - {c};
      image := StoreChannels(image, list);
      image := StoreRecord(image, list, c);
    }

    method LoadAll() returns (ok: bool)
      modifies this`list
      ensures ok <==> Load(image).Some?
      ensures ok ==> list == Load(image).value
    {
      ok, list := LoadTable(image);
    }

    /** A new process over the same storage. */
    method Reopen()
      requires Valid()
      modifies this`list
      ensures Valid() && State() == old(State())
    {
      LoadRebuilds(State());
      var ok := LoadAll();
    }
  }
}
