/**
 * The bytes behind a command fingerprint (channels/commandStore.go). Everywhere else a
 * fingerprint is the triple of its parts; this is why that is enough.
 */
module Fingerprint {
  import opened Bytes

  const CHANNEL_ID_LEN: nat := 33

  /** The string that is hashed: channel ID, two bytes of action, payload. */
  function HashInput(channel: seq<Byte>, action: nat, payload: seq<Byte>): seq<Byte>
    requires action < 0x1_0000
  {
    channel + [action % 256, action / 256] + payload
  }

  /** The two parts before the payload have fixed length, so nothing can slide between
      them: the string determines channel, action and payload. */
  lemma HashInputInjective(c1: seq<Byte>, a1: nat, p1: seq<Byte>, c2: seq<Byte>, a2: nat, p2: seq<Byte>)
    requires |c1| == |c2| == CHANNEL_ID_LEN && a1 < 0x1_0000 && a2 < 0x1_0000
    ensures HashInput(c1, a1, p1) == HashInput(c2, a2, p2) <==> c1 == c2 && a1 == a2 && p1 == p2
  {
    var s1, s2 := HashInput(c1, a1, p1), HashInput(c2, a2, p2);
    var n := CHANNEL_ID_LEN;
    if s1 == s2 {
      assert c1 == s1[..n] == s2[..n] == c2;
      assert [a1 % 256, a1 / 256] == s1[n..n + 2] == s2[n..n + 2] == [a2 % 256, a2 / 256];
      assert p1 == s1[n + 2..] == s2[n + 2..] == p2;
    }
  }
}
