/**
 * Ping tags (channels/pingTags.go): a user's public key in hexadecimal, a hyphen and the
 * type of the ping.
 */
module PingTags {
  import opened Wrappers
  import opened Bytes

  type PingType = string
  type Tag = string

  const GENERIC: PingType := ""
  const REPLY: PingType := "usrReply"
  const MENTION: PingType := "usrMention"
  const DELIM := '-'

  /** pingHierarchy; a type it does not list ranks as the generic one. */
  function Rank(p: PingType): nat {
    if p == REPLY then 200 else if p == MENTION then 100 else 0
  }

  /** getRankingPingType; on a tie the later one. */
  function Ranking(a: PingType, b: PingType): PingType {
    if Rank(a) > Rank(b) then a else b
  }

  const DIGITS := "0123456789abcdef"

  /** Base 16 (section 8 of RFC 4648), in lower case. */
  function Hex(s: seq<Byte>): string {
    if s == [] then "" else [DIGITS[s[0] / 16], DIGITS[s[0] % 16]] + Hex(s[1..])
  }

  /** makeUserPingTag. */
  function MakeUserPingTag(user: seq<Byte>, p: PingType): Tag {
    Hex(user) + [DELIM] + p
  }

  /** Where the first delimiter is, or the length when there is none. */
  function FirstDelim(s: string): (i: nat)
    ensures i <= |s|
    ensures i < |s| ==> s[i] == DELIM
    ensures forall j :: 0 <= j < i ==> s[j] != DELIM
  {
    if s == [] || s[0] == DELIM then 0 else 1 + FirstDelim(s[1..])
  }

  /** pingTypeFromTag: all that follows the first delimiter. */
  function PingTypeFromTag(tag: Tag): Option<PingType> {
    var i := FirstDelim(tag);
    if i == |tag| then None else Some(tag[i + 1..])
  }

  lemma DigitFacts(d: nat)
    requires d < 16
    ensures DIGITS[d] != DELIM
    ensures forall e :: 0 <= e < 16 && DIGITS[e] == DIGITS[d] ==> e == d
  {
  }

  lemma {:induction false} HexFacts(s: seq<Byte>)
    ensures |Hex(s)| == 2 * |s|
    ensures forall i :: 0 <= i < |Hex(s)| ==> Hex(s)[i] != DELIM
  {
    if s != [] {
      HexFacts(s[1..]);
      DigitFacts(s[0] / 16);
      DigitFacts(s[0] % 16);
    }
  }

  lemma {:induction false} HexInjective(s: seq<Byte>, t: seq<Byte>)
    requires Hex(s) == Hex(t)
    ensures s == t
  {
    HexFacts(s);
    HexFacts(t);
    if s != [] {
      assert Hex(s)[2..] == Hex(s[1..]) && Hex(t)[2..] == Hex(t[1..]);
      HexInjective(s[1..], t[1..]);
      assert DIGITS[s[0] / 16] == Hex(s)[0] == DIGITS[t[0] / 16];
      assert DIGITS[s[0] % 16] == Hex(s)[1] == DIGITS[t[0] % 16];
      DigitFacts(s[0] / 16);
      DigitFacts(s[0] % 16);
      assert s == [s[0]] + s[1..] && t == [t[0]] + t[1..];
    }
  }

  /** Parsing a tag gives back the type it was made with, because hexadecimal has no hyphen. */
  lemma TagRoundTrip(user: seq<Byte>, p: PingType)
    ensures PingTypeFromTag(MakeUserPingTag(user, p)) == Some(p)
  {
    HexFacts(user);
    var tag, h := MakeUserPingTag(user, p), Hex(user);
    var i := FirstDelim(tag);
    assert tag[|h|] == DELIM;
    assert forall j :: 0 <= j < |h| ==> tag[j] == h[j];
    assert i == |h|;
    assert tag[i + 1..] == p;
  }

  /** A tag stands for one user and one type. */
  lemma TagsAreDistinct(u: seq<Byte>, p: PingType, v: seq<Byte>, q: PingType)
    ensures MakeUserPingTag(u, p) == MakeUserPingTag(v, q) <==> u == v && p == q
  {
    if MakeUserPingTag(u, p) == MakeUserPingTag(v, q) {
      TagRoundTrip(u, p);
      TagRoundTrip(v, q);
      var tag := MakeUserPingTag(u, p);
      assert |Hex(u)| == |tag| - 1 - |p| == |Hex(v)|;
      assert tag[..|Hex(u)|] == Hex(u) && tag[..|Hex(v)|] == Hex(v);
      HexInjective(u, v);
    }
  }

  /** makeUserPingTags: one tag for each user of each type, in whatever order the types come. */
  method MakeUserPingTags(pings: map<PingType, seq<seq<Byte>>>) returns (tags: seq<Tag>)
    ensures forall t :: t in tags <==> exists p, u :: p in pings && u in pings[p] && t == MakeUserPingTag(u, p)
  {
    tags := [];
    var left := pings.Keys;
    while left != {}
      invariant left <= pings.Keys
      invariant forall t :: t in tags <==>
                  exists p, u :: p in pings && p !in left && u in pings[p] && t == MakeUserPingTag(u, p)
      decreases left
    {
      var p :| p in left;
      var users := pings[p];
      var s: seq<Tag> := [];
      for i := 0 to |users|
        invariant |s| == i && forall j :: 0 <= j < i ==> s[j] == MakeUserPingTag(users[j], p)
      {
        s := s + [MakeUserPingTag(users[i], p)];
      }
      forall t ensures t in s <==> exists u :: u in users && t == MakeUserPingTag(u, p) {
        if t in s {
          var j :| 0 <= j < |s| && s[j] == t;
          assert users[j] in users;
        }
        if u :| u in users && t == MakeUserPingTag(u, p) {
          var j :| 0 <= j < |users| && users[j] == u;
          assert s[j] == t;
        }
      }
      tags := tags + s;
      left := left - {p};
    }
  }
}
