/**
 * Matching a notification against a filter (channels/notifications.go). The order of a
 * filter's tags comes from iterating a Go map.
 */
module Notifications {
  import opened Wrappers
  import opened Bytes
  import opened PingTags

  type MessageType = nat

  datatype AllowLists = AllowLists(withTags: set<MessageType>, withoutTags: set<MessageType>)

  datatype Report = Report(matched: bool, ping: PingType)

  /** The ping type that matching takes from a tag: one it cannot parse counts as generic. */
  function TypeOf(tag: Tag): PingType {
    var p := PingTypeFromTag(tag);
    if p.Some? then p.value else GENERIC
  }

  /** The types of the tags that matched, in filter order. */
  function MatchedTypes(tags: seq<Tag>, hits: set<Tag>): seq<PingType> {
    if tags == [] then []
    else if tags[|tags| - 1] in hits then MatchedTypes(tags[..|tags| - 1], hits) + [TypeOf(tags[|tags| - 1])]
    else MatchedTypes(tags[..|tags| - 1], hits)
  }

  /** The type that running through the matched types leaves. */
  function LastRanking(types: seq<PingType>): PingType {
    if types == [] then GENERIC else Ranking(LastRanking(types[..|types| - 1]), types[|types| - 1])
  }

  function Verdict(types: seq<PingType>, allow: AllowLists, mt: MessageType): Report {
    if types != [] && mt !in allow.withTags then Report(false, "")
    else if LastRanking(types) != GENERIC then Report(true, LastRanking(types))
    else if mt in allow.withoutTags then Report(true, GENERIC)
    else Report(false, "")
  }

  /** match. */
  method Match(tags: seq<Tag>, allow: AllowLists, hits: set<Tag>, mt: MessageType) returns (r: Report)
    ensures r == Verdict(MatchedTypes(tags, hits), allow, mt)
  {
    var pt := GENERIC;
    var i := 0;
    while i < |tags|
      invariant i <= |tags|
      invariant pt == LastRanking(MatchedTypes(tags[..i], hits))
      invariant MatchedTypes(tags[..i], hits) != [] ==> mt in allow.withTags
    {
      assert tags[..i + 1][..i] == tags[..i];
      var tag := tags[i];
      if tag in hits {
        if mt in allow.withTags {
          var current := PingTypeFromTag(tag);
          pt := Ranking(pt, if current.Some? then current.value else "");
        } else {
          HitsOnlyGrow(tags, i + 1, hits);
          return Report(false, "");
        }
      }
      i := i + 1;
    }
    assert tags[..i] == tags;
    if pt != GENERIC {
      return Report(true, pt);
    }
    if mt in allow.withoutTags {
      return Report(true, pt);
    }
    return Report(false, "");
  }

  lemma {:induction false} HitsOnlyGrow(tags: seq<Tag>, i: nat, hits: set<Tag>)
    requires i <= |tags| && MatchedTypes(tags[..i], hits) != []
    ensures MatchedTypes(tags, hits) != []
  {
    if i < |tags| {
      assert tags[..|tags| - 1][..i] == tags[..i];
      HitsOnlyGrow(tags[..|tags| - 1], i, hits);
    } else {
      assert tags[..i] == tags;
    }
  }

  // ----- Order -----

  /** The types of the matched tags, without order. */
  ghost predicate Hit(tags: seq<Tag>, hits: set<Tag>, p: PingType) {
    exists tag :: tag in tags && tag in hits && TypeOf(tag) == p
  }

  lemma {:induction false} HitExactly(tags: seq<Tag>, hits: set<Tag>, p: PingType)
    ensures p in MatchedTypes(tags, hits) <==> Hit(tags, hits, p)
  {
    if tags != [] {
      var n := |tags| - 1;
      HitExactly(tags[..n], hits, p);
      assert tags == tags[..n] + [tags[n]];
      if Hit(tags, hits, p) {
        var tag :| tag in tags && tag in hits && TypeOf(tag) == p;
        assert tag in tags[..n] || tag == tags[n];
      }
    }
  }

  /** The type left is one of those seen, and none of them ranks above it. */
  lemma {:induction false} LastRankingIsHighest(types: seq<PingType>)
    ensures types == [] ==> LastRanking(types) == GENERIC
    ensures types != [] ==> LastRanking(types) in types
    ensures forall p :: p in types ==> Rank(p) <= Rank(LastRanking(types))
    ensures types != [] && Rank(LastRanking(types)) == 0 ==> LastRanking(types) == types[|types| - 1]
  {
    if types != [] {
      var n := |types| - 1;
      LastRankingIsHighest(types[..n]);
      assert types == types[..n] + [types[n]];
    }
  }

  ghost predicate Reordering(a: seq<Tag>, b: seq<Tag>) {
    multiset(a) == multiset(b)
  }

  /** Every order of the tags gives the same report. */
  ghost predicate OrderFree(tags: seq<Tag>, allow: AllowLists, hits: set<Tag>, mt: MessageType) {
    forall other :: Reordering(tags, other) ==>
      Verdict(MatchedTypes(other, hits), allow, mt) == Verdict(MatchedTypes(tags, hits), allow, mt)
  }

  /** What makes it so: tagged messages of the type are refused, or some matched tag has a
      ranked type, or all matched tags have one type. */
  ghost predicate Unambiguous(tags: seq<Tag>, allow: AllowLists, hits: set<Tag>, mt: MessageType) {
    || mt !in allow.withTags
    || Hit(tags, hits, REPLY) || Hit(tags, hits, MENTION)
    || (forall a, b :: a in tags && b in tags && a in hits && b in hits ==> TypeOf(a) == TypeOf(b))
  }

  lemma SameHits(tags: seq<Tag>, other: seq<Tag>, hits: set<Tag>, p: PingType)
    requires Reordering(tags, other)
    ensures p in MatchedTypes(tags, hits) <==> p in MatchedTypes(other, hits)
  {
    forall t ensures t in tags <==> t in other {
      assert t in multiset(tags) <==> t in multiset(other);
    }
    HitExactly(tags, hits, p);
    HitExactly(other, hits, p);
  }

  lemma SameVerdict(tags: seq<Tag>, other: seq<Tag>, allow: AllowLists, hits: set<Tag>, mt: MessageType)
    requires Reordering(tags, other) && Unambiguous(tags, allow, hits, mt)
    ensures Verdict(MatchedTypes(other, hits), allow, mt) == Verdict(MatchedTypes(tags, hits), allow, mt)
  {
    var s, t := MatchedTypes(tags, hits), MatchedTypes(other, hits);
    forall p ensures p in s <==> p in t {
      SameHits(tags, other, hits, p);
    }
    assert s == [] <==> t == [] by {
      if s != [] {
        assert s[0] in t;
      }
      if t != [] {
        assert t[0] in s;
      }
    }
    LastRankingIsHighest(s);
    LastRankingIsHighest(t);
    HitExactly(tags, hits, REPLY);
    HitExactly(tags, hits, MENTION);
    if s != [] && mt in allow.withTags && !Hit(tags, hits, REPLY) && !Hit(tags, hits, MENTION) {
      HitExactly(tags, hits, LastRanking(s));
      HitExactly(tags, hits, LastRanking(t));
      assert LastRanking(s) == LastRanking(t);
    }
  }

  /** A tag moved to the end. */
  lemma MovedLast(tags: seq<Tag>, tag: Tag) returns (other: seq<Tag>)
    requires tag in tags
    ensures Reordering(tags, other) && other != [] && other[|other| - 1] == tag
  {
    var i :| 0 <= i < |tags| && tags[i] == tag;
    other := tags[..i] + tags[i + 1..] + [tag];
    assert tags == tags[..i] + [tag] + tags[i + 1..];
  }

  /** With no ranked type among the matched, a matched tag at the end decides. */
  lemma LastDecides(tags: seq<Tag>, allow: AllowLists, hits: set<Tag>, mt: MessageType, tag: Tag)
    returns (other: seq<Tag>)
    requires tag in tags && tag in hits && mt in allow.withTags
    requires !Hit(tags, hits, REPLY) && !Hit(tags, hits, MENTION)
    ensures Reordering(tags, other)
    ensures Verdict(MatchedTypes(other, hits), allow, mt).ping == TypeOf(tag)
    ensures TypeOf(tag) != GENERIC ==> Verdict(MatchedTypes(other, hits), allow, mt).matched
  {
    other := MovedLast(tags, tag);
    var types := MatchedTypes(other, hits);
    HitExactly(tags, hits, REPLY);
    HitExactly(tags, hits, MENTION);
    SameHits(tags, other, hits, REPLY);
    SameHits(tags, other, hits, MENTION);
    LastRankingIsHighest(types);
    assert types[|types| - 1] == TypeOf(tag);
    assert Rank(LastRanking(types)) == 0;
  }

  /** The report is independent of the order of the tags exactly when it is unambiguous. */
  lemma OrderFreeExactly(tags: seq<Tag>, allow: AllowLists, hits: set<Tag>, mt: MessageType)
    ensures OrderFree(tags, allow, hits, mt) <==> Unambiguous(tags, allow, hits, mt)
  {
    if Unambiguous(tags, allow, hits, mt) {
      forall other | Reordering(tags, other)
        ensures Verdict(MatchedTypes(other, hits), allow, mt) == Verdict(MatchedTypes(tags, hits), allow, mt)
      {
        SameVerdict(tags, other, allow, hits, mt);
      }
    } else {
      var a, b :| a in tags && b in tags && a in hits && b in hits && TypeOf(a) != TypeOf(b);
      var s := LastDecides(tags, allow, hits, mt, a);
      var t := LastDecides(tags, allow, hits, mt, b);
      assert Reordering(tags, s) && Reordering(tags, t);
    }
  }

  /** What is reported for any filter. Without a matched tag the untagged types decide. With
      one the tagged types decide, and a message of an allowed type is reported under a
      ranked ping if one matched, the reply before the mention; under the last matched type
      if that is not the generic one; and otherwise as an untagged one. */
  lemma VerdictExactly(tags: seq<Tag>, allow: AllowLists, hits: set<Tag>, mt: MessageType)
    ensures var types, r := MatchedTypes(tags, hits), Verdict(MatchedTypes(tags, hits), allow, mt);
            && (types == [] <==> forall t :: t in tags ==> t !in hits)
            && (types == [] ==> r == if mt in allow.withoutTags then Report(true, GENERIC) else Report(false, ""))
            && (types != [] && mt !in allow.withTags ==> r == Report(false, ""))
            && (types != [] && mt in allow.withTags ==>
                  if Hit(tags, hits, REPLY) then r == Report(true, REPLY)
                  else if Hit(tags, hits, MENTION) then r == Report(true, MENTION)
                  else if types[|types| - 1] != GENERIC then r == Report(true, types[|types| - 1])
                  else r == if mt in allow.withoutTags then Report(true, GENERIC) else Report(false, ""))
  {
    var types := MatchedTypes(tags, hits);
    LastRankingIsHighest(types);
    HitExactly(tags, hits, REPLY);
    HitExactly(tags, hits, MENTION);
    if t :| t in tags && t in hits {
      HitExactly(tags, hits, TypeOf(t));
      assert Hit(tags, hits, TypeOf(t));
    }
    if types != [] {
      HitExactly(tags, hits, types[0]);
    }
  }

  /** The filters that the client registers hold tags made from reply and mention pings. */
  ghost predicate FromPings(tags: seq<Tag>) {
    forall t :: t in tags ==> exists u: seq<Byte> :: t == MakeUserPingTag(u, REPLY) || t == MakeUserPingTag(u, MENTION)
  }

  lemma PingTagType(t: Tag, u: seq<Byte>)
    requires t == MakeUserPingTag(u, REPLY) || t == MakeUserPingTag(u, MENTION)
    ensures TypeOf(t) in {REPLY, MENTION}
  {
    TagRoundTrip(u, REPLY);
    TagRoundTrip(u, MENTION);
  }

  /** For such filters the report does not depend on the order, and names the highest
      ranking ping among the matched tags. */
  lemma PingFiltersReportHighest(tags: seq<Tag>, allow: AllowLists, hits: set<Tag>, mt: MessageType)
    requires FromPings(tags)
    ensures OrderFree(tags, allow, hits, mt)
    ensures var r := Verdict(MatchedTypes(tags, hits), allow, mt);
            var tagged := exists t :: t in tags && t in hits;
            && (r.matched <==> if tagged then mt in allow.withTags else mt in allow.withoutTags)
            && (r.matched && !tagged ==> r.ping == GENERIC)
            && (r.matched && tagged ==> r.ping == if Hit(tags, hits, REPLY) then REPLY else MENTION)
            && (!r.matched ==> r.ping == "")
  {
    forall t | t in tags ensures TypeOf(t) in {REPLY, MENTION} {
      var u: seq<Byte> :| t == MakeUserPingTag(u, REPLY) || t == MakeUserPingTag(u, MENTION);
      PingTagType(t, u);
    }
    var types := MatchedTypes(tags, hits);
    LastRankingIsHighest(types);
    HitExactly(tags, hits, REPLY);
    HitExactly(tags, hits, MENTION);
    HitExactly(tags, hits, LastRanking(types));
    if t :| t in tags && t in hits {
      HitExactly(tags, hits, TypeOf(t));
      assert Hit(tags, hits, TypeOf(t));
    }
    OrderFreeExactly(tags, allow, hits, mt);
    if types == [] {
      forall a | a in tags && a in hits ensures false {
        HitExactly(tags, hits, TypeOf(a));
      }
    }
  }

  /** Two matched tags of unranked types: the report depends on which comes last. */
  lemma OrderCanMatter(user: seq<Byte>, mt: MessageType)
    ensures var tags := [MakeUserPingTag(user, "a"), MakeUserPingTag(user, "b")];
            !OrderFree(tags, AllowLists({mt}, {}), {tags[0], tags[1]}, mt)
  {
    var a, b := MakeUserPingTag(user, "a"), MakeUserPingTag(user, "b");
    var tags := [a, b];
    var hits := {a, b};
    TagRoundTrip(user, "a");
    TagRoundTrip(user, "b");
    assert a in tags && b in tags && a in hits && b in hits && TypeOf(a) != TypeOf(b);
    assert !Hit(tags, hits, REPLY) && !Hit(tags, hits, MENTION);
    OrderFreeExactly(tags, AllowLists({mt}, {}), hits, mt);
  }
}
