/**
 * The tie-break between two parties whose requests crossed (auth/receivedRequest.go).
 */
module TieBreak {
  import opened Bytes

  /** What the documentation promises: the smaller identifier, read as a long unsigned integer. */
  predicate Smaller(me: seq<Byte>, partner: seq<Byte>) {
    BigEndian(me) < BigEndian(partner)
  }

  /** Distinct byte strings of one length differ somewhere. */
  lemma Difference(a: seq<Byte>, b: seq<Byte>) returns (d: nat)
    requires |a| == |b| && a != b
    ensures d < |a| && a[d] != b[d]
  {
    d :| 0 <= d < |a| && a[d] != b[d];
  }

  /** iShouldResend; equal identifiers would make the scan run off the end. */
  method IShouldResend(partner: seq<Byte>, me: seq<Byte>) returns (mine: bool)
    requires |partner| == |me| && partner != me
    ensures mine <==> Smaller(me, partner)
  {
    ghost var d := Difference(me, partner);
    var i := 0;
    while me[i] == partner[i] && i < |me|
      invariant i <= d && me[..i] == partner[..i]
    {
      i := i + 1;
    }
    mine := me[i] < partner[i];
    if mine {
      FirstDifferenceDecides(me, partner, i);
    } else {
      FirstDifferenceDecides(partner, me, i);
    }
  }

  /** Of two distinct parties exactly one is selected. */
  lemma ExactlyOneResends(a: seq<Byte>, b: seq<Byte>)
    requires |a| == |b| && a != b
    ensures Smaller(a, b) <==> !Smaller(b, a)
  {
    if BigEndian(a) == BigEndian(b) {
      BigEndianInjective(a, b);
    }
  }
}
