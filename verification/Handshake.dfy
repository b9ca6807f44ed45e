/**
 * The authenticated-channel handshake of one party with one partner (auth/request.go,
 * auth/receivedRequest.go, auth/confirm.go, auth/receivedConfirm.go, auth/store), over
 * symbolic keys: what each call into the store does to what the party keeps about that
 * partner, and what the calls of one operation do when nothing comes between them.
 */
module Handshake {
  import opened Wrappers
  import opened Bytes
  import opened TieBreak

  type ID = seq<Byte>

  // ----- Keys -----

  /** A Diffie-Hellman private key: the long-lived one of an identity or a generated one. */
  datatype DhPriv = Historical(owner: ID) | Ephemeral(n: nat)
  datatype DhPub = DhPub(of: DhPriv)

  datatype Variant = SidhA | SidhB
  datatype SidhPriv = SidhPriv(variant: Variant, n: nat)
  datatype SidhPub = SidhPub(of: SidhPriv)

  /** What a private and a public key share; both owners compute the same value. */
  type Secret = set<DhPriv>

  function Shared(mine: DhPriv, theirs: DhPub): Secret {
    {mine, theirs.of}
  }

  /** getCompatibleSIDHVariant: a session needs one key of each variant. */
  function Compatible(v: Variant): Variant {
    match v
    case SidhA => SidhB
    case SidhB => SidhA
  }

  /** The ownership proof two identities share; its fingerprint addresses the confirmation. */
  function ProofOf(a: ID, b: ID): Secret {
    Shared(Historical(a), DhPub(Historical(b)))
  }

  // ----- Messages and stored records -----

  /** A message with the secret that its encrypted part is locked under. */
  datatype Message =
    | RequestMsg(to: ID, dhPub: DhPub, lock: Secret, sender: ID, ownership: Secret, sidhPub: SidhPub)
    | ConfirmMsg(to: ID, fp: Secret, dhPub: DhPub, lock: Secret, ownership: Secret, sidhPub: SidhPub)

  datatype Sent = Sent(partner: ID, partnerHistorical: DhPub, myDh: DhPriv, mySidh: SidhPriv, fp: Secret)
  datatype Received = Received(dhPub: DhPub, ownership: Secret, sidhPub: SidhPub)
  datatype Negotiation = Negotiation(dhPub: DhPub, sidhPub: SidhPub)
  datatype Session = Session(partnerDh: DhPub, myDh: DhPriv, partnerSidh: SidhPub, mySidh: SidhPriv)

  /** All that a party keeps about one partner. listening is the fingerprint registration
      that waits for the confirmation; it outlives the sent request. cleared is a received
      request that is gone from memory but still listed in storage. */
  datatype Link = Link(
    sent: Option<Sent>,
    received: Option<Received>,
    cleared: Option<Received>,
    seen: seq<Negotiation>,
    session: Option<Session>,
    confirmation: Option<Message>,
    listening: Option<Sent>)

  const NoLink := Link(None, None, None, [], None, None, None)

  datatype Status =
    | Refused          // an error is returned and nothing changes
    | Crashed          // the process stops
    | Requested        // a request was stored, or found, and sent
    | Dropped          // the message could not be read
    | Repeated         // a request seen before
    | Bailed           // requests crossed; the other side will confirm
    | AutoConfirmed    // requests crossed; confirmed here
    | Pending          // a request waits for the user
    | Confirmed        // a confirmation was sent
    | Finished         // a confirmation was accepted
    | Discarded        // a request could not be stored, because there is one already
    | Underway         // the operation goes on
    | Waiting          // the operation waits for a lock
    | Idle             // there is no such operation

  datatype Outcome = Outcome(link: Link, message: Option<Message>, status: Status)

  // ----- Requesting -----

  function SentOf(me: ID, them: ID, k: nat): Sent {
    Sent(them, DhPub(Historical(them)), Ephemeral(k), SidhPriv(SidhA, k), ProofOf(me, them))
  }

  function RequestFrom(me: ID, s: Sent): Message {
    RequestMsg(s.partner, DhPub(s.myDh), Shared(s.myDh, s.partnerHistorical), me, ProofOf(me, s.partner),
               SidhPub(s.mySidh))
  }

  /** The request that a party makes with a given key. */
  function RequestOf(me: ID, them: ID, k: nat): Message {
    RequestFrom(me, SentOf(me, them, k))
  }

  /** AddSent and the sending: an outstanding request is sent again with its old keys. The
      message may fail to be built or sent. */
  function AddSent(l: Link, me: ID, them: ID, k: nat, goes: bool): Outcome {
    if l.sent.Some? then
      Outcome(l, if goes then Some(RequestFrom(me, l.sent.value)) else None, Requested)
    else if l.received.Some? then Outcome(l, None, Refused)
    else if l.listening.Some? then Outcome(l, None, Crashed)
    else
      var s := SentOf(me, them, k);
      Outcome(l.(sent := Some(s), listening := Some(s), cleared := None),
              if goes then Some(RequestFrom(me, s)) else None, Requested)
  }

  /** Request: the partner check and AddSent. */
  function Request(l: Link, me: ID, them: ID, k: nat, goes: bool): Outcome {
    if l.session.Some? then Outcome(l, None, Refused) else AddSent(l, me, them, k, goes)
  }

  // ----- Confirming -----

  function ConfirmFrom(me: ID, them: ID, r: Received, k: nat): Message {
    var mySidh := SidhPriv(Compatible(r.sidhPub.of.variant), k);
    ConfirmMsg(them, r.ownership, DhPub(Ephemeral(k)), Shared(Ephemeral(k), r.dhPub),
               Shared(Historical(me), r.dhPub), SidhPub(mySidh))
  }

  function SessionFrom(r: Received, k: nat): Session {
    Session(r.dhPub, Ephemeral(k), r.sidhPub, SidhPriv(Compatible(r.sidhPub.of.variant), k))
  }

  /** AddPartner never overwrites, and its error is only logged. */
  function AddPartner(l: Link, s: Session): Link {
    if l.session.Some? then l else l.(session := Some(s))
  }

  /** The end of HandleReceivedRequest: whatever received request is there goes. */
  function DropReceived(l: Link): Link {
    l.(received := None, cleared := None)
  }

  /** confirm, for a contact with a given public key. */
  function Confirm(l: Link, me: ID, them: ID, contactKey: DhPub, k: nat, healthy: bool): Outcome {
    if !healthy || l.received.None? || l.received.value.dhPub != contactKey then Outcome(l, None, Refused)
    else
      var r := l.received.value;
      var m := ConfirmFrom(me, them, r, k);
      Outcome(DropReceived(AddPartner(l, SessionFrom(r, k)).(confirmation := Some(m))), Some(m), Confirmed)
  }

  // ----- Receiving a request -----

  function ReceivedOf(m: Message): Received
    requires m.RequestMsg?
  {
    Received(m.dhPub, m.ownership, m.sidhPub)
  }

  function NegotiationOf(m: Message): Negotiation
    requires m.RequestMsg?
  {
    Negotiation(m.dhPub, m.sidhPub)
  }

  /** DeleteReceivedRequest, which does not write the list of requests back. */
  function ClearReceived(l: Link): Link {
    if l.received.Some? then l.(received := None, cleared := l.received) else l
  }

  /** HandleSentRequest when its handler agrees. */
  function TakeSent(l: Link): Link {
    l.(sent := None, cleared := None)
  }

  /** AddReceived, when neither request is there. */
  function StoreReceived(l: Link, r: Received): Link {
    l.(received := Some(r), cleared := None)
  }

  /** receivedRequestService.Process for a fingerprint not seen before: the tie-break. */
  function NewRequest(l: Link, me: ID, m: Message, k: nat, healthy: bool): Outcome
    requires m.RequestMsg?
  {
    var l1 := ClearReceived(l.(seen := l.seen + [NegotiationOf(m)]));
    if l1.sent.None? then
      Outcome(StoreReceived(l1, ReceivedOf(m)), None, Pending)
    else if !Smaller(me, m.sender) then
      Outcome(l1, None, Bailed)
    else
      var o := Confirm(StoreReceived(TakeSent(l1), ReceivedOf(m)), me, m.sender, m.dhPub, k, healthy);
      o.(status := AutoConfirmed)
  }

  /** receivedRequestService.Process, for a message without the reset tag. A repeat of the
      latest request resends the stored confirmation while there is no partner. */
  function ReceiveRequest(l: Link, me: ID, m: Message, k: nat, healthy: bool): Outcome
    requires m.RequestMsg?
  {
    if Shared(Historical(me), m.dhPub) != m.lock then Outcome(l, None, Dropped)
    else if NegotiationOf(m) !in l.seen then NewRequest(l, me, m, k, healthy)
    else if l.seen[|l.seen| - 1] == NegotiationOf(m) && l.session.None? then Outcome(l, l.confirmation, Repeated)
    else Outcome(l, None, Repeated)
  }

  // ----- Receiving a confirmation -----

  function FinishedSession(s: Sent, m: Message): Session
    requires m.ConfirmMsg?
  {
    Session(m.dhPub, s.myDh, m.sidhPub, s.mySidh)
  }

  /** Whether a confirmation opens with the keys of a sent request and proves its sender. */
  predicate Accepts(s: Sent, m: Message)
    requires m.ConfirmMsg?
  {
    Shared(s.myDh, m.dhPub) == m.lock && m.ownership == Shared(s.myDh, s.partnerHistorical)
  }

  /** receivedConfirmService.Process. The registration is used up before the message is read. */
  function ReceiveConfirm(l: Link, m: Message): Outcome
    requires m.ConfirmMsg?
  {
    if l.listening.None? || l.listening.value.fp != m.fp then Outcome(l, None, Dropped)
    else
      var s, l1 := l.listening.value, l.(listening := None);
      if !Accepts(s, m) then Outcome(l1, None, Dropped)
      else Outcome(AddPartner(l1, FinishedSession(s, m)), None, Finished)
  }

  /** Loading the store registers the stored sent requests afresh. A cleared request is back
      unless the list of requests was written since. */
  function Restarted(l: Link, listed: bool): Link {
    l.(listening := l.sent,
       received := if listed && l.cleared.Some? then l.cleared else l.received,
       cleared := None)
  }

  // ----- What the operations do, by keys alone -----

  /** Request stores a request exactly when nothing about the partner stands against it. It
      sends one exactly when it may and the sending works: the outstanding one with its old
      keys, or the new one, sealed for the partner with a fresh key. */
  lemma RequestExactly(l: Link, me: ID, them: ID, k: nat, goes: bool)
    ensures var o := Request(l, me, them, k, goes);
            var free := l.session.None? && l.sent.None? && l.received.None? && l.listening.None?;
            && (o.link != l <==> free)
            && (free ==>
                  && o.link.sent.Some? && o.link.sent == o.link.listening
                  && o.link == l.(sent := o.link.sent, listening := o.link.sent, cleared := None)
                  && o.link.sent.value.partner == them && o.link.sent.value.myDh == Ephemeral(k)
                  && o.link.sent.value.mySidh == SidhPriv(SidhA, k))
            && (o.message.Some? <==> goes && (free || (l.session.None? && l.sent.Some?)))
            && (o.message.Some? ==>
                  var s := o.link.sent.value;
                  o.message.value == RequestMsg(s.partner, DhPub(s.myDh), {s.myDh, s.partnerHistorical.of}, me,
                                                {Historical(me), Historical(s.partner)}, SidhPub(s.mySidh)))
  {
  }

  /** Confirm changes the record or sends a message exactly when the network is healthy, a
      received request is there and its public key is the contact's. Then the request is
      used up, the answer is stored and sent, sealed for the request's key with a fresh one,
      and there is a partner: the old one, or one with the keys of the two messages. */
  lemma ConfirmExactly(l: Link, me: ID, them: ID, contactKey: DhPub, k: nat, healthy: bool)
    ensures var o := Confirm(l, me, them, contactKey, k, healthy);
            var may := healthy && l.received.Some? && l.received.value.dhPub == contactKey;
            && (o.link != l || o.message.Some? <==> may)
            && (may ==>
                  var r := l.received.value;
                  var sidh := SidhPriv(if r.sidhPub.of.variant == SidhA then SidhB else SidhA, k);
                  && o.message == Some(ConfirmMsg(them, r.ownership, DhPub(Ephemeral(k)), {Ephemeral(k), r.dhPub.of},
                                                  {Historical(me), r.dhPub.of}, SidhPub(sidh)))
                  && o.link == l.(received := None, cleared := None, confirmation := o.message,
                                  session := if l.session.Some? then l.session
                                             else Some(Session(r.dhPub, Ephemeral(k), r.sidhPub, sidh))))
  {
  }

  /** A request is read exactly when it is sealed for the receiver. One seen before changes
      nothing. A new one is recorded, and takes the place of one that waits; it waits
      itself unless a request of ours is outstanding. Then the larger party keeps its own,
      and the smaller gives it up and answers, as far as the network lets it. */
  lemma ReceiveRequestExactly(l: Link, me: ID, m: Message, k: nat, healthy: bool)
    requires m.RequestMsg?
    ensures var o, n, r := ReceiveRequest(l, me, m, k, healthy), Negotiation(m.dhPub, m.sidhPub),
                           Received(m.dhPub, m.ownership, m.sidhPub);
            var open := m.lock == {Historical(me), m.dhPub.of};
            && (!open || n in l.seen ==> o.link == l)
            && (open && n !in l.seen ==>
                  && o.link.seen == l.seen + [n]
                  && (l.sent.None? ==> o.link == l.(seen := o.link.seen, received := Some(r), cleared := None))
                  && (l.sent.Some? && !Smaller(me, m.sender) ==>
                        o.link.sent == l.sent && o.link.received.None? && o.link.session == l.session)
                  && (l.sent.Some? && Smaller(me, m.sender) ==>
                        && o.link.sent.None? && o.link.listening == l.listening
                        && (healthy <==> o.link.received.None?) && (healthy <==> o.message.Some?)
                        && (healthy ==> o.link.confirmation == o.message && o.link.session.Some?)
                        && (!healthy ==> o.link.received == Some(r) && o.link.session == l.session)))
            && (o.message.Some? <==>
                  || (open && n !in l.seen && l.sent.Some? && Smaller(me, m.sender) && healthy)
                  || (open && n in l.seen && l.seen[|l.seen| - 1] == n && l.session.None? && l.confirmation.Some?))
            && (open && n in l.seen ==> o.message.None? || o.message == l.confirmation)
  {
  }

  /** Any confirmation, of whatever origin, is accepted exactly when the registration of its
      fingerprint is there, it opens with the keys of that request, and it carries the proof
      that only the owners of the request's key and of the partner's historical key can
      make. The registration is used up by any message with its fingerprint; a partner is
      made unless there is one. */
  lemma ReceiveConfirmExactly(l: Link, m: Message)
    requires m.ConfirmMsg?
    ensures var o := ReceiveConfirm(l, m);
            var meant := l.listening.Some? && l.listening.value.fp == m.fp;
            && (!meant ==> o.link == l)
            && (meant ==> o.link == l.(listening := None, session := o.link.session))
            && (o.status == Finished <==>
                  && meant && m.lock == {l.listening.value.myDh, m.dhPub.of}
                  && m.ownership == {l.listening.value.myDh, l.listening.value.partnerHistorical.of})
            && o.link.session == if l.session.Some? || o.status != Finished then l.session
                                 else Some(Session(m.dhPub, l.listening.value.myDh, m.sidhPub,
                                                   l.listening.value.mySidh))
  {
  }

  // ----- What makes two sessions one channel -----

  /** The two sessions hold each other's public keys, of opposite SIDH variants. */
  predicate Paired(s: Session, t: Session) {
    && s.partnerDh == DhPub(t.myDh) && t.partnerDh == DhPub(s.myDh)
    && s.partnerSidh == SidhPub(t.mySidh) && t.partnerSidh == SidhPub(s.mySidh)
    && s.mySidh.variant == Compatible(t.mySidh.variant)
  }

  /** Paired sessions derive the same secrets. */
  lemma PairedShare(s: Session, t: Session)
    requires Paired(s, t)
    ensures Shared(s.myDh, s.partnerDh) == Shared(t.myDh, t.partnerDh)
    ensures {s.mySidh, s.partnerSidh.of} == {t.mySidh, t.partnerSidh.of}
    ensures s.mySidh.variant != t.mySidh.variant
  {
  }

  /** A confirmation that its receiver accepts gives it a session that pairs with the one
      derived from the request it answers. The sender keeps that session exactly when it
      had none: an existing partner is not replaced, yet the confirmation goes out. */
  lemma ConfirmationPairsExactly(l: Link, me: ID, them: ID, asked: nat, k: nat)
    requires l.received == Some(ReceivedOf(RequestFrom(them, SentOf(them, me, asked))))
    ensures var s := SentOf(them, me, asked);
            var o := Confirm(l, me, them, DhPub(s.myDh), k, true);
            && o.message.Some? && o.message.value.ConfirmMsg?
            && var back := ReceiveConfirm(NoLink.(listening := Some(s)), o.message.value);
               && back.status == Finished
               && o.link.session.Some?
               && (l.session.None? ==> Paired(o.link.session.value, back.link.session.value))
               && (l.session.Some? ==>
                     (Paired(o.link.session.value, back.link.session.value)
                      <==> l.session.value == SessionFrom(l.received.value, k)))
  {
    var s := SentOf(them, me, asked);
    var r := l.received.value;
    var o := Confirm(l, me, them, DhPub(s.myDh), k, true);
    assert ProofOf(me, them) == ProofOf(them, me);
    assert Shared(Ephemeral(k), r.dhPub) == Shared(s.myDh, DhPub(Ephemeral(k)));
    var back := ReceiveConfirm(NoLink.(listening := Some(s)), o.message.value);
    assert back.status == Finished;
  }

  /** Deleting the sent or the received request, or as DeleteRequest does both, leaves the
      fingerprint registered. */
  function Deleted(l: Link, mine: bool, theirs: bool): Link {
    if !(mine && l.sent.Some?) && !(theirs && l.received.Some?) then l
    else l.(sent := if mine then None else l.sent, received := if theirs then None else l.received, cleared := None)
  }

  /** What a deletion and a new process leave: nothing but the requests, the list of them and
      the registration changes. The user's deletion leaves the registration; a new process
      has exactly that of its sent request, and a request back that was cleared but listed. */
  lemma DeletionAndRestart(l: Link, mine: bool, theirs: bool, listed: bool)
    ensures var d, r := Deleted(l, mine, theirs), Restarted(l, listed);
            && d == l.(sent := d.sent, received := d.received, cleared := d.cleared)
            && (d.sent == if mine then None else l.sent) && (d.received == if theirs then None else l.received)
            && r == l.(received := r.received, cleared := None, listening := l.sent)
            && (r.received == if listed && l.cleared.Some? then l.cleared else l.received)
  {
  }

  /** A request made after its predecessor was deleted stops the program exactly when the
      old registration is still there. */
  lemma AskingAfterDeletion(l: Link, me: ID, them: ID, k: nat, goes: bool)
    requires l.session.None?
    ensures Request(Deleted(l, true, true), me, them, k, goes).status == Crashed <==> l.listening.Some?
    ensures l.sent.Some? || l.received.Some? ==>
              Request(Restarted(Deleted(l, true, true), true), me, them, k, goes).link == SentLink(l, me, them, k)
  {
  }

  function SentLink(l: Link, me: ID, them: ID, k: nat): Link {
    var s := SentOf(me, them, k);
    l.(sent := Some(s), received := None, cleared := None, listening := Some(s))
  }

  /** Deleting an answered request, restarting and asking again leaves both parties with
      sessions that do not pair, because the second answer cannot replace the partner. */
  lemma DeletionBreaksPairing(x: ID, y: ID, k1: nat, k2: nat, b1: nat, b2: nat)
    requires x != y && k1 != k2
    ensures var x1 := Request(NoLink, x, y, k1, true);
            var y1 := ReceiveRequest(NoLink, y, x1.message.value, b1, true);
            var y2 := Confirm(y1.link, y, x, DhPub(Ephemeral(k1)), b1, true);
            var x2 := Request(Restarted(Deleted(x1.link, true, true), true), x, y, k2, true);
            var y3 := ReceiveRequest(y2.link, y, x2.message.value, b2, true);
            var y4 := Confirm(y3.link, y, x, DhPub(Ephemeral(k2)), b2, true);
            var x3 := ReceiveConfirm(x2.link, y4.message.value);
            && y2.status == Confirmed && y4.status == Confirmed && x3.status == Finished
            && x3.link.session.Some? && y4.link.session.Some?
            && !Paired(x3.link.session.value, y4.link.session.value)
  {
    var x1 := Request(NoLink, x, y, k1, true);
    var m1 := RequestFrom(x, SentOf(x, y, k1));
    assert x1.message == Some(m1);
    assert Shared(Historical(y), m1.dhPub) == m1.lock;
    var y1 := ReceiveRequest(NoLink, y, m1, b1, true);
    assert y1.link == NoLink.(seen := [NegotiationOf(m1)], received := Some(ReceivedOf(m1)));
    var y2 := Confirm(y1.link, y, x, DhPub(Ephemeral(k1)), b1, true);
    var m2 := RequestFrom(x, SentOf(x, y, k2));
    var x2 := Request(Restarted(Deleted(x1.link, true, true), true), x, y, k2, true);
    assert x2.message == Some(m2);
    assert Shared(Historical(y), m2.dhPub) == m2.lock;
    assert NegotiationOf(m2) != NegotiationOf(m1);
    assert NegotiationOf(m2) !in y2.link.seen;
    var y3 := ReceiveRequest(y2.link, y, m2, b2, true);
    assert y3.link.received == Some(ReceivedOf(m2)) && y3.link.session == y2.link.session;
    var y4 := Confirm(y3.link, y, x, DhPub(Ephemeral(k2)), b2, true);
    var c := ConfirmFrom(y, x, ReceivedOf(m2), b2);
    assert y4.message == Some(c);
    var s := SentOf(x, y, k2);
    assert c.fp == s.fp && Shared(s.myDh, c.dhPub) == c.lock && c.ownership == Shared(s.myDh, s.partnerHistorical);
  }
}
