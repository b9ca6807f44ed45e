/**
 * One party of the authenticated-channel handshake: the auth state with its request store
 * (auth/store), its partners and its fingerprint registrations. There is a method for each
 * call that HandshakeSteps takes as one step, and methods that make the calls of a whole
 * operation one after the other. Every method does to the record of one partner what the
 * Handshake functions say; about any other it at most writes the list of requests back.
 */
module AuthState {
  import opened Wrappers
  import opened TieBreak
  import opened Handshake

  function Lookup<K, V>(m: map<K, V>, k: K): Option<V> {
    if k in m then Some(m[k]) else None
  }

  ghost predicate Distinct(s: seq<Negotiation>) {
    forall i, j :: 0 <= i < j < |s| ==> s[i] != s[j]
  }

  /** The record of a partner that a call is not about: writing the list of requests covers
      all of them. */
  ghost predicate Spared(l: Link, l': Link) {
    l' == l || l' == l.(cleared := None)
  }

  /** Registrations of different partners do not collide. */
  lemma ProofsDiffer(me: ID, p: ID, q: ID)
    requires p != q
    ensures ProofOf(me, p) != ProofOf(me, q)
  {
    assert Historical(if p == me then q else p) in (if p == me then ProofOf(me, q) else ProofOf(me, p));
  }

  class AuthState {
    const me: ID
    var sentByID: map<ID, Sent>
    var receivedByID: map<ID, Received>
    var listed: map<ID, Received>
    var negotiations: map<ID, seq<Negotiation>>
    var partners: map<ID, Session>
    var confirmations: map<ID, Message>
    var fingerprints: map<Secret, Sent>

    /** listed holds the received requests in the stored list, which may be more than those
        in memory. */
    ghost predicate Valid()
      reads this
    {
      && (forall p :: p in sentByID ==> sentByID[p].partner == p && sentByID[p].fp == ProofOf(me, p))
      && (forall p :: p in receivedByID ==> p in listed && listed[p] == receivedByID[p])
      && (forall f :: f in fingerprints ==> fingerprints[f].fp == f == ProofOf(me, fingerprints[f].partner))
      && (forall p :: p in negotiations ==> Distinct(negotiations[p]))
    }

    /** What is kept about one partner. */
    ghost function LinkTo(p: ID): Link
      reads this
    {
      Link(Lookup(sentByID, p), Lookup(receivedByID, p), if p in receivedByID then None else Lookup(listed, p),
           if p in negotiations then negotiations[p] else [],
           Lookup(partners, p), Lookup(confirmations, p), Lookup(fingerprints, ProofOf(me, p)))
    }

    constructor (me: ID)
      ensures Valid() && this.me == me && forall p :: LinkTo(p) == NoLink
    {
      this.me := me;
      sentByID, receivedByID, listed, negotiations := map[], map[], map[], map[];
      partners, confirmations, fingerprints := map[], map[], map[];
    }

    // ----- The calls -----

    /** CheckIfNegotiationIsNew: records a fingerprint not seen before, otherwise tells how
        many came after it. */
    method CheckIfNegotiationIsNew(p: ID, n: Negotiation) returns (isNew: bool, position: nat)
      requires Valid()
      modifies this`negotiations
      ensures Valid()
      ensures var seen := old(LinkTo(p)).seen;
              && (isNew <==> n !in seen)
              && LinkTo(p) == old(LinkTo(p)).(seen := if isNew then seen + [n] else seen)
              && (!isNew ==> (position == 0 <==> seen[|seen| - 1] == n))
      ensures forall q :: q != p ==> LinkTo(q) == old(LinkTo(q))
    {
      var earlier := if p in negotiations then negotiations[p] else [];
      var i := 0;
      while i < |earlier|
        invariant i <= |earlier| && n !in earlier[..i]
      {
        if earlier[i] == n {
          return false, |earlier| - 1 - i;
        }
        i := i + 1;
      }
      negotiations := negotiations[p := earlier + [n]];
      return true, 0;
    }

    /** AddSent without the reset flag, and the registration that comes with it. */
    method AddSent(sr: Sent) returns (found: Option<Sent>, status: Status)
      requires Valid() && sr.fp == ProofOf(me, sr.partner)
      modifies this`sentByID, this`fingerprints, this`listed
      ensures Valid()
      ensures var l := old(LinkTo(sr.partner));
              if l.sent.Some? then found == l.sent && status == Requested && LinkTo(sr.partner) == l
              else if l.received.Some? then found == None && status == Refused && LinkTo(sr.partner) == l
              else if l.listening.Some? then found == None && status == Crashed && LinkTo(sr.partner) == l
              else found == Some(sr) && status == Requested
                   && LinkTo(sr.partner) == l.(sent := Some(sr), listening := Some(sr), cleared := None)
      ensures forall q :: q != sr.partner ==> Spared(old(LinkTo(q)), LinkTo(q))
    {
      var p := sr.partner;
      if p in sentByID {
        return Some(sentByID[p]), Requested;
      }
      if p in receivedByID {
        return None, Refused;
      }
      if sr.fp in fingerprints {
        return None, Crashed;
      }
      forall q | q != p ensures ProofOf(me, q) != sr.fp {
        ProofsDiffer(me, p, q);
      }
      sentByID := sentByID[p := sr];
      fingerprints := fingerprints[sr.fp := sr];
      listed := receivedByID;
      return Some(sr), Requested;
    }

    /** DeleteReceivedRequest, which does not write the list back. */
    method DeleteReceivedRequest(p: ID)
      requires Valid()
      modifies this`receivedByID
      ensures Valid() && LinkTo(p) == ClearReceived(old(LinkTo(p)))
      ensures forall q :: q != p ==> LinkTo(q) == old(LinkTo(q))
    {
      receivedByID := receivedByID - {p};
    }

    /** HandleSentRequest with the tie-break handler: the sent request goes unless we bail. */
    method ResolveSent(p: ID) returns (bail: bool, autoConfirm: bool)
      requires Valid() && |p| == |me| && p != me
      modifies this`sentByID, this`listed
      ensures Valid()
      ensures bail <==> old(LinkTo(p)).sent.Some? && !Smaller(me, p)
      ensures autoConfirm <==> old(LinkTo(p)).sent.Some? && Smaller(me, p)
      ensures LinkTo(p) == if autoConfirm then TakeSent(old(LinkTo(p))) else old(LinkTo(p))
      ensures forall q :: q != p ==> Spared(old(LinkTo(q)), LinkTo(q))
    {
      if p !in sentByID {
        return false, false;
      }
      var mine := IShouldResend(p, me);
      if !mine {
        return true, false;
      }
      sentByID := sentByID - {p};
      listed := receivedByID;
      return false, true;
    }

    /** AddReceived. */
    method AddReceived(p: ID, r: Received) returns (ok: bool)
      requires Valid()
      modifies this`receivedByID, this`listed
      ensures Valid()
      ensures ok <==> old(LinkTo(p)).received.None? && old(LinkTo(p)).sent.None?
      ensures LinkTo(p) == if ok then StoreReceived(old(LinkTo(p)), r) else old(LinkTo(p))
      ensures forall q :: q != p ==> Spared(old(LinkTo(q)), LinkTo(q))
    {
      ok := p !in receivedByID && p !in sentByID;
      if ok {
        receivedByID := receivedByID[p := r];
        listed := receivedByID;
      }
    }

    /** AddPartner of the end-to-end handler, which keeps an existing partner. */
    method MakePartner(p: ID, s: Session)
      requires Valid()
      modifies this`partners
      ensures Valid() && LinkTo(p) == AddPartner(old(LinkTo(p)), s)
      ensures forall q :: q != p ==> LinkTo(q) == old(LinkTo(q))
    {
      if p !in partners {
        partners := partners[p := s];
      }
    }

    /** StoreConfirmation. */
    method StoreConfirmation(p: ID, m: Message)
      requires Valid()
      modifies this`confirmations
      ensures Valid() && LinkTo(p) == old(LinkTo(p)).(confirmation := Some(m))
      ensures forall q :: q != p ==> LinkTo(q) == old(LinkTo(q))
    {
      confirmations := confirmations[p := m];
    }

    /** The end of HandleReceivedRequest. */
    method ReleaseReceived(p: ID)
      requires Valid()
      modifies this`receivedByID, this`listed
      ensures Valid() && LinkTo(p) == DropReceived(old(LinkTo(p)))
      ensures forall q :: q != p ==> Spared(old(LinkTo(q)), LinkTo(q))
    {
      receivedByID := receivedByID - {p};
      listed := receivedByID;
    }

    /** The network takes a registration out before it starts the processor. */
    method PopRegistration(fp: Secret) returns (found: Option<Sent>)
      requires Valid()
      modifies this`fingerprints
      ensures Valid()
      ensures found.Some? ==> fp == ProofOf(me, found.value.partner)
      ensures forall p :: fp == ProofOf(me, p) ==>
                found == old(LinkTo(p)).listening && LinkTo(p) == old(LinkTo(p)).(listening := None)
      ensures forall p :: fp != ProofOf(me, p) ==> LinkTo(p) == old(LinkTo(p))
    {
      found := Lookup(fingerprints, fp);
      fingerprints := fingerprints - {fp};
    }

    /** DeleteRequest. */
    method DeleteRequest(p: ID) returns (ok: bool)
      requires Valid()
      modifies this`sentByID, this`receivedByID, this`listed
      ensures Valid() && LinkTo(p) == Deleted(old(LinkTo(p)), true, true)
      ensures ok <==> old(LinkTo(p)).sent.Some? || old(LinkTo(p)).received.Some?
      ensures forall q :: q != p ==> Spared(old(LinkTo(q)), LinkTo(q))
    {
      ok := p in sentByID || p in receivedByID;
      if ok {
        receivedByID := receivedByID - {p};
        sentByID := sentByID - {p};
        listed := receivedByID;
      }
    }

    /** NewOrLoadStore: the listed requests are back, and every stored sent request is
        registered again. */
    method Reload()
      requires Valid()
      modifies this`fingerprints, this`receivedByID
      ensures Valid()
      ensures forall p :: LinkTo(p) == Restarted(old(LinkTo(p)), true)
    {
      receivedByID := listed;
      fingerprints := map[];
      var left := sentByID.Keys;
      while left != {}
        invariant Valid() && left <= sentByID.Keys && receivedByID == listed
        invariant forall p :: Lookup(fingerprints, ProofOf(me, p)) == if p in left then None else Lookup(sentByID, p)
        decreases left
      {
        var p :| p in left;
        forall q | q != p ensures ProofOf(me, q) != ProofOf(me, p) {
          ProofsDiffer(me, p, q);
        }
        fingerprints := fingerprints[sentByID[p].fp := sentByID[p]];
        left := left - {p};
      }
    }

    // ----- Operations with nothing between their calls -----

    /** Request. */
    method Request(p: ID, k: nat, goes: bool) returns (message: Option<Message>, status: Status)
      requires Valid()
      modifies this`sentByID, this`fingerprints, this`listed
      ensures Valid()
      ensures Outcome(LinkTo(p), message, status) == Handshake.Request(old(LinkTo(p)), me, p, k, goes)
      ensures forall q :: q != p ==> Spared(old(LinkTo(q)), LinkTo(q))
    {
      if p in partners {
        return None, Refused;
      }
      var found, st := AddSent(SentOf(me, p, k));
      status := st;
      message := None;
      if found.Some? && goes {
        message := Some(RequestFrom(me, found.value));
      }
    }

    /** confirm: the handler of the received request, which is used up when it succeeds. */
    method Confirm(p: ID, contactKey: DhPub, k: nat, healthy: bool) returns (message: Option<Message>, status: Status)
      requires Valid()
      modifies this`receivedByID, this`listed, this`partners, this`confirmations
      ensures Valid()
      ensures Outcome(LinkTo(p), message, status) == Handshake.Confirm(old(LinkTo(p)), me, p, contactKey, k, healthy)
      ensures forall q :: q != p ==> Spared(old(LinkTo(q)), LinkTo(q))
    {
      if !healthy || p !in receivedByID {
        return None, Refused;
      }
      var rr := receivedByID[p];
      if rr.dhPub != contactKey {
        return None, Refused;
      }
      var m := ConfirmFrom(me, p, rr, k);
      MakePartner(p, SessionFrom(rr, k));
      StoreConfirmation(p, m);
      ReleaseReceived(p);
      return Some(m), Confirmed;
    }

    /** The new-fingerprint path of receivedRequestService.Process, entered with the
        fingerprint already recorded. */
    method ProcessNewRequest(m: Message, k: nat, healthy: bool, ghost l: Link)
      returns (message: Option<Message>, status: Status)
      requires Valid() && m.RequestMsg? && |m.sender| == |me| && m.sender != me
      requires LinkTo(m.sender) == l.(seen := l.seen + [NegotiationOf(m)])
      modifies this`sentByID, this`receivedByID, this`listed, this`partners, this`confirmations
      ensures Valid()
      ensures Outcome(LinkTo(m.sender), message, status) == NewRequest(l, me, m, k, healthy)
      ensures forall q :: q != m.sender ==> Spared(old(LinkTo(q)), LinkTo(q))
    {
      var p := m.sender;
      DeleteReceivedRequest(p);
      var bail, autoConfirm := ResolveSent(p);
      if bail {
        return None, Bailed;
      }
      message, status := TakeOn(m, autoConfirm, k, healthy);
    }

    /** What follows the tie-break: AddReceived, and confirm if the sent request was taken. */
    method TakeOn(m: Message, autoConfirm: bool, k: nat, healthy: bool)
      returns (message: Option<Message>, status: Status)
      requires Valid() && m.RequestMsg?
      modifies this`receivedByID, this`listed, this`partners, this`confirmations
      ensures Valid()
      ensures var l := old(LinkTo(m.sender));
              var l1 := StoreReceived(l, ReceivedOf(m));
              Outcome(LinkTo(m.sender), message, status) ==
              if l.received.Some? || l.sent.Some? then Outcome(l, None, Discarded)
              else if !autoConfirm then Outcome(l1, None, Pending)
              else Handshake.Confirm(l1, me, m.sender, m.dhPub, k, healthy).(status := AutoConfirmed)
      ensures forall q :: q != m.sender ==> Spared(old(LinkTo(q)), LinkTo(q))
    {
      var added := AddReceived(m.sender, ReceivedOf(m));
      if !added {
        return None, Discarded;
      }
      if !autoConfirm {
        return None, Pending;
      }
      message, status := Confirm(m.sender, m.dhPub, k, healthy);
      status := AutoConfirmed;
    }

    /** receivedRequestService.Process without the reset flag. */
    method ProcessRequest(m: Message, k: nat, healthy: bool) returns (message: Option<Message>, status: Status)
      requires Valid() && m.RequestMsg? && |m.sender| == |me| && m.sender != me
      modifies this
      ensures Valid()
      ensures Outcome(LinkTo(m.sender), message, status) == ReceiveRequest(old(LinkTo(m.sender)), me, m, k, healthy)
      ensures forall q :: q != m.sender ==> Spared(old(LinkTo(q)), LinkTo(q))
    {
      if Shared(Historical(me), m.dhPub) != m.lock {
        return None, Dropped;
      }
      var isNew, position := CheckIfNegotiationIsNew(m.sender, NegotiationOf(m));
      if !isNew {
        message := None;
        if position == 0 && m.sender !in partners && m.sender in confirmations {
          message := Some(confirmations[m.sender]);
        }
        return message, Repeated;
      }
      message, status := ProcessNewRequest(m, k, healthy, old(LinkTo(m.sender)));
    }

    /** receivedConfirmService.Process; the registration found for the fingerprint names the
        partner and is used up first. */
    method ProcessConfirm(m: Message) returns (status: Status)
      requires Valid() && m.ConfirmMsg?
      modifies this`fingerprints, this`partners
      ensures Valid()
      ensures forall p :: m.fp == ProofOf(me, p) ==>
                Outcome(LinkTo(p), None, status) == ReceiveConfirm(old(LinkTo(p)), m)
      ensures forall p :: m.fp != ProofOf(me, p) ==> LinkTo(p) == old(LinkTo(p))
    {
      var found := PopRegistration(m.fp);
      if found.None? {
        return Dropped;
      }
      var sr := found.value;
      forall q | q != sr.partner ensures ProofOf(me, q) != m.fp {
        ProofsDiffer(me, sr.partner, q);
      }
      if Shared(sr.myDh, m.dhPub) != m.lock {
        return Dropped;
      }
      if m.ownership != Shared(sr.myDh, sr.partnerHistorical) {
        return Dropped;
      }
      MakePartner(sr.partner, FinishedSession(sr, m));
      return Finished;
    }
  }
}
