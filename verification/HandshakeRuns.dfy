/**
 * Any number of honest parties that exchange requests and confirmations over a network
 * which may lose, repeat and reorder messages. Their operations interleave call by call,
 * requests may be deleted and processes may end at any point. What holds between each two
 * of them after every run.
 */
module HandshakeRuns {
  import opened Wrappers
  import opened Bytes
  import opened TieBreak
  import opened Handshake
  import opened HandshakeSteps

  datatype Pair = Pair(me: ID, them: ID)

  /** net holds every message ever sent; a message not delivered is a message lost. down
      are the parties whose process has crashed. */
  datatype World = World(sides: map<Pair, Side>, net: set<Message>, down: set<ID>)

  const Start := World(map[], {}, {})

  function At(w: World, me: ID, them: ID): Side {
    if Pair(me, them) in w.sides then w.sides[Pair(me, them)] else NoSide
  }

  /** listed are the partners whose cleared request is still listed in storage. */
  datatype Act = Do(me: ID, them: ID, call: Call) | Restart(me: ID, listed: set<ID>)

  ghost predicate Identity(a: ID) {
    |a| == 33
  }

  /** Whether a message comes to a party as one of another: a request names its sender, a
      confirmation has the fingerprint of the two. */
  predicate Reaches(m: Message, me: ID, them: ID) {
    m.to == me && if m.RequestMsg? then m.sender == them else m.fp == ProofOf(me, them)
  }

  /** Parties deal with others than themselves, and only sent messages are delivered. */
  ghost predicate Allowed(w: World, a: Act) {
    match a
    case Restart(_, _) => true
    case Do(me, them, call) =>
      && Identity(me) && Identity(them) && me != them && me !in w.down
      && (call.DoTakeIn? ==> call.m in w.net && call.m.RequestMsg? && Reaches(call.m, me, them))
      && (call.DoPop? ==> call.m in w.net && call.m.ConfirmMsg? && Reaches(call.m, me, them))
  }

  function Put(w: World, me: ID, them: ID, o: Made): World {
    w.(sides := w.sides[Pair(me, them) := o.side],
       net := if o.message.Some? then w.net + {o.message.value} else w.net)
  }

  /** A crash takes the party down until its process starts again. */
  function Next(w: World, a: Act): World {
    match a
    case Do(me, them, call) =>
      var o := Make(At(w, me, them), me, them, call);
      if o.status == Crashed then w.(down := w.down + {me}) else Put(w, me, them, o)
    case Restart(me, listed) =>
      w.(sides := map p | p in w.sides ::
           if p.me == me then RestartSide(w.sides[p], p.them in listed) else w.sides[p],
         down := w.down - {me})
  }

  ghost predicate Legal(w: World, acts: seq<Act>)
    decreases acts
  {
    acts != [] ==> Allowed(w, acts[0]) && Legal(Next(w, acts[0]), acts[1..])
  }

  function Run(w: World, acts: seq<Act>): World
    decreases acts
  {
    if acts == [] then w else Run(Next(w, acts[0]), acts[1..])
  }

  // ----- Which keys appear where -----

  /** A record of a request that x made of y with one of the keys. */
  ghost predicate IsSent(x: ID, y: ID, keys: seq<nat>, s: Sent) {
    s.myDh.Ephemeral? && s.myDh.n in keys && s == SentOf(x, y, s.myDh.n)
  }

  /** The message of such a request. */
  ghost predicate IsRequest(x: ID, y: ID, keys: seq<nat>, m: Message) {
    m.RequestMsg? && m.dhPub.of.Ephemeral? && m.dhPub.of.n in keys && m == RequestOf(x, y, m.dhPub.of.n)
  }

  /** What the receiver stores of it. */
  function Kept(x: ID, y: ID, k: nat): Received {
    ReceivedOf(RequestOf(x, y, k))
  }

  ghost predicate IsReceived(x: ID, y: ID, keys: seq<nat>, r: Received) {
    r.dhPub.of.Ephemeral? && r.dhPub.of.n in keys && r == Kept(x, y, r.dhPub.of.n)
  }

  ghost predicate IsNegotiation(x: ID, y: ID, keys: seq<nat>, n: Negotiation) {
    n.dhPub.of.Ephemeral? && n.dhPub.of.n in keys && n == NegotiationOf(RequestOf(x, y, n.dhPub.of.n))
  }

  /** The confirmation with which y answers the request of x made with key i. */
  ghost predicate Confirms(x: ID, y: ID, i: nat, m: Message) {
    m.ConfirmMsg? && m.dhPub.of.Ephemeral? && m == ConfirmFrom(y, x, Kept(x, y, i), m.dhPub.of.n)
  }

  ghost predicate IsConfirm(x: ID, y: ID, keys: seq<nat>, m: Message) {
    exists i :: i in keys && Confirms(x, y, i, m)
  }

  /** The session that y has from answering with m. */
  ghost predicate OpenedBy(x: ID, y: ID, keys: seq<nat>, m: Message, s: Session) {
    exists i :: i in keys && Confirms(x, y, i, m) && s == SessionFrom(Kept(x, y, i), m.dhPub.of.n)
  }

  /** The session that x has from the answer m. */
  ghost predicate ClosedBy(x: ID, y: ID, keys: seq<nat>, m: Message, s: Session) {
    exists i :: i in keys && Confirms(x, y, i, m) && s == FinishedSession(SentOf(x, y, i), m)
  }

  // ----- The invariant of all runs -----

  /** What x keeps of its own requests. */
  ghost predicate OwnRequests(x: ID, y: ID, asked: seq<nat>, sent: Option<Sent>, listening: Option<Sent>,
                              closing: multiset<Closing>) {
    && (sent.Some? ==> IsSent(x, y, asked, sent.value))
    && (listening.Some? ==> IsSent(x, y, asked, listening.value))
    && (forall c <- closing :: IsSent(x, y, asked, c.sent))
  }

  /** A sent and a received request exclude each other, also after a restart. */
  predicate Exclusive(l: Link) {
    && (l.sent.None? || l.received.None?)
    && (l.cleared.Some? ==> l.sent.None? && l.received.None?)
  }

  /** What x keeps of the requests of y, which were made with the given keys. */
  ghost predicate TheirRequests(x: ID, y: ID, keys: seq<nat>, received: Option<Received>, cleared: Option<Received>) {
    && (received.Some? ==> IsReceived(y, x, keys, received.value))
    && (cleared.Some? ==> IsReceived(y, x, keys, cleared.value))
  }

  ghost predicate TheirKeys(x: ID, y: ID, keys: seq<nat>, seen: seq<Negotiation>) {
    && (forall n <- seen :: IsNegotiation(y, x, keys, n))
    && (forall i, j :: 0 <= i < j < |seen| ==> seen[i] != seen[j])
  }

  ghost predicate TheirWork(x: ID, y: ID, keys: seq<nat>, seen: seq<Negotiation>, work: map<Negotiation, Work>) {
    forall n <- work :: n in seen && IsRequest(y, x, keys, work[n].m) && n == NegotiationOf(work[n].m)
  }

  ghost predicate TheirHeld(x: ID, y: ID, keys: seq<nat>, held: multiset<Held>, answers: map<Received, Phase>) {
    && (forall h <- held :: IsReceived(y, x, keys, h.r))
    && (forall r <- answers :: IsReceived(y, x, keys, r))
  }

  /** A confirmation of x is the one that opened its session, or x answered again. */
  ghost predicate Owned(session: Option<Session>, past: Past, m: Message) {
    session.Some? && (past.origin == Some(Opened(m)) || past.again)
  }

  /** How far x is with an answer. */
  ghost predicate AnswerFits(x: ID, y: ID, s: Side, r: Received, p: Phase) {
    p.Locked?
    || (&& r.dhPub.of.Ephemeral? && Confirms(y, x, r.dhPub.of.n, p.m) && Owned(s.link.session, s.past, p.m)
        && (p.Answered? ==> s.link.confirmation.Some?))
  }

  /** What x keeps of its answers to y. */
  ghost predicate Answers(x: ID, y: ID, s: Side, keys: seq<nat>) {
    && (forall r <- s.calls.answers :: AnswerFits(x, y, s, r, s.calls.answers[r]))
    && (s.link.confirmation.Some? ==>
          && IsConfirm(y, x, keys, s.link.confirmation.value)
          && Owned(s.link.session, s.past, s.link.confirmation.value))
  }

  /** How x came to its session; an accepted answer has been stored by its sender. */
  ghost predicate Sessions(x: ID, y: ID, s: Side, peer: Side) {
    && (s.link.session.Some? <==> s.past.origin.Some?)
    && (s.past.origin.Some? && s.past.origin.value.Opened? ==>
          OpenedBy(y, x, peer.past.asked, s.past.origin.value.m, s.link.session.value))
    && (s.past.origin.Some? && s.past.origin.value.Closed? ==>
          && ClosedBy(x, y, s.past.asked, s.past.origin.value.m, s.link.session.value) && s.past.accepted
          && Owned(peer.link.session, peer.past, s.past.origin.value.m))
    && (s.past.accepted ==> s.link.session.Some? && peer.link.confirmation.Some? && peer.link.session.Some?)
  }

  /** What x has sent to y, and what of it y is about to accept. */
  ghost predicate Traffic(x: ID, y: ID, s: Side, peer: Side, net: set<Message>) {
    && (forall m <- net :: Reaches(m, y, x) ==>
          if m.RequestMsg? then IsRequest(x, y, s.past.asked, m)
          else IsConfirm(y, x, peer.past.asked, m) && s.link.confirmation.Some? && Owned(s.link.session, s.past, m))
    && (forall c <- peer.calls.closing :: c.m in net && c.m.ConfirmMsg? && Reaches(c.m, y, x))
  }

  ghost predicate RequestsFit(x: ID, y: ID, s: Side, keys: seq<nat>) {
    && OwnRequests(x, y, s.past.asked, s.link.sent, s.link.listening, s.calls.closing)
    && Exclusive(s.link)
    && TheirRequests(x, y, keys, s.link.received, s.link.cleared)
    && TheirKeys(x, y, keys, s.link.seen)
    && TheirWork(x, y, keys, s.link.seen, s.calls.work)
    && TheirHeld(x, y, keys, s.calls.held, s.calls.answers)
  }

  ghost predicate Fit(x: ID, y: ID, s: Side, peer: Side) {
    && RequestsFit(x, y, s, peer.past.asked)
    && Answers(x, y, s, peer.past.asked)
    && Sessions(x, y, s, peer)
  }

  ghost predicate Good(w: World, x: ID, y: ID) {
    Fit(x, y, At(w, x, y), At(w, y, x)) && Traffic(x, y, At(w, x, y), At(w, y, x), w.net)
  }

  ghost predicate Inv(w: World) {
    forall x, y :: Identity(x) && Identity(y) && x != y ==> Good(w, x, y)
  }

  // ----- Every step keeps it: the records of requests -----

  /** Where the received requests of a side can have come from. */
  predicate Known(s: Side, r: Received) {
    || s.link.received == Some(r) || s.link.cleared == Some(r)
    || (exists n | n in s.calls.work :: s.calls.work[n].m.RequestMsg? && r == ReceivedOf(s.calls.work[n].m))
    || (exists h | h in s.calls.held :: h.r == r)
  }

  /** Nothing about requests in s' is new. */
  ghost predicate Derives(s: Side, s': Side) {
    && s'.past.asked == s.past.asked && s'.link.seen == s.link.seen
    && s'.link.sent in {None, s.link.sent} && s'.link.listening in {None, s.link.sent, s.link.listening}
    && (forall c <- s'.calls.closing :: c in s.calls.closing || s.link.listening == Some(c.sent))
    && (s'.link.received.Some? ==> Known(s, s'.link.received.value))
    && (s'.link.cleared.Some? ==> Known(s, s'.link.cleared.value))
    && (forall n <- s'.calls.work :: n in s.calls.work && s'.calls.work[n].m == s.calls.work[n].m)
    && (forall h <- s'.calls.held :: Known(s, h.r))
    && (forall r <- s'.calls.answers :: r in s.calls.answers || Known(s, r))
  }

  lemma KnownIsReceived(x: ID, y: ID, s: Side, keys: seq<nat>, r: Received)
    requires RequestsFit(x, y, s, keys) && Known(s, r)
    ensures IsReceived(y, x, keys, r)
  {
  }

  lemma DerivedFits(x: ID, y: ID, s: Side, s': Side, keys: seq<nat>)
    requires RequestsFit(x, y, s, keys) && Derives(s, s') && Exclusive(s'.link)
    ensures RequestsFit(x, y, s', keys)
  {
    forall r | Known(s, r) ensures IsReceived(y, x, keys, r) {
      KnownIsReceived(x, y, s, keys, r);
    }
  }

  /** A step that leaves the records of requests alone. */
  ghost predicate Spares(s: Side, s': Side) {
    && s'.link == s.link.(session := s'.link.session, confirmation := s'.link.confirmation)
    && s'.calls == s.calls.(asking := s'.calls.asking, closing := s'.calls.closing)
    && s'.past.asked == s.past.asked
    && (forall c <- s'.calls.closing :: c in s.calls.closing)
  }

  lemma SparedDerives(s: Side, s': Side)
    requires Exclusive(s.link) && Spares(s, s')
    ensures Derives(s, s') && Exclusive(s'.link)
  {
  }

  lemma AskCheckDerives(s: Side, me: ID, them: ID, a: Call)
    requires Exclusive(s.link) && a.DoAskCheck?
    ensures Derives(s, Make(s, me, them, a).side) && Exclusive(Make(s, me, them, a).side.link)
  {
  }

  lemma AskStoreDerives(s: Side, me: ID, them: ID, k: nat, goes: bool)
    requires Exclusive(s.link) && AskStore(s, me, them, k, goes).side.past.asked == s.past.asked
    ensures Derives(s, AskStore(s, me, them, k, goes).side) && Exclusive(AskStore(s, me, them, k, goes).side.link)
  {
    AskStoreSpares(s, me, them, k, goes);
    SparedDerives(s, AskStore(s, me, them, k, goes).side);
  }

  lemma AskStoreSpares(s: Side, me: ID, them: ID, k: nat, goes: bool)
    requires AskStore(s, me, them, k, goes).side.past.asked == s.past.asked
    ensures Spares(s, AskStore(s, me, them, k, goes).side)
  {
  }

  lemma ClearOldDerives(s: Side, n: Negotiation)
    requires Exclusive(s.link) && n in s.calls.work
    ensures Derives(s, ClearOld(s, n).side) && Exclusive(ClearOld(s, n).side.link)
  {
  }

  lemma ResolveDerives(s: Side, me: ID, n: Negotiation)
    requires Exclusive(s.link) && n in s.calls.work
    ensures Derives(s, Resolve(s, me, n).side) && Exclusive(Resolve(s, me, n).side.link)
  {
  }

  lemma StoreNewDerives(s: Side, n: Negotiation)
    requires Exclusive(s.link) && n in s.calls.work && s.calls.work[n].stage.Storing?
    ensures Derives(s, StoreNew(s, n).side) && Exclusive(StoreNew(s, n).side.link)
  {
  }

  lemma LookDerives(s: Side, me: ID, them: ID, a: Call)
    requires Exclusive(s.link) && a.DoLook?
    ensures Derives(s, Make(s, me, them, a).side) && Exclusive(Make(s, me, them, a).side.link)
  {
  }

  lemma DoneDerives(s: Side, n: Negotiation, contactKey: DhPub, healthy: bool)
    requires Exclusive(s.link)
    ensures var s' := Look(Done(s, n), contactKey, healthy).side; Derives(s, s') && Exclusive(s'.link)
  {
  }

  lemma LockDerives(s: Side, me: ID, them: ID, a: Call)
    requires Exclusive(s.link) && a.DoLock?
    ensures Derives(s, Make(s, me, them, a).side) && Exclusive(Make(s, me, them, a).side.link)
  {
    LockTakes(s, a.h);
    forall g <- s.calls.held ensures Known(s, g.r) {
    }
  }

  lemma LockTakes(s: Side, h: Held)
    ensures var s' := Lock(s, h).side;
            && (forall r <- s'.calls.answers :: r in s.calls.answers || (h in s.calls.held && r == h.r))
            && (forall g <- s'.calls.held :: g in s.calls.held)
  {
  }

  lemma OpenDerives(s: Side, me: ID, them: ID, a: Call)
    requires Exclusive(s.link) && a.DoOpen?
    ensures Derives(s, Make(s, me, them, a).side) && Exclusive(Make(s, me, them, a).side.link)
  {
  }

  lemma SendDerives(s: Side, me: ID, them: ID, a: Call)
    requires Exclusive(s.link) && a.DoSend?
    ensures Derives(s, Make(s, me, them, a).side) && Exclusive(Make(s, me, them, a).side.link)
  {
  }

  lemma ReleaseDerives(s: Side, me: ID, them: ID, a: Call)
    requires Exclusive(s.link) && a.DoRelease?
    ensures Derives(s, Make(s, me, them, a).side) && Exclusive(Make(s, me, them, a).side.link)
  {
  }

  lemma PopDerives(s: Side, me: ID, them: ID, a: Call)
    requires Exclusive(s.link) && a.DoPop?
    ensures Derives(s, Make(s, me, them, a).side) && Exclusive(Make(s, me, them, a).side.link)
  {
  }

  lemma CloseDerives(s: Side, me: ID, them: ID, a: Call)
    requires Exclusive(s.link) && a.DoClose?
    ensures Derives(s, Make(s, me, them, a).side) && Exclusive(Make(s, me, them, a).side.link)
  {
    CloseSpares(s, a.c);
    SparedDerives(s, Close(s, a.c).side);
  }

  lemma CloseSpares(s: Side, c: Closing)
    ensures Spares(s, Close(s, c).side)
  {
  }

  lemma DeleteDerives(s: Side, me: ID, them: ID, a: Call)
    requires Exclusive(s.link) && a.DoDelete?
    ensures Derives(s, Make(s, me, them, a).side) && Exclusive(Make(s, me, them, a).side.link)
  {
  }

  lemma RestartDerives(s: Side, listed: bool)
    requires Exclusive(s.link)
    ensures Derives(s, RestartSide(s, listed)) && Exclusive(RestartSide(s, listed).link)
  {
  }

  lemma AskNewRequests(x: ID, y: ID, s: Side, s': Side, keys: seq<nat>, k: nat)
    requires RequestsFit(x, y, s, keys) && s.link.sent.None? && s.link.received.None? && s.link.listening.None?
    requires s'.link == s.link.(sent := Some(SentOf(x, y, k)), listening := Some(SentOf(x, y, k)), cleared := None)
    requires s'.calls == s.calls.(asking := s'.calls.asking)
    requires s'.past.asked == s.past.asked + [k]
    ensures RequestsFit(x, y, s', keys)
  {
    assert OwnRequests(x, y, s.past.asked, None, None, s.calls.closing);
  }

  lemma TakeNewRequests(x: ID, y: ID, s: Side, keys: seq<nat>, m: Message)
    requires RequestsFit(x, y, s, keys) && IsRequest(y, x, keys, m)
    ensures RequestsFit(x, y, TakeIn(s, x, m).side, keys)
  {
  }

  lemma ProceedDerives(s: Side, me: ID, n: Negotiation, healthy: bool)
    requires Exclusive(s.link)
    ensures Derives(s, Proceed(s, me, n, healthy).side) && Exclusive(Proceed(s, me, n, healthy).side.link)
  {
    if n in s.calls.work {
      match s.calls.work[n].stage
      case Clearing => ClearOldDerives(s, n);
      case Removing(_) => ClearOldDerives(s, n);
      case Resolving => ResolveDerives(s, me, n);
      case Storing(_) => StoreNewDerives(s, n);
      case Confirming => DoneDerives(s, n, s.calls.work[n].m.dhPub, healthy);
    }
  }

  lemma StepDerives(x: ID, y: ID, s: Side, a: Call)
    requires Exclusive(s.link) && !a.DoTakeIn? && !a.DoAskStore?
    ensures Derives(s, Make(s, x, y, a).side) && Exclusive(Make(s, x, y, a).side.link)
  {
    if a.DoProceed? {
      ProceedDerives(s, x, a.n, a.healthy);
    } else if a.DoPop? {
      PopDerives(s, x, y, a);
    } else if a.DoClose? {
      CloseDerives(s, x, y, a);
    } else if a.DoAskCheck? {
      AskCheckDerives(s, x, y, a);
    } else if a.DoDelete? {
      DeleteDerives(s, x, y, a);
    } else if a.DoLook? {
      LookDerives(s, x, y, a);
    } else if a.DoLock? {
      LockDerives(s, x, y, a);
    } else if a.DoOpen? {
      OpenDerives(s, x, y, a);
    } else if a.DoSend? {
      SendDerives(s, x, y, a);
    } else {
      ReleaseDerives(s, x, y, a);
    }
  }

  lemma StepRequests(x: ID, y: ID, s: Side, keys: seq<nat>, a: Call)
    requires RequestsFit(x, y, s, keys) && (a.DoTakeIn? ==> IsRequest(y, x, keys, a.m))
    ensures RequestsFit(x, y, Make(s, x, y, a).side, keys)
  {
    if a.DoTakeIn? {
      TakeNewRequests(x, y, s, keys, a.m);
    } else if a.DoAskStore? {
      AskStoreRequests(x, y, s, keys, a.k, a.goes);
    } else {
      StepDerives(x, y, s, a);
      DerivedFits(x, y, s, Make(s, x, y, a).side, keys);
    }
  }

  lemma AskStoreRequests(x: ID, y: ID, s: Side, keys: seq<nat>, k: nat, goes: bool)
    requires RequestsFit(x, y, s, keys)
    ensures RequestsFit(x, y, AskStore(s, x, y, k, goes).side, keys)
  {
    var s' := AskStore(s, x, y, k, goes).side;
    if s'.past.asked == s.past.asked {
      AskStoreDerives(s, x, y, k, goes);
      DerivedFits(x, y, s, s', keys);
    } else {
      AskNewRequests(x, y, s, s', keys, k);
    }
  }

  // ----- Every step keeps it: answers and sessions -----

  /** What no step takes back. */
  ghost predicate Grows(s: Side, s': Side) {
    && (s.link.session.Some? ==> s'.link.session == s.link.session)
    && (s.past.origin.Some? ==> s'.past.origin == s.past.origin)
    && (s.past.again ==> s'.past.again) && (s.past.accepted ==> s'.past.accepted)
    && (s.link.confirmation.Some? ==> s'.link.confirmation.Some?)
    && (forall k <- s.past.asked :: k in s'.past.asked) && |s.past.asked| <= |s'.past.asked|
    && (s.past.late ==> s'.past.late) && (s.past.deleted ==> s'.past.deleted)
  }

  /** A step that makes no session and sends no answer. */
  ghost predicate Rests(s: Side, s': Side) {
    && Grows(s, s')
    && s'.link.session == s.link.session && s'.past.origin == s.past.origin && s'.past.accepted == s.past.accepted
    && s'.link.confirmation == s.link.confirmation
    && forall r <- s'.calls.answers ::
         s'.calls.answers[r].Locked? || (r in s.calls.answers && s'.calls.answers[r] == s.calls.answers[r])
  }

  lemma OwnedStays(s: Side, s': Side, m: Message)
    requires Grows(s, s') && Owned(s.link.session, s.past, m)
    ensures Owned(s'.link.session, s'.past, m)
  {
  }

  lemma RestingFits(x: ID, y: ID, s: Side, s': Side, peer: Side)
    requires Rests(s, s') && Answers(x, y, s, peer.past.asked) && Sessions(x, y, s, peer)
    ensures Answers(x, y, s', peer.past.asked) && Sessions(x, y, s', peer)
  {
    forall r <- s'.calls.answers ensures AnswerFits(x, y, s', r, s'.calls.answers[r]) {
      if !s'.calls.answers[r].Locked? {
        assert AnswerFits(x, y, s, r, s.calls.answers[r]);
      }
    }
    if s.past.origin.Some? && s.past.origin.value.Closed? {
      ClosedStays(x, y, s.past.asked, s'.past.asked, s.past.origin.value.m, s.link.session.value);
    }
  }

  lemma ClosedStays(x: ID, y: ID, keys: seq<nat>, keys': seq<nat>, m: Message, t: Session)
    requires ClosedBy(x, y, keys, m, t) && forall k <- keys :: k in keys'
    ensures ClosedBy(x, y, keys', m, t)
  {
  }

  lemma OpenedStays(x: ID, y: ID, keys: seq<nat>, keys': seq<nat>, m: Message, t: Session)
    requires OpenedBy(x, y, keys, m, t) && forall k <- keys :: k in keys'
    ensures OpenedBy(x, y, keys', m, t)
  {
  }

  lemma ConfirmStays(x: ID, y: ID, keys: seq<nat>, keys': seq<nat>, m: Message)
    requires IsConfirm(x, y, keys, m) && forall k <- keys :: k in keys'
    ensures IsConfirm(x, y, keys', m)
  {
  }

  /** s' is s after AddPartner of the answer m to r. */
  ghost predicate Opens(x: ID, y: ID, s: Side, s': Side, r: Received, m: Message) {
    && r in s.calls.answers && m.ConfirmMsg? && m.dhPub.of.Ephemeral?
    && s'.calls == s.calls.(answers := s.calls.answers[r := Derived(m)])
    && s'.link.confirmation == s.link.confirmation
    && if s.link.session.Some? then s'.link.session == s.link.session && s'.past == s.past.(again := true)
       else s'.link.session == Some(SessionFrom(r, m.dhPub.of.n)) && s'.past == s.past.(origin := Some(Opened(m)))
  }

  lemma OpenOpens(x: ID, y: ID, s: Side, r: Received, k: nat)
    ensures var s' := Open(s, x, y, r, k).side; s' == s || Opens(x, y, s, s', r, ConfirmFrom(x, y, r, k))
  {
  }

  lemma OpensAnswers(x: ID, y: ID, s: Side, s': Side, peer: Side, r: Received, m: Message)
    requires Fit(x, y, s, peer) && Opens(x, y, s, s', r, m) && m == ConfirmFrom(x, y, r, m.dhPub.of.n)
    ensures Grows(s, s') && Answers(x, y, s', peer.past.asked)
  {
    assert IsReceived(y, x, peer.past.asked, r);
    assert Confirms(y, x, r.dhPub.of.n, m);
    assert Owned(s'.link.session, s'.past, m);
    forall q <- s'.calls.answers ensures AnswerFits(x, y, s', q, s'.calls.answers[q]) {
      if q != r {
        assert AnswerFits(x, y, s, q, s.calls.answers[q]);
      }
    }
  }

  lemma OpensSessions(x: ID, y: ID, s: Side, s': Side, peer: Side, r: Received, m: Message)
    requires Fit(x, y, s, peer) && Opens(x, y, s, s', r, m) && m == ConfirmFrom(x, y, r, m.dhPub.of.n)
    ensures Sessions(x, y, s', peer)
  {
    assert IsReceived(y, x, peer.past.asked, r);
    assert Confirms(y, x, r.dhPub.of.n, m);
    if s.link.session.None? {
      assert OpenedBy(y, x, peer.past.asked, m, s'.link.session.value);
    }
  }

  lemma OpenFits(x: ID, y: ID, s: Side, peer: Side, r: Received, k: nat)
    requires Fit(x, y, s, peer)
    ensures var s' := Open(s, x, y, r, k).side;
            Grows(s, s') && Answers(x, y, s', peer.past.asked) && Sessions(x, y, s', peer)
  {
    var s', m := Open(s, x, y, r, k).side, ConfirmFrom(x, y, r, k);
    OpenOpens(x, y, s, r, k);
    if s' != s {
      OpensAnswers(x, y, s, s', peer, r, m);
      OpensSessions(x, y, s, s', peer, r, m);
    }
  }

  lemma SendFits(x: ID, y: ID, s: Side, peer: Side, r: Received)
    requires Fit(x, y, s, peer)
    ensures var o := Send(s, r);
            && Grows(s, o.side) && Answers(x, y, o.side, peer.past.asked) && Sessions(x, y, o.side, peer)
            && (o.message.Some? ==>
                  && IsConfirm(y, x, peer.past.asked, o.message.value) && o.side.link.confirmation.Some?
                  && Owned(o.side.link.session, o.side.past, o.message.value))
  {
    var o := Send(s, r);
    if o.message.Some? {
      assert AnswerFits(x, y, s, r, s.calls.answers[r]);
      assert IsReceived(y, x, peer.past.asked, r);
      forall q <- o.side.calls.answers ensures AnswerFits(x, y, o.side, q, o.side.calls.answers[q]) {
        assert AnswerFits(x, y, s, q, s.calls.answers[q]);
      }
    }
  }

  /** An accepted confirmation answers the very request whose registration it used. */
  lemma AcceptedAnswers(x: ID, y: ID, i: nat, j: nat, m: Message)
    requires Confirms(x, y, j, m) && Accepts(SentOf(x, y, i), m)
    ensures i == j
  {
    assert Shared(Ephemeral(i), m.dhPub) == Shared(m.dhPub.of, DhPub(Ephemeral(j)));
    assert Ephemeral(i) in Shared(m.dhPub.of, DhPub(Ephemeral(j)));
    assert Ephemeral(j) in Shared(Ephemeral(i), m.dhPub);
  }

  lemma CloseFits(x: ID, y: ID, s: Side, peer: Side, c: Closing)
    requires Fit(x, y, s, peer)
    requires c in s.calls.closing ==>
               && IsConfirm(x, y, s.past.asked, c.m) && Owned(peer.link.session, peer.past, c.m)
               && peer.link.confirmation.Some?
    ensures var s' := Close(s, c).side;
            Grows(s, s') && Answers(x, y, s', peer.past.asked) && Sessions(x, y, s', peer)
  {
    var s' := Close(s, c).side;
    if c in s.calls.closing && Accepts(c.sent, c.m) {
      var j := AnsweredKey(x, y, s, c);
      CloseSessions(x, y, s, s', peer, c, j);
    } else {
      CloseRests(s, c);
      RestingFits(x, y, s, s', peer);
    }
  }

  lemma CloseRests(s: Side, c: Closing)
    requires c in s.calls.closing ==> c.m.ConfirmMsg? && !Accepts(c.sent, c.m)
    ensures Rests(s, Close(s, c).side)
  {
  }

  lemma AnsweredKey(x: ID, y: ID, s: Side, c: Closing) returns (j: nat)
    requires OwnRequests(x, y, s.past.asked, s.link.sent, s.link.listening, s.calls.closing)
    requires c in s.calls.closing && IsConfirm(x, y, s.past.asked, c.m) && Accepts(c.sent, c.m)
    ensures j in s.past.asked && Confirms(x, y, j, c.m) && c.sent == SentOf(x, y, j)
  {
    j :| j in s.past.asked && Confirms(x, y, j, c.m);
    AcceptedAnswers(x, y, c.sent.myDh.n, j, c.m);
  }

  lemma CloseSessions(x: ID, y: ID, s: Side, s': Side, peer: Side, c: Closing, j: nat)
    requires Fit(x, y, s, peer) && j in s.past.asked && Confirms(x, y, j, c.m) && c.sent == SentOf(x, y, j)
    requires Owned(peer.link.session, peer.past, c.m) && peer.link.confirmation.Some?
    requires s'.link == AddPartner(s.link, FinishedSession(c.sent, c.m))
    requires s'.calls == s.calls.(closing := s'.calls.closing)
    requires s'.past == s.past.(origin := if s.link.session.None? then Some(Closed(c.m)) else s.past.origin,
                                accepted := true)
    ensures Grows(s, s') && Answers(x, y, s', peer.past.asked) && Sessions(x, y, s', peer)
  {
    forall q <- s'.calls.answers ensures AnswerFits(x, y, s', q, s'.calls.answers[q]) {
      assert AnswerFits(x, y, s, q, s.calls.answers[q]);
    }
    if s.link.session.None? {
      assert ClosedBy(x, y, s.past.asked, c.m, s'.link.session.value);
    }
  }

  lemma ProceedRests(s: Side, me: ID, n: Negotiation, healthy: bool)
    ensures Rests(s, Proceed(s, me, n, healthy).side)
  {
  }

  lemma StepRests(x: ID, y: ID, s: Side, a: Call)
    requires !a.DoOpen? && !a.DoSend? && !a.DoClose?
    ensures Rests(s, Make(s, x, y, a).side)
  {
    match a
    case DoAskCheck =>
    case DoAskStore(k, goes) =>
    case DoTakeIn(m) =>
    case DoProceed(n, healthy) => ProceedRests(s, x, n, healthy);
    case DoLook(_, _) =>
    case DoLock(_) =>
    case DoRelease(_) =>
    case DoPop(_) =>
    case DoDelete(_, _) =>
  }

  lemma StepAnswers(x: ID, y: ID, s: Side, peer: Side, net: set<Message>, a: Call)
    requires Fit(x, y, s, peer) && Traffic(y, x, peer, s, net)
    ensures var s' := Make(s, x, y, a).side;
            Grows(s, s') && Answers(x, y, s', peer.past.asked) && Sessions(x, y, s', peer)
  {
    if a.DoOpen? || a.DoSend? || a.DoClose? {
      AnswerSteps(x, y, s, peer, net, a);
    } else {
      StepRests(x, y, s, a);
      RestingFits(x, y, s, Make(s, x, y, a).side, peer);
    }
  }

  lemma AnswerSteps(x: ID, y: ID, s: Side, peer: Side, net: set<Message>, a: Call)
    requires Fit(x, y, s, peer) && Traffic(y, x, peer, s, net) && (a.DoOpen? || a.DoSend? || a.DoClose?)
    ensures var s' := Make(s, x, y, a).side;
            Grows(s, s') && Answers(x, y, s', peer.past.asked) && Sessions(x, y, s', peer)
  {
    match a
    case DoOpen(r, k) => OpenFits(x, y, s, peer, r, k);
    case DoSend(r) => SendFits(x, y, s, peer, r);
    case DoClose(c) => CloseFits(x, y, s, peer, c);
  }

  /** Every step of x keeps what x has in order with y. */
  lemma StepFits(x: ID, y: ID, s: Side, peer: Side, net: set<Message>, a: Call)
    requires Fit(x, y, s, peer) && Traffic(y, x, peer, s, net)
    requires a.DoTakeIn? ==> a.m in net && a.m.RequestMsg? && Reaches(a.m, x, y)
    ensures Fit(x, y, Make(s, x, y, a).side, peer) && Grows(s, Make(s, x, y, a).side)
  {
    StepRequests(x, y, s, peer.past.asked, a);
    StepAnswers(x, y, s, peer, net, a);
  }

  // ----- Every step keeps it: the other party and the network -----

  lemma PeerRequests(x: ID, y: ID, s: Side, keys: seq<nat>, keys': seq<nat>)
    requires RequestsFit(x, y, s, keys) && forall k <- keys :: k in keys'
    ensures RequestsFit(x, y, s, keys')
  {
  }

  /** A step of the other party keeps what x has in order with it. */
  lemma PeerFits(x: ID, y: ID, s: Side, peer: Side, peer': Side)
    requires Fit(x, y, s, peer) && Grows(peer, peer')
    ensures Fit(x, y, s, peer')
  {
    var keys, keys' := peer.past.asked, peer'.past.asked;
    PeerRequests(x, y, s, keys, keys');
    if s.link.confirmation.Some? {
      ConfirmStays(y, x, keys, keys', s.link.confirmation.value);
    }
    if s.past.origin.Some? {
      var m := s.past.origin.value.m;
      if s.past.origin.value.Opened? {
        OpenedStays(y, x, keys, keys', m, s.link.session.value);
      } else {
        OwnedStays(peer, peer', m);
      }
    }
  }

  /** What a step of x sends to y is a request of x or an answer to y. */
  ghost predicate Sendable(x: ID, y: ID, s: Side, keys: seq<nat>, m: Message) {
    && Reaches(m, y, x)
    && if m.RequestMsg? then IsRequest(x, y, s.past.asked, m)
       else IsConfirm(y, x, keys, m) && s.link.confirmation.Some? && Owned(s.link.session, s.past, m)
  }

  lemma ConfirmReaches(x: ID, y: ID, keys: seq<nat>, m: Message)
    requires IsConfirm(y, x, keys, m)
    ensures m.ConfirmMsg? && Reaches(m, y, x)
  {
  }

  lemma AskSends(x: ID, y: ID, s: Side, k: nat, goes: bool)
    requires OwnRequests(x, y, s.past.asked, s.link.sent, s.link.listening, s.calls.closing)
    ensures var o := AskStore(s, x, y, k, goes);
            o.message.Some? ==> Reaches(o.message.value, y, x) && IsRequest(x, y, o.side.past.asked, o.message.value)
  {
  }

  lemma StepSends(x: ID, y: ID, s: Side, peer: Side, a: Call)
    requires Fit(x, y, s, peer)
    ensures var o := Make(s, x, y, a);
            o.message.Some? ==> Sendable(x, y, o.side, peer.past.asked, o.message.value)
  {
    if a.DoAskStore? {
      AskSends(x, y, s, a.k, a.goes);
    } else if a.DoSend? {
      SendSends(x, y, s, peer, a.r);
    } else if a.DoTakeIn? {
      RepeatIsSilent(x, y, s, peer.past.asked, a.m);
    } else {
      OthersAreSilent(s, x, y, a);
    }
  }

  lemma SendSends(x: ID, y: ID, s: Side, peer: Side, r: Received)
    requires Fit(x, y, s, peer)
    ensures var o := Send(s, r);
            o.message.Some? ==> Sendable(x, y, o.side, peer.past.asked, o.message.value)
  {
    SendFits(x, y, s, peer, r);
    var o := Send(s, r);
    if o.message.Some? {
      ConfirmReaches(x, y, peer.past.asked, o.message.value);
    }
  }

  /** A repeated request is never answered with the stored confirmation: that is sent while
      there is no partner, and whoever has stored one has made the partner before. */
  lemma RepeatIsSilent(x: ID, y: ID, s: Side, keys: seq<nat>, m: Message)
    requires Answers(x, y, s, keys)
    ensures TakeIn(s, x, m).message.None?
  {
  }

  lemma OthersAreSilent(s: Side, me: ID, them: ID, a: Call)
    requires !a.DoAskStore? && !a.DoTakeIn? && !a.DoSend?
    ensures Make(s, me, them, a).message.None?
  {
  }

  /** The closings of x after a step hold messages on their way from y to x. */
  lemma StepCloses(x: ID, y: ID, s: Side, net: set<Message>, a: Call)
    requires forall c <- s.calls.closing :: c.m in net && c.m.ConfirmMsg? && Reaches(c.m, x, y)
    requires a.DoPop? ==> a.m in net && a.m.ConfirmMsg? && Reaches(a.m, x, y)
    ensures forall c <- Make(s, x, y, a).side.calls.closing :: c.m in net && c.m.ConfirmMsg? && Reaches(c.m, x, y)
  {
    match a
    case DoPop(_) =>
    case DoClose(_) =>
    case DoProceed(_, _) =>
    case _ =>
  }

  lemma TrafficOut(x: ID, y: ID, s: Side, s': Side, peer: Side, net: set<Message>, message: Option<Message>)
    requires Traffic(x, y, s, peer, net) && Grows(s, s')
    requires message.Some? ==> Sendable(x, y, s', peer.past.asked, message.value)
    ensures Traffic(x, y, s', peer, if message.Some? then net + {message.value} else net)
  {
    forall m <- net | Reaches(m, y, x) && !m.RequestMsg? ensures Owned(s'.link.session, s'.past, m) {
      OwnedStays(s, s', m);
    }
  }

  lemma TrafficIn(x: ID, y: ID, s: Side, peer: Side, peer': Side, net: set<Message>, message: Option<Message>)
    requires x != y && Traffic(x, y, s, peer, net) && Grows(peer, peer')
    requires message.Some? ==> message.value.to == x
    requires forall c <- peer'.calls.closing :: c.m in net && c.m.ConfirmMsg? && Reaches(c.m, y, x)
    ensures Traffic(x, y, s, peer', if message.Some? then net + {message.value} else net)
  {
    forall m <- net | Reaches(m, y, x) && !m.RequestMsg? ensures IsConfirm(y, x, peer'.past.asked, m) {
      ConfirmStays(y, x, peer.past.asked, peer'.past.asked, m);
    }
  }

  lemma TrafficElsewhere(x: ID, y: ID, a: ID, b: ID, s: Side, peer: Side, net: set<Message>, m: Message)
    requires Traffic(a, b, s, peer, net) && Reaches(m, y, x) && x != y && a != b && Pair(a, b) != Pair(x, y)
    ensures Traffic(a, b, s, peer, net + {m})
  {
    if Reaches(m, b, a) && m.ConfirmMsg? {
      ProofNamesPartner(y, x, a);
    }
  }

  lemma ProofNamesPartner(y: ID, x: ID, z: ID)
    requires x != y && z != y && ProofOf(y, x) == ProofOf(y, z)
    ensures x == z
  {
    assert Historical(x) in ProofOf(y, z);
  }

  lemma ElsewhereGood(w: World, x: ID, y: ID, o: Made, a: ID, b: ID)
    requires Good(w, a, b) && x != y && a != b && Pair(a, b) != Pair(x, y) && Pair(a, b) != Pair(y, x)
    requires o.message.Some? ==> Reaches(o.message.value, y, x)
    ensures Good(Put(w, x, y, o), a, b)
  {
    var w' := Put(w, x, y, o);
    assert At(w', a, b) == At(w, a, b) && At(w', b, a) == At(w, b, a);
    if o.message.Some? {
      TrafficElsewhere(x, y, a, b, At(w, a, b), At(w, b, a), w.net, o.message.value);
    }
  }

  lemma PutSides(w: World, x: ID, y: ID, o: Made)
    requires x != y
    ensures At(Put(w, x, y, o), x, y) == o.side && At(Put(w, x, y, o), y, x) == At(w, y, x)
  {
  }

  lemma DoKeepsMine(w: World, x: ID, y: ID, a: Call)
    requires Good(w, x, y) && Good(w, y, x) && Allowed(w, Do(x, y, a))
    ensures var o := Make(At(w, x, y), x, y, a);
            && Good(Put(w, x, y, o), x, y) && Grows(At(w, x, y), o.side)
            && (o.message.Some? ==> Reaches(o.message.value, y, x))
  {
    var s, peer, o := At(w, x, y), At(w, y, x), Make(At(w, x, y), x, y, a);
    StepFits(x, y, s, peer, w.net, a);
    StepSends(x, y, s, peer, a);
    TrafficOut(x, y, s, o.side, peer, w.net, o.message);
    PutSides(w, x, y, o);
  }

  lemma DoKeepsTheirs(w: World, x: ID, y: ID, a: Call)
    requires Good(w, x, y) && Good(w, y, x) && Allowed(w, Do(x, y, a))
    ensures Good(Put(w, x, y, Make(At(w, x, y), x, y, a)), y, x)
  {
    var s, peer, o := At(w, x, y), At(w, y, x), Make(At(w, x, y), x, y, a);
    DoKeepsMine(w, x, y, a);
    StepCloses(x, y, s, w.net, a);
    PeerFits(y, x, peer, s, o.side);
    TrafficIn(y, x, peer, s, o.side, w.net, o.message);
    PutSides(w, x, y, o);
  }

  lemma DoKeepsInv(w: World, x: ID, y: ID, a: Call)
    requires Inv(w) && Allowed(w, Do(x, y, a))
    ensures Inv(Put(w, x, y, Make(At(w, x, y), x, y, a)))
  {
    var o := Make(At(w, x, y), x, y, a);
    assert Good(w, x, y) && Good(w, y, x);
    DoKeepsMine(w, x, y, a);
    DoKeepsTheirs(w, x, y, a);
    forall a, b | Identity(a) && Identity(b) && a != b ensures Good(Put(w, x, y, o), a, b) {
      if Pair(a, b) != Pair(x, y) && Pair(a, b) != Pair(y, x) {
        assert Good(w, a, b);
        ElsewhereGood(w, x, y, o, a, b);
      }
    }
  }

  lemma RestartGood(w: World, w': World, x: ID, y: ID, s: Side, peer: Side)
    requires Good(w, x, y) && w'.net == w.net && At(w', x, y) == s && At(w', y, x) == peer
    requires s == At(w, x, y) || exists listed :: s == RestartSide(At(w, x, y), listed)
    requires peer == At(w, y, x) || exists listed :: peer == RestartSide(At(w, y, x), listed)
    ensures Good(w', x, y)
  {
    var s0, peer0 := At(w, x, y), At(w, y, x);
    if s != s0 {
      var listed :| s == RestartSide(s0, listed);
      RestartDerives(s0, listed);
      DerivedFits(x, y, s0, s, peer0.past.asked);
      RestingFits(x, y, s0, s, peer0);
    }
    PeerFits(x, y, s, peer0, peer);
    TrafficOut(x, y, s0, s, peer0, w.net, None);
    if peer != peer0 {
      assert peer.calls == NoCalls;
    }
  }

  lemma RestartKeepsInv(w: World, me: ID, listed: set<ID>)
    requires Inv(w)
    ensures Inv(Next(w, Restart(me, listed)))
  {
    var w' := Next(w, Restart(me, listed));
    forall x, y | Identity(x) && Identity(y) && x != y ensures Good(w', x, y) {
      RestartedOrNot(w, me, listed, x, y);
      RestartedOrNot(w, me, listed, y, x);
      assert Good(w, x, y);
      RestartGood(w, w', x, y, At(w', x, y), At(w', y, x));
    }
  }

  lemma RestartedOrNot(w: World, me: ID, listed: set<ID>, x: ID, y: ID)
    ensures var w' := Next(w, Restart(me, listed));
            || At(w', x, y) == At(w, x, y)
            || (x == me && At(w', x, y) == RestartSide(At(w, x, y), y in listed))
  {
    var w' := Next(w, Restart(me, listed));
    assert Pair(x, y) in w'.sides <==> Pair(x, y) in w.sides;
  }

  /** A step leaves a side alone, is one of its steps, or starts its process anew. */
  lemma SideAfter(w: World, a: Act, x: ID, y: ID)
    ensures var s, s' := At(w, x, y), At(Next(w, a), x, y);
            || s' == s
            || (a.Do? && a.me == x && a.them == y && s' == Make(s, x, y, a.call).side)
            || (a.Restart? && s' == RestartSide(s, y in a.listed))
    ensures var s' := At(Next(w, a), x, y);
            a.Do? && a.me == x && a.them == y && Make(At(w, x, y), x, y, a.call).status != Crashed
            ==> s' == Make(At(w, x, y), x, y, a.call).side
  {
    if a.Restart? {
      RestartedOrNot(w, a.me, a.listed, x, y);
    }
  }

  lemma NextKeepsInv(w: World, a: Act)
    requires Inv(w) && Allowed(w, a)
    ensures Inv(Next(w, a))
  {
    match a
    case Restart(me, listed) => RestartKeepsInv(w, me, listed);
    case Do(me, them, call) =>
      DoKeepsInv(w, me, them, call);
      var w' := w.(down := w.down + {me});
      forall x, y | Identity(x) && Identity(y) && x != y ensures Good(w', x, y) {
        assert Good(w, x, y) && At(w', x, y) == At(w, x, y) && At(w', y, x) == At(w, y, x);
      }
  }

  lemma {:induction false} RunKeepsInv(w: World, acts: seq<Act>)
    requires Inv(w) && Legal(w, acts)
    ensures Inv(Run(w, acts))
    decreases acts
  {
    if acts != [] {
      NextKeepsInv(w, acts[0]);
      RunKeepsInv(Next(w, acts[0]), acts[1..]);
    }
  }

  lemma StartInv()
    ensures Inv(Start)
  {
    forall x, y ensures Good(Start, x, y) {
      assert At(Start, x, y) == NoSide;
    }
  }
}
