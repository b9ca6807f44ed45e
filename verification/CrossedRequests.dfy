/**
 * Two parties that delete no request of each other: who answers whom when requests cross,
 * when neither ever does, when a request crashes, and when the sessions are one channel.
 */
module CrossedRequests {
  import opened Wrappers
  import opened Bytes
  import opened TieBreak
  import opened Handshake
  import opened HandshakeSteps
  import opened HandshakeRuns
  import opened HandshakeTheorems

  // ----- The invariant -----

  predicate IsOpened(p: Past) {
    p.origin.Some? && p.origin.value.Opened?
  }

  /** The party has taken the other's request on, and confirmed it or waits to. */
  predicate Engaged(l: Link) {
    l.received.Some? || l.confirmation.Some?
  }

  /** Nothing was done about a request of the other. */
  predicate Untouched(s: Side) {
    && !Engaged(s.link) && !IsOpened(s.past) && s.calls.held == multiset{} && s.calls.answers == map[]
  }

  /** Only the smaller party gives a request up, and only over one of the other's. */
  ghost predicate AskOrder(x: ID, y: ID, asked: seq<nat>, sent: Option<Sent>, seen: seq<Negotiation>) {
    (asked != [] && sent.None?) || |asked| >= 2 ==> Smaller(x, y) && seen != []
  }

  /** A first request is taken on once. */
  ghost predicate Quiet(s: Side, keys: seq<nat>) {
    && s.link.cleared.None?
    && (forall n <- s.calls.work :: !s.calls.work[n].stage.Removing?)
    && (|keys| <= 1 && (s.link.seen == [] || HasEarly(s.calls)) ==> Untouched(s))
  }

  /** Confirm calls work on the request that is there; while nothing is torn, the one that
      opened the session holds it. */
  ghost predicate AnswerOrder(s: Side) {
    && (forall r <- s.calls.answers :: s.link.received == Some(r))
    && (IsOpened(s.past) && !s.past.torn && s.link.received.Some? ==>
          s.link.received.value in s.calls.answers && !s.calls.answers[s.link.received.value].Locked?)
  }

  /** The larger party, once it asked, answers only if it asked late. */
  ghost predicate LateAnswer(x: ID, y: ID, s: Side) {
    !Smaller(x, y) && s.past.asked != [] && !s.past.late ==> s.link.confirmation.None? && !IsOpened(s.past)
  }

  /** Who answers as a partner has lost a process, or is the smaller one and became a
      partner by the other's answer. */
  ghost predicate AgainOnlyIf(x: ID, y: ID, s: Side) {
    s.past.again ==> s.link.session.Some? && (s.past.torn || (Smaller(x, y) && !IsOpened(s.past)))
  }

  ghost predicate LateSent(s: Side) {
    Engaged(s.link) && s.link.sent.Some? ==> s.past.late
  }

  /** What the smaller party does about the other's request: it answers exactly when no
      request of its own came between and its process did not end. */
  ghost predicate Engagement(s: Side) {
    && (s.past.crossed ==>
          && s.link.seen != [] && s.link.sent.Some? && Untouched(s)
          && forall n <- s.calls.work :: s.calls.work[n].stage.Storing?)
    && (s.past.lost ==> s.link.seen != [] && !HasEarly(s.calls) && Untouched(s))
    && (s.link.seen != [] && !HasEarly(s.calls) && !s.past.crossed && !s.past.lost ==> Engaged(s.link))
    && (IsStoring(s.calls) && s.link.sent.Some? ==> s.past.crossed)
  }

  /** Whether a Process is between consuming the sent request and AddReceived. */
  predicate Consumed(c: Calls) {
    exists n | n in c.work :: c.work[n].stage == Storing(true)
  }

  /** When the smaller party's registration outlives its request. */
  ghost predicate Registration(s: Side, peerConfirmation: Option<Message>) {
    && (s.link.listening.Some? && s.link.sent.None? && s.link.received.None? && s.link.session.None?
        ==> Consumed(s.calls))
    && (s.link.sent.Some? && s.link.listening.None? ==> peerConfirmation.Some?)
    && (Consumed(s.calls) && peerConfirmation.None? ==> s.link.listening.Some? && s.link.sent.None?)
  }

  ghost predicate Base(x: ID, y: ID, s: Side, peer: Side) {
    && AskOrder(x, y, s.past.asked, s.link.sent, s.link.seen)
    && Quiet(s, peer.past.asked)
    && AnswerOrder(s)
    && LateAnswer(x, y, s)
    && AgainOnlyIf(x, y, s)
    && LateSent(s)
  }

  ghost predicate Small(s: Side, peer: Side) {
    Engagement(s) && Registration(s, peer.link.confirmation)
  }

  ghost predicate Ordered(x: ID, y: ID, s: Side, peer: Side) {
    Base(x, y, s, peer) && (Smaller(x, y) ==> Small(s, peer))
  }

  // ----- At most one request of the other -----

  /** While a request of y waits, or x is the smaller, y has made no other. */
  lemma OneRequest(x: ID, y: ID, s: Side, peer: Side)
    requires Fit(x, y, s, peer) && Fit(y, x, peer, s) && Identity(x) && Identity(y) && x != y
    requires AskOrder(x, y, s.past.asked, s.link.sent, s.link.seen)
    requires AskOrder(y, x, peer.past.asked, peer.link.sent, peer.link.seen)
    ensures s.link.received.Some? || Smaller(x, y) ==> |peer.past.asked| <= 1
    ensures |peer.past.asked| >= 2 ==> s.link.sent.Some?
  {
    ExactlyOneResends(x, y);
    if |peer.past.asked| >= 2 {
      assert IsNegotiation(x, y, s.past.asked, peer.link.seen[0]);
    }
  }

  lemma OneKey(x: ID, y: ID, keys: seq<nat>, seen: seq<Negotiation>, n: Negotiation, k: Negotiation)
    requires TheirKeys(x, y, keys, seen) && |keys| <= 1 && n in seen && k in seen
    ensures n == k
  {
  }

  lemma OneReceived(x: ID, y: ID, keys: seq<nat>, q: Received, r: Received)
    requires |keys| <= 1 && IsReceived(y, x, keys, q) && IsReceived(y, x, keys, r)
    ensures q == r
  {
  }

  /** Then at most one request is being processed. */
  lemma OneWork(x: ID, y: ID, s: Side, keys: seq<nat>, n: Negotiation)
    requires RequestsFit(x, y, s, keys) && |keys| <= 1 && n in s.calls.work
    ensures s.calls.work == map[n := s.calls.work[n]]
    ensures HasEarly(s.calls) <==> !s.calls.work[n].stage.Confirming?
  {
    forall k <- s.calls.work ensures k == n {
      OneKey(x, y, keys, s.link.seen, n, k);
    }
  }

  lemma StageOf(c: Calls, n: Negotiation, v: Work)
    requires c.work == map[n := v]
    ensures HasEarly(c) <==> !v.stage.Confirming?
    ensures IsStoring(c) <==> v.stage.Storing?
    ensures Consumed(c) <==> v.stage == Storing(true)
  {
    assert c.work[n] == v;
  }

  lemma NoStage(c: Calls)
    requires c.work == map[]
    ensures !HasEarly(c) && !IsStoring(c) && !Consumed(c)
  {
  }

  // ----- Steps that touch neither requests nor answers -----

  ghost predicate Before(x: ID, y: ID, s: Side, peer: Side) {
    && Identity(x) && Identity(y) && x != y && !s.past.deleted
    && Fit(x, y, s, peer) && Fit(y, x, peer, s) && Ordered(x, y, s, peer) && Ordered(y, x, peer, s)
  }

  /** Only the session, the closings and the count of requests may differ. */
  ghost predicate Idles(s: Side, s': Side) {
    && s'.link == s.link.(session := s'.link.session) && (s.link.session.Some? ==> s'.link.session.Some?)
    && s'.calls == s.calls.(asking := s'.calls.asking, closing := s'.calls.closing)
    && (IsOpened(s'.past) <==> IsOpened(s.past))
    && s'.past == s.past.(origin := s'.past.origin, accepted := s'.past.accepted)
  }

  lemma IdleOrdered(x: ID, y: ID, s: Side, s': Side, peer: Side)
    requires Ordered(x, y, s, peer) && Idles(s, s')
    ensures Ordered(x, y, s', peer)
  {
  }

  lemma CloseIdles(x: ID, y: ID, s: Side, peer: Side, c: Closing)
    requires Sessions(x, y, s, peer)
    ensures Idles(s, Close(s, c).side)
  {
  }

  lemma AskStoreIdles(s: Side, me: ID, them: ID, k: nat, goes: bool)
    requires AskStore(s, me, them, k, goes).side.past.asked == s.past.asked
    ensures Idles(s, AskStore(s, me, them, k, goes).side)
  {
  }

  // ----- Asking -----

  /** s' is s after a new request was stored. */
  ghost predicate Asks(x: ID, y: ID, s: Side, s': Side, k: nat) {
    && s.link.sent.None? && s.link.received.None? && s.link.listening.None?
    && s'.link == s.link.(sent := Some(SentOf(x, y, k)), listening := Some(SentOf(x, y, k)), cleared := None)
    && s'.calls == s.calls.(asking := s'.calls.asking)
    && s'.past == s.past.(asked := s.past.asked + [k], late := s.past.late || s.link.session.Some?,
                          crossed := s.past.crossed || IsStoring(s.calls))
  }

  lemma AskStoreAsks(s: Side, x: ID, y: ID, k: nat, goes: bool)
    requires AskStore(s, x, y, k, goes).side.past.asked != s.past.asked
    ensures Asks(x, y, s, AskStore(s, x, y, k, goes).side, k)
  {
  }

  lemma AskBase(x: ID, y: ID, s: Side, s': Side, peer: Side, k: nat)
    requires Before(x, y, s, peer) && Asks(x, y, s, s', k)
    ensures Base(x, y, s', peer)
  {
  }

  lemma AskSmall(x: ID, y: ID, s: Side, s': Side, peer: Side, k: nat)
    requires Before(x, y, s, peer) && Asks(x, y, s, s', k) && Smaller(x, y)
    ensures Small(s', peer)
  {
    OneRequest(x, y, s, peer);
    StoringAlone(x, y, s, peer.past.asked);
    assert IsStoring(s.calls) ==> Untouched(s);
    AskCrosses(x, y, s, s', peer, k);
  }

  /** A request stored while one of the other's is about to be stored crosses it. */
  lemma AskCrosses(x: ID, y: ID, s: Side, s': Side, peer: Side, k: nat)
    requires Small(s, peer) && Asks(x, y, s, s', k)
    requires IsStoring(s.calls) ==>
               Untouched(s) && s.link.seen != [] && forall n <- s.calls.work :: s.calls.work[n].stage.Storing?
    ensures Small(s', peer)
  {
  }

  lemma StoringAlone(x: ID, y: ID, s: Side, keys: seq<nat>)
    requires RequestsFit(x, y, s, keys) && |keys| <= 1
    ensures HasEarly(s.calls) ==> s.link.seen != []
    ensures IsStoring(s.calls) ==>
              HasEarly(s.calls) && s.link.seen != [] && forall n <- s.calls.work :: s.calls.work[n].stage.Storing?
  {
    if IsStoring(s.calls) {
      var n :| n in s.calls.work && s.calls.work[n].stage.Storing?;
      OneWork(x, y, s, keys, n);
    }
  }

  lemma AskStoreOrdered(x: ID, y: ID, s: Side, peer: Side, k: nat, goes: bool)
    requires Before(x, y, s, peer)
    ensures Ordered(x, y, AskStore(s, x, y, k, goes).side, peer)
  {
    var s' := AskStore(s, x, y, k, goes).side;
    if s'.past.asked == s.past.asked {
      AskStoreIdles(s, x, y, k, goes);
      IdleOrdered(x, y, s, s', peer);
    } else {
      AskStoreAsks(s, x, y, k, goes);
      AskBase(x, y, s, s', peer, k);
      if Smaller(x, y) {
        AskSmall(x, y, s, s', peer, k);
      }
    }
  }

  // ----- Processing a request -----

  /** s' is s after a new request was taken in. */
  ghost predicate Takes(s: Side, s': Side, m: Message) {
    && m.RequestMsg? && NegotiationOf(m) !in s.link.seen
    && s'.link == s.link.(seen := s.link.seen + [NegotiationOf(m)])
    && s'.calls == s.calls.(work := s.calls.work[NegotiationOf(m) := Work(m, Clearing)])
    && s'.past == s.past
  }

  lemma FirstTaken(x: ID, y: ID, s: Side, keys: seq<nat>, m: Message)
    requires RequestsFit(x, y, s, keys) && IsRequest(y, x, keys, m) && NegotiationOf(m) !in s.link.seen && |keys| <= 1
    ensures s.link.seen == [] && s.calls.work == map[]
  {
    if s.link.seen != [] && IsNegotiation(y, x, keys, s.link.seen[0]) {
      OneKey(x, y, keys, [s.link.seen[0], NegotiationOf(m)], s.link.seen[0], NegotiationOf(m));
    }
  }

  lemma TakesBase(x: ID, y: ID, s: Side, s': Side, peer: Side, m: Message)
    requires Before(x, y, s, peer) && IsRequest(y, x, peer.past.asked, m) && Takes(s, s', m)
    ensures Base(x, y, s', peer)
  {
    if |peer.past.asked| <= 1 {
      FirstTaken(x, y, s, peer.past.asked, m);
    }
  }

  lemma TakesSmall(x: ID, y: ID, s: Side, s': Side, peer: Side, m: Message)
    requires Before(x, y, s, peer) && IsRequest(y, x, peer.past.asked, m) && Takes(s, s', m) && Smaller(x, y)
    ensures Small(s', peer)
  {
    OneRequest(x, y, s, peer);
    FirstTaken(x, y, s, peer.past.asked, m);
    NoStage(s.calls);
    StageOf(s'.calls, NegotiationOf(m), Work(m, Clearing));
  }

  lemma TakeInOrdered(x: ID, y: ID, s: Side, peer: Side, m: Message)
    requires Before(x, y, s, peer) && IsRequest(y, x, peer.past.asked, m)
    ensures Ordered(x, y, TakeIn(s, x, m).side, peer)
  {
    var s' := TakeIn(s, x, m).side;
    if s' != s {
      assert Takes(s, s', m);
      TakesBase(x, y, s, s', peer, m);
      if Smaller(x, y) {
        TakesSmall(x, y, s, s', peer, m);
      }
    }
  }

  /** s' is s after the processing of n went on, with the records l. */
  ghost predicate Goes(s: Side, s': Side, n: Negotiation, l: Link, stage: Stage) {
    n in s.calls.work && s' == AtStage(s.(link := l), n, stage)
  }

  lemma ClearOldGoes(x: ID, y: ID, s: Side, peer: Side, n: Negotiation)
    requires Before(x, y, s, peer) && n in s.calls.work && s.calls.work[n].stage.Clearing?
    ensures Goes(s, ClearOld(s, n).side, n, s.link, Resolving) && ClearOld(s, n).status != Crashed
    ensures s.link.received.None?
  {
    OneRequest(x, y, s, peer);
    assert HasEarly(s.calls);
  }

  lemma ClearOldOrdered(x: ID, y: ID, s: Side, peer: Side, n: Negotiation)
    requires Before(x, y, s, peer) && n in s.calls.work && s.calls.work[n].stage.Clearing?
    ensures Ordered(x, y, ClearOld(s, n).side, peer)
  {
    var s' := ClearOld(s, n).side;
    ClearOldGoes(x, y, s, peer, n);
    GoesBase(x, y, s, s', peer, n, s.link, Resolving);
    if Smaller(x, y) {
      OneRequest(x, y, s, peer);
      OneWork(x, y, s, peer.past.asked, n);
      ClearedSmall(s, s', peer, n);
    }
  }

  lemma ClearedSmall(s: Side, s': Side, peer: Side, n: Negotiation)
    requires Small(s, peer) && n in s.calls.work && s.calls.work == map[n := s.calls.work[n]]
    requires s.calls.work[n].stage.Clearing? && Goes(s, s', n, s.link, Resolving)
    ensures Small(s', peer)
  {
    StageOf(s.calls, n, s.calls.work[n]);
    StageOf(s'.calls, n, s.calls.work[n].(stage := Resolving));
  }

  /** Going on before AddReceived, the sent request may be consumed. */
  lemma GoesBase(x: ID, y: ID, s: Side, s': Side, peer: Side, n: Negotiation, l: Link, stage: Stage)
    requires Before(x, y, s, peer) && Goes(s, s', n, l, stage)
    requires !s.calls.work[n].stage.Confirming? && !stage.Confirming? && !stage.Removing?
    requires l == s.link || (l == TakeSent(s.link) && Smaller(x, y))
    ensures Base(x, y, s', peer)
  {
    assert HasEarly(s.calls);
    assert n in s.link.seen;
  }

  lemma ResolveOrdered(x: ID, y: ID, s: Side, peer: Side, n: Negotiation)
    requires Before(x, y, s, peer) && n in s.calls.work && s.calls.work[n].stage.Resolving?
    ensures Ordered(x, y, Resolve(s, x, n).side, peer)
  {
    var o := Resolve(s, x, n);
    assert s.calls.work[n].m.sender == y;
    if o.status == Bailed {
      DoneBase(x, y, s, peer, n);
    } else if s.link.sent.None? {
      GoesBase(x, y, s, o.side, peer, n, s.link, Storing(false));
    } else {
      GoesBase(x, y, s, o.side, peer, n, TakeSent(s.link), Storing(true));
    }
    if Smaller(x, y) {
      ResolveSmall(x, y, s, peer, n);
    }
  }

  lemma ResolveSmall(x: ID, y: ID, s: Side, peer: Side, n: Negotiation)
    requires Before(x, y, s, peer) && n in s.calls.work && s.calls.work[n].stage.Resolving? && Smaller(x, y)
    ensures Small(Resolve(s, x, n).side, peer)
  {
    var s' := Resolve(s, x, n).side;
    OneRequest(x, y, s, peer);
    OneWork(x, y, s, peer.past.asked, n);
    StageOf(s.calls, n, s.calls.work[n]);
    assert s.calls.work[n].m.sender == y;
    var stage := Storing(s.link.sent.Some?);
    StageOf(s'.calls, n, s.calls.work[n].(stage := stage));
  }

  lemma DoneBase(x: ID, y: ID, s: Side, peer: Side, n: Negotiation)
    requires Before(x, y, s, peer) && n in s.calls.work
    ensures Base(x, y, Done(s, n), peer)
  {
    assert n in s.link.seen;
  }

  lemma DoneOrdered(x: ID, y: ID, s: Side, peer: Side, n: Negotiation)
    requires Before(x, y, s, peer) && n in s.calls.work && s.calls.work[n].stage.Confirming?
    ensures Ordered(x, y, Done(s, n), peer)
  {
    DoneBase(x, y, s, peer, n);
    if Smaller(x, y) {
      OneRequest(x, y, s, peer);
      OneWork(x, y, s, peer.past.asked, n);
      StageOf(s.calls, n, s.calls.work[n]);
      NoStage(Done(s, n).calls);
    }
  }

  lemma StoreNewOrdered(x: ID, y: ID, s: Side, peer: Side, n: Negotiation)
    requires Before(x, y, s, peer) && n in s.calls.work && s.calls.work[n].stage.Storing?
    ensures Ordered(x, y, StoreNew(s, n).side, peer)
  {
    OneRequest(x, y, s, peer);
    assert HasEarly(s.calls) && n in s.link.seen;
    if |peer.past.asked| <= 1 {
      OneWork(x, y, s, peer.past.asked, n);
      StageOf(s.calls, n, s.calls.work[n]);
      StoreFirst(x, y, s, peer, n);
    } else {
      DoneBase(x, y, s, peer, n);
    }
  }

  lemma StoreFirst(x: ID, y: ID, s: Side, peer: Side, n: Negotiation)
    requires Before(x, y, s, peer) && n in s.calls.work && s.calls.work[n].stage.Storing?
    requires s.calls.work == map[n := s.calls.work[n]] && |peer.past.asked| <= 1
    requires Untouched(s) && s.link.seen != [] && HasEarly(s.calls) && IsStoring(s.calls)
    ensures Ordered(x, y, StoreNew(s, n).side, peer)
  {
    var o := StoreNew(s, n);
    if o.status == AutoConfirmed {
      StageOf(o.side.calls, n, s.calls.work[n].(stage := Confirming));
    } else {
      NoStage(o.side.calls);
    }
  }

  // ----- Answering -----

  lemma LookOrdered(x: ID, y: ID, s: Side, peer: Side, contactKey: DhPub, healthy: bool)
    requires Before(x, y, s, peer)
    ensures Ordered(x, y, Look(s, contactKey, healthy).side, peer)
  {
    OneRequest(x, y, s, peer);
  }

  lemma LockOrdered(x: ID, y: ID, s: Side, peer: Side, h: Held)
    requires Before(x, y, s, peer)
    ensures Ordered(x, y, Lock(s, h).side, peer)
  {
    OneRequest(x, y, s, peer);
    if s.link.received.Some? && h in s.calls.held {
      OneReceived(x, y, peer.past.asked, h.r, s.link.received.value);
    }
    LockChanges(s, h);
    LockedOrdered(x, y, s, Lock(s, h).side, peer);
  }

  /** A lock takes a request that is held, and adds nothing else. */
  lemma LockChanges(s: Side, h: Held)
    ensures var s' := Lock(s, h).side;
            && (s'.calls.answers == s.calls.answers
                || (h in s.calls.held && s.link.received.Some? && h.r !in s.calls.answers
                    && s'.calls.answers == s.calls.answers[h.r := Locked]))
            && (s.calls.held == multiset{} ==> s' == s)
  {
  }

  lemma LockedOrdered(x: ID, y: ID, s: Side, s': Side, peer: Side)
    requires Ordered(x, y, s, peer) && s' == s.(calls := s.calls.(held := s'.calls.held, answers := s'.calls.answers))
    requires s'.calls.answers == s.calls.answers
             || (s.link.received.Some? && s.link.received.value !in s.calls.answers
                 && s'.calls.answers == s.calls.answers[s.link.received.value := Locked])
    requires s.calls.held == multiset{} ==> s' == s
    ensures Ordered(x, y, s', peer)
  {
  }

  lemma OpenOrdered(x: ID, y: ID, s: Side, peer: Side, r: Received, k: nat)
    requires Before(x, y, s, peer)
    ensures Ordered(x, y, Open(s, x, y, r, k).side, peer)
  {
    OneRequest(x, y, s, peer);
  }

  lemma SendOrdered(x: ID, y: ID, s: Side, peer: Side, r: Received)
    requires Before(x, y, s, peer)
    ensures Ordered(x, y, Send(s, r).side, peer)
  {
    OneRequest(x, y, s, peer);
  }

  lemma ReleaseOrdered(x: ID, y: ID, s: Side, peer: Side, r: Received)
    requires Before(x, y, s, peer)
    ensures Ordered(x, y, Release(s, r).side, peer)
  {
    OneRequest(x, y, s, peer);
  }

  // ----- Confirmations and restarts -----

  lemma PopOrdered(x: ID, y: ID, s: Side, peer: Side, m: Message)
    requires Ordered(x, y, s, peer) && peer.link.confirmation.Some?
    ensures Ordered(x, y, Pop(s, m).side, peer)
  {
  }

  lemma RestartOrdered(x: ID, y: ID, s: Side, peer: Side, listed: bool)
    requires Before(x, y, s, peer)
    ensures Ordered(x, y, RestartSide(s, listed), peer)
  {
    NoStage(NoCalls);
  }

  // ----- Every run -----

  predicate Answering(a: Call) {
    a.DoLook? || a.DoLock? || a.DoOpen? || a.DoSend? || a.DoRelease?
  }

  lemma AnsweringOrdered(x: ID, y: ID, s: Side, peer: Side, a: Call)
    requires Before(x, y, s, peer) && Answering(a)
    ensures Ordered(x, y, Make(s, x, y, a).side, peer)
  {
    match a
    case DoLook(contactKey, healthy) => LookOrdered(x, y, s, peer, contactKey, healthy);
    case DoLock(h) => LockOrdered(x, y, s, peer, h);
    case DoOpen(r, k) => OpenOrdered(x, y, s, peer, r, k);
    case DoSend(r) => SendOrdered(x, y, s, peer, r);
    case DoRelease(r) => ReleaseOrdered(x, y, s, peer, r);
  }

  lemma CloseOrdered(x: ID, y: ID, s: Side, peer: Side, c: Closing)
    requires Before(x, y, s, peer)
    ensures Ordered(x, y, Close(s, c).side, peer)
  {
    CloseIdles(x, y, s, peer, c);
    IdleOrdered(x, y, s, Close(s, c).side, peer);
  }

  lemma AskCheckOrdered(x: ID, y: ID, s: Side, peer: Side)
    requires Before(x, y, s, peer)
    ensures Ordered(x, y, AskCheck(s).side, peer)
  {
    IdleOrdered(x, y, s, AskCheck(s).side, peer);
  }

  lemma DeleteOrdered(x: ID, y: ID, s: Side, peer: Side, mine: bool, theirs: bool)
    requires Before(x, y, s, peer)
    ensures Delete(s, mine, theirs).side.past.deleted || Ordered(x, y, Delete(s, mine, theirs).side, peer)
  {
  }

  lemma StepOrdered(x: ID, y: ID, s: Side, peer: Side, a: Call)
    requires Before(x, y, s, peer) && !a.DoProceed? && !a.DoTakeIn? && !Answering(a)
    requires a.DoPop? ==> peer.link.confirmation.Some?
    ensures var o := Make(s, x, y, a); o.side.past.deleted || Ordered(x, y, o.side, peer)
  {
    match a
    case DoAskCheck => AskCheckOrdered(x, y, s, peer);
    case DoAskStore(k, goes) => AskStoreOrdered(x, y, s, peer, k, goes);
    case DoPop(m) => PopOrdered(x, y, s, peer, m);
    case DoClose(c) => CloseOrdered(x, y, s, peer, c);
    case DoDelete(mine, theirs) => DeleteOrdered(x, y, s, peer, mine, theirs);
  }

  lemma ProceedOrdered(x: ID, y: ID, s: Side, peer: Side, n: Negotiation, healthy: bool)
    requires Before(x, y, s, peer)
    ensures Ordered(x, y, Proceed(s, x, n, healthy).side, peer)
    ensures Proceed(s, x, n, healthy).status != Crashed
  {
    if n in s.calls.work {
      match s.calls.work[n].stage
      case Clearing =>
        ClearOldOrdered(x, y, s, peer, n);
        ClearOldGoes(x, y, s, peer, n);
      case Resolving => ResolveOrdered(x, y, s, peer, n);
      case Storing(_) => StoreNewOrdered(x, y, s, peer, n);
      case Confirming =>
        DoneOrdered(x, y, s, peer, n);
        DoneBefore(x, y, s, peer, n);
        LookOrdered(x, y, Done(s, n), peer, s.calls.work[n].m.dhPub, healthy);
      case Removing(_) => assert false;
    }
  }

  lemma DoneBefore(x: ID, y: ID, s: Side, peer: Side, n: Negotiation)
    requires Before(x, y, s, peer) && Ordered(x, y, Done(s, n), peer)
    ensures Before(x, y, Done(s, n), peer)
  {
    DoneFits(x, y, s, peer, n);
    PeerFits(y, x, peer, s, Done(s, n));
  }

  lemma DoneFits(x: ID, y: ID, s: Side, peer: Side, n: Negotiation)
    requires Fit(x, y, s, peer)
    ensures Fit(x, y, Done(s, n), peer) && Grows(s, Done(s, n))
  {
    var s' := Done(s, n);
    assert Derives(s, s');
    DerivedFits(x, y, s, s', peer.past.asked);
    RestingFits(x, y, s, s', peer);
  }

  lemma PeerOrdered(x: ID, y: ID, s: Side, peer: Side, peer': Side)
    requires Ordered(x, y, s, peer) && Grows(peer, peer')
    ensures Ordered(x, y, s, peer')
  {
  }

  /** Neither of the two has deleted a request of the other. */
  ghost predicate Undeleted(w: World, x: ID, y: ID) {
    !At(w, x, y).past.deleted && !At(w, y, x).past.deleted
  }

  ghost predicate PairOrdered(w: World, x: ID, y: ID) {
    Undeleted(w, x, y) ==> Ordered(x, y, At(w, x, y), At(w, y, x)) && Ordered(y, x, At(w, y, x), At(w, x, y))
  }

  ghost predicate AllOrdered(w: World) {
    forall x, y :: Identity(x) && Identity(y) && x != y ==> PairOrdered(w, x, y)
  }

  lemma MakeOrdered(w: World, x: ID, y: ID, a: Call)
    requires Good(w, x, y) && Good(w, y, x) && PairOrdered(w, x, y) && Allowed(w, Do(x, y, a))
    requires Undeleted(w, x, y) && !Make(At(w, x, y), x, y, a).side.past.deleted
    ensures Ordered(x, y, Make(At(w, x, y), x, y, a).side, At(w, y, x))
  {
    var s, peer := At(w, x, y), At(w, y, x);
    if a.DoProceed? {
      ProceedOrdered(x, y, s, peer, a.n, a.healthy);
    } else if a.DoTakeIn? {
      TakeInOrdered(x, y, s, peer, a.m);
    } else if Answering(a) {
      AnsweringOrdered(x, y, s, peer, a);
    } else {
      StepOrdered(x, y, s, peer, a);
    }
  }

  lemma DoKeepsOrder(w: World, x: ID, y: ID, a: Call)
    requires Good(w, x, y) && Good(w, y, x) && PairOrdered(w, x, y) && Allowed(w, Do(x, y, a))
    ensures PairOrdered(Put(w, x, y, Make(At(w, x, y), x, y, a)), x, y)
  {
    var s, peer, o := At(w, x, y), At(w, y, x), Make(At(w, x, y), x, y, a);
    DoKeepsMine(w, x, y, a);
    PutSides(w, x, y, o);
    if !o.side.past.deleted && !peer.past.deleted {
      MakeOrdered(w, x, y, a);
      PeerOrdered(y, x, peer, s, o.side);
    }
  }

  lemma RestartKeepsOrder(w: World, me: ID, listed: set<ID>, x: ID, y: ID)
    requires Good(w, x, y) && Good(w, y, x) && PairOrdered(w, x, y) && Identity(x) && Identity(y) && x != y
    ensures PairOrdered(Next(w, Restart(me, listed)), x, y)
  {
    RestartedOrNot(w, me, listed, x, y);
    RestartedOrNot(w, me, listed, y, x);
    var s, peer, s', peer' := At(w, x, y), At(w, y, x),
      At(Next(w, Restart(me, listed)), x, y), At(Next(w, Restart(me, listed)), y, x);
    assert s' == s || peer' == peer;
    if Undeleted(w, x, y) {
      if s' != s {
        RestartOrdered(x, y, s, peer, y in listed);
        PeerOrdered(y, x, peer, s, s');
      } else if peer' != peer {
        RestartOrdered(y, x, peer, s, x in listed);
        PeerOrdered(x, y, s, peer, peer');
      }
    }
  }

  lemma SamePair(w: World, w': World, x: ID, y: ID)
    requires PairOrdered(w, x, y) && At(w', x, y) == At(w, x, y) && At(w', y, x) == At(w, y, x)
    ensures PairOrdered(w', x, y)
  {
  }

  lemma FlipPair(w: World, x: ID, y: ID)
    requires PairOrdered(w, x, y)
    ensures PairOrdered(w, y, x)
  {
  }

  lemma NextKeepsOrder(w: World, a: Act, x: ID, y: ID)
    requires Inv(w) && AllOrdered(w) && Allowed(w, a) && Identity(x) && Identity(y) && x != y
    ensures PairOrdered(Next(w, a), x, y)
  {
    assert Good(w, x, y) && Good(w, y, x) && PairOrdered(w, x, y);
    match a
    case Restart(me, listed) => RestartKeepsOrder(w, me, listed, x, y);
    case Do(me, them, call) =>
      var o := Make(At(w, me, them), me, them, call);
      if o.status != Crashed && Pair(me, them) == Pair(x, y) {
        DoKeepsOrder(w, x, y, call);
      } else if o.status != Crashed && Pair(me, them) == Pair(y, x) {
        DoKeepsOrder(w, y, x, call);
        FlipPair(Next(w, a), y, x);
      } else {
        SamePair(w, Next(w, a), x, y);
      }
  }

  lemma {:induction false} RunKeepsOrder(w: World, acts: seq<Act>)
    requires Inv(w) && AllOrdered(w) && Legal(w, acts)
    ensures Inv(Run(w, acts)) && AllOrdered(Run(w, acts))
    decreases acts
  {
    if acts != [] {
      NextKeepsInv(w, acts[0]);
      forall x, y | Identity(x) && Identity(y) && x != y ensures PairOrdered(Next(w, acts[0]), x, y) {
        NextKeepsOrder(w, acts[0], x, y);
      }
      RunKeepsOrder(Next(w, acts[0]), acts[1..]);
    }
  }

  lemma RunIsOrdered(acts: seq<Act>, x: ID, y: ID)
    requires Legal(Start, acts) && Identity(x) && Identity(y) && x != y
    ensures var w := Run(Start, acts); Good(w, x, y) && Good(w, y, x) && PairOrdered(w, x, y)
  {
    StartOrdered();
    RunKeepsOrder(Start, acts);
  }

  lemma StartOrdered()
    ensures Inv(Start) && AllOrdered(Start)
  {
    StartInv();
    forall a, b ensures PairOrdered(Start, a, b) {
      assert At(Start, a, b) == NoSide && At(Start, b, a) == NoSide;
      NoStage(NoCalls);
    }
  }

  // ----- Crossed requests -----

  /** Let x be the smaller of two parties that delete no request. Once x has processed a
      request of y, it has taken it on exactly when it stored no request of its own between
      its look at the sent request and AddReceived and its process did not end before
      AddReceived; its own request is then gone, unless it asked again as a partner. y keeps
      its one request for good and never takes one of x's on after asking. */
  lemma CrossedRequestsResolve(acts: seq<Act>, x: ID, y: ID)
    requires Legal(Start, acts) && Identity(x) && Identity(y) && Smaller(x, y)
    requires Undeleted(Run(Start, acts), x, y)
    ensures var s, t := At(Run(Start, acts), x, y), At(Run(Start, acts), y, x);
            && (s.link.seen != [] && !HasEarly(s.calls) ==>
                  (Engaged(s.link) <==> !s.past.crossed && !s.past.lost))
            && (Engaged(s.link) && !s.past.late ==> s.link.sent.None?)
            && (t.past.asked != [] ==>
                  && |t.past.asked| == 1 && t.link.sent == Some(SentOf(y, x, t.past.asked[0]))
                  && t.link.received.None? && (!t.past.late ==> t.link.confirmation.None?))
  {
    RunIsOrdered(acts, x, y);
    ExactlyOneResends(x, y);
    if At(Run(Start, acts), y, x).past.asked != [] {
      LargerKeeps(y, x, At(Run(Start, acts), y, x), At(Run(Start, acts), x, y));
    }
  }

  lemma LargerKeeps(x: ID, y: ID, s: Side, peer: Side)
    requires Fit(x, y, s, peer) && Ordered(x, y, s, peer) && !Smaller(x, y) && s.past.asked != []
    ensures |s.past.asked| == 1 && s.link.sent == Some(SentOf(x, y, s.past.asked[0]))
    ensures s.link.received.None? && (!s.past.late ==> s.link.confirmation.None?)
  {
  }

  /** What x missed stays missed, and who does not ask does not become late. */
  ghost predicate Remembers(p: Past, p': Past) {
    && (p.crossed || p.lost ==> p'.crossed || p'.lost)
    && |p.asked| <= |p'.asked| && (p'.late && !p.late ==> |p.asked| < |p'.asked|)
  }

  lemma MakeRemembers(s: Side, me: ID, them: ID, a: Call)
    ensures Remembers(s.past, Make(s, me, them, a).side.past)
  {
    match a
    case DoAskStore(k, goes) =>
    case _ =>
  }

  lemma {:induction false} RunRemembers(w: World, acts: seq<Act>, x: ID, y: ID)
    ensures Remembers(At(w, x, y).past, At(Run(w, acts), x, y).past)
    decreases acts
  {
    if acts != [] {
      SideAfter(w, acts[0], x, y);
      if acts[0].Do? {
        MakeRemembers(At(w, x, y), x, y, acts[0].call);
      }
      RunRemembers(Next(w, acts[0]), acts[1..], x, y);
    }
  }

  lemma DeadNow(x: ID, y: ID, s: Side, t: Side)
    requires Fit(x, y, s, t) && Fit(y, x, t, s) && Ordered(x, y, s, t) && Ordered(y, x, t, s)
    requires Smaller(x, y) && (s.past.crossed || s.past.lost) && !t.past.late
    ensures t.past.asked != []
    ensures s.link.session.None? && t.link.session.None? && s.link.confirmation.None? && t.link.confirmation.None?
  {
    assert IsNegotiation(y, x, t.past.asked, s.link.seen[0]);
  }

  /** If it has not taken it on, and y did not ask as a partner, then neither is a partner,
      and neither ever becomes one, whatever more they do without deleting a request. */
  lemma CrossingStaysDead(acts: seq<Act>, more: seq<Act>, x: ID, y: ID)
    requires Legal(Start, acts) && Legal(Run(Start, acts), more) && Identity(x) && Identity(y) && Smaller(x, y)
    requires Undeleted(Run(Start, acts), x, y) && Undeleted(Run(Run(Start, acts), more), x, y)
    requires var s, t := At(Run(Start, acts), x, y), At(Run(Start, acts), y, x);
             (s.past.crossed || s.past.lost) && !t.past.late
    ensures var s, t := At(Run(Run(Start, acts), more), x, y), At(Run(Run(Start, acts), more), y, x);
            s.link.session.None? && t.link.session.None? && s.link.confirmation.None? && t.link.confirmation.None?
  {
    var w := Run(Start, acts);
    var w' := Run(w, more);
    StartOrdered();
    RunKeepsOrder(Start, acts);
    RunKeepsOrder(w, more);
    RunRemembers(w, more, x, y);
    RunRemembers(w, more, y, x);
    assert Good(w, x, y) && Good(w, y, x) && PairOrdered(w, x, y);
    DeadNow(x, y, At(w, x, y), At(w, y, x));
    assert Good(w', x, y) && Good(w', y, x) && PairOrdered(w', x, y);
    ExactlyOneResends(x, y);
    LargerKeeps(y, x, At(w', y, x), At(w', x, y));
    DeadNow(x, y, At(w', x, y), At(w', y, x));
  }

  /** Without deletions and processes that end within a confirm call, the sessions of two
      partners are one channel exactly when not both have answered; and both have answered
      only if the larger asked as a partner. */
  lemma PairedUnlessBothAnswered(acts: seq<Act>, x: ID, y: ID)
    requires Legal(Start, acts) && Identity(x) && Identity(y) && Smaller(x, y)
    requires Undeleted(Run(Start, acts), x, y) && BothPartners(Run(Start, acts), x, y)
    requires !At(Run(Start, acts), x, y).past.torn && !At(Run(Start, acts), y, x).past.torn
    ensures var s, t := At(Run(Start, acts), x, y), At(Run(Start, acts), y, x);
            && (Paired(s.link.session.value, t.link.session.value) <==> !(IsOpened(s.past) && IsOpened(t.past)))
            && (IsOpened(s.past) && IsOpened(t.past) ==> t.past.late)
  {
    RunIsOrdered(acts, x, y);
    ExactlyOneResends(x, y);
    PairedExactly(acts, x, y);
  }

  // ----- Crashes -----

  /** Without deletions a request of the larger party never crashes. One of the smaller
      crashes exactly when it falls between consuming the sent request and AddReceived, with
      the registration still there; which it is, unless the larger asked as a partner. */
  lemma CrashesExactly(acts: seq<Act>, x: ID, y: ID, k: nat, goes: bool)
    requires Legal(Start, acts) && Identity(x) && Identity(y) && x != y
    requires Undeleted(Run(Start, acts), x, y)
    ensures var s, t := At(Run(Start, acts), x, y), At(Run(Start, acts), y, x);
            var crashes := Request(s.link, x, y, k, goes).status == Crashed;
            && (!Smaller(x, y) ==> !crashes)
            && (Smaller(x, y) ==>
                  (crashes <==> && Consumed(s.calls) && s.link.listening.Some?
                                && s.link.sent.None? && s.link.session.None?))
            && (Smaller(x, y) && !t.past.late ==> (crashes <==> Consumed(s.calls)))
  {
    RunIsOrdered(acts, x, y);
    var s, t := At(Run(Start, acts), x, y), At(Run(Start, acts), y, x);
    ExactlyOneResends(x, y);
    OneRequest(x, y, s, t);
    if Consumed(s.calls) {
      ConsumedSees(x, y, s, t);
    }
  }

  lemma ConsumedSees(x: ID, y: ID, s: Side, t: Side)
    requires Fit(x, y, s, t) && Consumed(s.calls)
    ensures HasEarly(s.calls) && t.past.asked != []
  {
    var n :| n in s.calls.work && s.calls.work[n].stage == Storing(true);
  }

  /** No other step crashes, and a request that passed its partner check before x became a
      partner crashes in that window or after it. */
  lemma NothingElseCrashes(acts: seq<Act>, x: ID, y: ID, a: Call)
    requires Legal(Start, acts) && Identity(x) && Identity(y) && x != y
    requires Undeleted(Run(Start, acts), x, y)
    ensures var s := At(Run(Start, acts), x, y);
            Make(s, x, y, a).status == Crashed ==>
              && a.DoAskStore? && Smaller(x, y) && s.link.seen != [] && s.link.received.None?
              && (Consumed(s.calls) || s.link.session.Some?)
  {
    RunIsOrdered(acts, x, y);
    var s, t := At(Run(Start, acts), x, y), At(Run(Start, acts), y, x);
    if a.DoProceed? {
      ProceedOrdered(x, y, s, t, a.n, a.healthy);
    } else if Make(s, x, y, a).status == Crashed {
      OnlyAskCrashes(s, x, y, a);
      StaleRegistration(x, y, s, t);
    }
  }

  lemma OnlyAskCrashes(s: Side, me: ID, them: ID, a: Call)
    requires !a.DoProceed? && Make(s, me, them, a).status == Crashed
    ensures a.DoAskStore? && s.link.sent.None? && s.link.received.None? && s.link.listening.Some?
  {
  }

  lemma StaleRegistration(x: ID, y: ID, s: Side, t: Side)
    requires Fit(x, y, s, t) && Ordered(x, y, s, t)
    requires s.link.sent.None? && s.link.received.None? && s.link.listening.Some?
    ensures Smaller(x, y) && s.link.seen != [] && (Consumed(s.calls) || s.link.session.Some?)
  {
  }

  // ----- How often -----

  /** Without deletions the smaller party brings at most one request of the larger to an
      end, so it auto-confirms at most once. */
  lemma OneEnd(acts: seq<Act>, x: ID, y: ID)
    requires Legal(Start, acts) && Identity(x) && Identity(y) && Smaller(x, y)
    requires Undeleted(Run(Start, acts), x, y)
    ensures Tally(Start, acts, x, y, AllEnds) <= 1
  {
    AtMostOneOfEach(acts, x, y);
    CrossedRequestsResolve(acts, x, y);
  }
}
