/**
 * Runs of the handshake in which it does otherwise than promised, because the calls of its
 * operations interleave, a process ends between them, or a request is deleted.
 */
module HandshakeDepartures {
  import opened Wrappers
  import opened Bytes
  import opened TieBreak
  import opened Handshake
  import opened HandshakeSteps
  import opened HandshakeRuns
  import opened CrossedRequests

  /** Whether a run leads there. */
  ghost predicate Reached(w: World) {
    exists acts :: Legal(Start, acts) && w == Run(Start, acts)
  }

  lemma StartReached()
    ensures Reached(Start)
  {
    assert Legal(Start, []) && Start == Run(Start, []);
  }

  lemma {:induction false} RunOneMore(w: World, acts: seq<Act>, a: Act)
    requires Legal(w, acts) && Allowed(Run(w, acts), a)
    ensures Legal(w, acts + [a]) && Run(w, acts + [a]) == Next(Run(w, acts), a)
    decreases acts
  {
    if acts == [] {
      assert (acts + [a])[1..] == [];
    } else {
      assert (acts + [a])[1..] == acts[1..] + [a];
      RunOneMore(Next(w, acts[0]), acts[1..], a);
    }
  }

  lemma ReachedNext(w: World, a: Act)
    requires Reached(w) && Allowed(w, a)
    ensures Reached(Next(w, a))
  {
    var acts :| Legal(Start, acts) && w == Run(Start, acts);
    RunOneMore(Start, acts, a);
  }

  // ----- Pieces of runs -----

  /** Two parties that can both act. */
  ghost predicate Ready(w: World, x: ID, y: ID) {
    Reached(w) && Identity(x) && Identity(y) && x != y && x !in w.down && y !in w.down
  }

  lemma Play(w: World, x: ID, y: ID, a: Call) returns (w': World)
    requires Ready(w, x, y) && Allowed(w, Do(x, y, a)) && Make(At(w, x, y), x, y, a).status != Crashed
    ensures Ready(w', x, y) && w'.down == w.down
    ensures var o := Make(At(w, x, y), x, y, a);
            At(w', x, y) == o.side && w'.net == if o.message.Some? then w.net + {o.message.value} else w.net
    ensures At(w', y, x) == At(w, y, x)
  {
    ReachedNext(w, Do(x, y, a));
    w' := Next(w, Do(x, y, a));
  }

  lemma PlayRestart(w: World, x: ID, y: ID) returns (w': World)
    requires Ready(w, x, y)
    ensures Ready(w', x, y) && w'.net == w.net
    ensures Pair(x, y) in w.sides ==> At(w', x, y) == RestartSide(At(w, x, y), true)
    ensures At(w', y, x) == At(w, y, x)
  {
    ReachedNext(w, Restart(x, {y}));
    w' := Next(w, Restart(x, {y}));
  }

  /** x asks y for the first time. */
  lemma Asking(w: World, x: ID, y: ID, k: nat) returns (w': World)
    requires Ready(w, x, y) && At(w, x, y).calls.asking == 0
    requires At(w, x, y).link == At(w, x, y).link.(sent := None, received := None, cleared := None, session := None,
                                                   listening := None)
    requires !IsStoring(At(w, x, y).calls)
    ensures Ready(w', x, y) && RequestOf(x, y, k) in w'.net
    ensures var s, r := At(w, x, y), SentOf(x, y, k);
            At(w', x, y) == s.(link := s.link.(sent := Some(r), listening := Some(r)),
                               past := s.past.(asked := s.past.asked + [k]))
    ensures At(w', y, x) == At(w, y, x)
  {
    w' := Play(w, x, y, DoAskCheck);
    w' := Play(w', x, y, DoAskStore(k, true));
  }

  /** x can take in the request of y with key k. */
  ghost predicate Takable(w: World, x: ID, y: ID, k: nat) {
    var s := At(w, x, y);
    && Ready(w, x, y) && RequestOf(y, x, k) in w.net && NegotiationOf(RequestOf(y, x, k)) !in s.link.seen
    && s.calls.work == map[] && s.link.received.None? && s.link.cleared.None?
  }

  /** x takes it in, up to its look at the sent request. */
  lemma Taking(w: World, x: ID, y: ID, k: nat) returns (w': World)
    requires Takable(w, x, y, k)
    ensures Ready(w', x, y) && w'.net == w.net && At(w', y, x) == At(w, y, x)
    ensures var s, m := At(w, x, y), RequestOf(y, x, k);
            At(w', x, y) == s.(link := s.link.(seen := s.link.seen + [NegotiationOf(m)]),
                               calls := s.calls.(work := map[NegotiationOf(m) := Work(m, Resolving)]))
  {
    var m := RequestOf(y, x, k);
    assert Shared(Historical(x), m.dhPub) == m.lock;
    w' := Play(w, x, y, DoTakeIn(m));
    assert At(w', x, y).calls.work == map[NegotiationOf(m) := Work(m, Clearing)];
    w' := Play(w', x, y, DoProceed(NegotiationOf(m), true));
  }

  /** x looks, and finds no sent request or consumes it. */
  lemma Looking(w: World, x: ID, y: ID, k: nat) returns (w': World)
    requires Takable(w, x, y, k) && (At(w, x, y).link.sent.None? || Smaller(x, y))
    ensures Ready(w', x, y) && w'.net == w.net && At(w', y, x) == At(w, y, x)
    ensures var s, m := At(w, x, y), RequestOf(y, x, k);
            At(w', x, y) == s.(link := s.link.(seen := s.link.seen + [NegotiationOf(m)], sent := None),
                               calls := s.calls.(work := map[NegotiationOf(m) :=
                                                             Work(m, Storing(s.link.sent.Some?))]))
  {
    w' := Taking(w, x, y, k);
    w' := Play(w', x, y, DoProceed(NegotiationOf(RequestOf(y, x, k)), true));
  }

  /** x looks, and bails. */
  lemma Bailing(w: World, x: ID, y: ID, k: nat) returns (w': World)
    requires Takable(w, x, y, k) && At(w, x, y).link.sent.Some? && !Smaller(x, y)
    ensures Ready(w', x, y) && w'.net == w.net && At(w', y, x) == At(w, y, x)
    ensures var s, m := At(w, x, y), RequestOf(y, x, k);
            At(w', x, y) == s.(link := s.link.(seen := s.link.seen + [NegotiationOf(m)]))
  {
    w' := Taking(w, x, y, k);
    w' := Play(w', x, y, DoProceed(NegotiationOf(RequestOf(y, x, k)), true));
  }

  /** x, which has not asked, lets a request of y wait for its user. */
  lemma Receiving(w: World, x: ID, y: ID, k: nat) returns (w': World)
    requires Takable(w, x, y, k) && At(w, x, y).link.sent.None?
    ensures Ready(w', x, y) && w'.net == w.net && At(w', y, x) == At(w, y, x)
    ensures var s, m := At(w, x, y), RequestOf(y, x, k);
            At(w', x, y) == s.(link := s.link.(seen := s.link.seen + [NegotiationOf(m)],
                                               received := Some(ReceivedOf(m))))
  {
    w' := Looking(w, x, y, k);
    w' := Play(w', x, y, DoProceed(NegotiationOf(RequestOf(y, x, k)), true));
    assert At(w', x, y).calls.work == map[];
  }

  /** x begins to answer the request that waits, with key k, and makes the partner. */
  lemma Opening(w: World, x: ID, y: ID, r: Received, k: nat) returns (w': World)
    requires Ready(w, x, y) && At(w, x, y).link.received == Some(r)
    requires At(w, x, y).calls.held == multiset{} && At(w, x, y).calls.answers == map[]
    ensures Ready(w', x, y) && w'.net == w.net && At(w', y, x) == At(w, y, x)
    ensures var s, m := At(w, x, y), ConfirmFrom(x, y, r, k);
            At(w', x, y) == Side(AddPartner(s.link, SessionFrom(r, k)),
                                 s.calls.(answers := map[r := Derived(m)]),
                                 if s.link.session.None?
                                 then s.past.(origin := Some(Opened(m)), confirmed := s.past.confirmed + {r.dhPub})
                                 else s.past.(again := true, confirmed := s.past.confirmed + {r.dhPub}))
  {
    w' := Locking(w, x, y, r);
    w' := Play(w', x, y, DoOpen(r, k));
  }

  lemma Locking(w: World, x: ID, y: ID, r: Received) returns (w': World)
    requires Ready(w, x, y) && At(w, x, y).link.received == Some(r)
    requires At(w, x, y).calls.held == multiset{} && At(w, x, y).calls.answers == map[]
    ensures Ready(w', x, y) && w'.net == w.net && At(w', y, x) == At(w, y, x)
    ensures var s := At(w, x, y);
            At(w', x, y) == s.(calls := s.calls.(answers := map[r := Locked]),
                               past := s.past.(confirmed := s.past.confirmed + {r.dhPub}))
  {
    var h := Held(r, r.dhPub);
    w' := Play(w, x, y, DoLook(r.dhPub, true));
    assert At(w', x, y).calls.held == multiset{h};
    w' := Play(w', x, y, DoLock(h));
  }

  /** x sends its answer and releases the request. */
  lemma Answering(w: World, x: ID, y: ID, r: Received, m: Message) returns (w': World)
    requires Ready(w, x, y) && At(w, x, y).calls.answers == map[r := Derived(m)]
    ensures Ready(w', x, y) && w'.net == w.net + {m} && At(w', y, x) == At(w, y, x)
    ensures var s := At(w, x, y);
            At(w', x, y) == s.(link := DropReceived(s.link.(confirmation := Some(m))),
                               calls := s.calls.(answers := map[]))
  {
    w' := Play(w, x, y, DoSend(r));
    w' := Play(w', x, y, DoRelease(r));
    assert At(w', x, y).calls.answers == map[];
  }

  /** Nothing is under way or done between the two. */
  ghost predicate Fresh(w: World, x: ID, y: ID) {
    Ready(w, x, y) && At(w, x, y) == NoSide && At(w, y, x) == NoSide
  }

  lemma StartFresh(x: ID, y: ID)
    requires Identity(x) && Identity(y) && x != y
    ensures Fresh(Start, x, y)
  {
    StartReached();
  }

  // ----- Crossed requests that nobody answers -----

  /** The smaller party looks, finds no sent request, stores one and then cannot store the
      other's, on whose promise to answer the larger one bails: both requests are processed
      and nobody is left to answer. */
  lemma CrossingCanDie(x: ID, y: ID) returns (w: World)
    requires Identity(x) && Identity(y) && Smaller(x, y)
    ensures Reached(w) && Undeleted(w, x, y)
    ensures var s, t := At(w, x, y), At(w, y, x);
            && s.calls == NoCalls && t.calls == NoCalls
            && s.link.sent.Some? && t.link.sent.Some? && s.link.seen != [] && t.link.seen != []
            && !Engaged(s.link) && !Engaged(t.link) && s.link.session.None? && t.link.session.None?
            && s.past.crossed && !s.past.lost
  {
    StartFresh(x, y);
    ExactlyOneResends(x, y);
    w := Asking(Start, y, x, 1);
    w := Looking(w, x, y, 1);
    w := AskingBetween(w, x, y, RequestOf(y, x, 1), 2);
    w := Bailing(w, y, x, 2);
  }

  /** x asks between its look at the sent request and AddReceived of m. */
  lemma AskingBetween(w: World, x: ID, y: ID, m: Message, k: nat) returns (w': World)
    requires Ready(w, x, y) && m.RequestMsg?
    requires At(w, x, y).calls == NoCalls.(work := map[NegotiationOf(m) := Work(m, Storing(false))])
    requires At(w, x, y).link == NoLink.(seen := At(w, x, y).link.seen)
    ensures Ready(w', x, y) && RequestOf(x, y, k) in w'.net && At(w', y, x) == At(w, y, x)
    ensures var s, r := At(w, x, y), SentOf(x, y, k);
            At(w', x, y) == Side(s.link.(sent := Some(r), listening := Some(r)), NoCalls,
                                 s.past.(asked := s.past.asked + [k], crossed := true))
  {
    StageOf(At(w, x, y).calls, NegotiationOf(m), Work(m, Storing(false)));
    w' := Play(w, x, y, DoAskCheck);
    w' := Play(w', x, y, DoAskStore(k, true));
    w' := Play(w', x, y, DoProceed(NegotiationOf(m), true));
    assert At(w', x, y).calls.work == map[];
  }

  // ----- A request that crashes -----

  /** A request between consuming the sent request and AddReceived stops the process. */
  lemma RequestCanCrash(x: ID, y: ID) returns (w: World)
    requires Identity(x) && Identity(y) && Smaller(x, y)
    ensures Reached(w) && Undeleted(w, x, y) && x in w.down
    ensures Consumed(At(w, x, y).calls) && At(w, y, x).past.asked != [] && !At(w, y, x).past.late
  {
    StartFresh(x, y);
    w := Asking(Start, x, y, 1);
    w := Asking(w, y, x, 2);
    w := Looking(w, x, y, 2);
    StageOf(At(w, x, y).calls, NegotiationOf(RequestOf(y, x, 2)), Work(RequestOf(y, x, 2), Storing(true)));
    w := Play(w, x, y, DoAskCheck);
    ReachedNext(w, Do(x, y, DoAskStore(3, true)));
    w := Next(w, Do(x, y, DoAskStore(3, true)));
  }

  // ----- Partners whose sessions do not match -----

  /** The larger party asks while it answers: its partner check comes before it is a partner
      and AddSent after. The smaller auto-confirms that request before the answer arrives,
      so that each of them opens a session of its own. */
  lemma LateRequestUnpairs(x: ID, y: ID) returns (w: World)
    requires Identity(x) && Identity(y) && Smaller(x, y)
    ensures Reached(w) && Undeleted(w, x, y)
    ensures var s, t := At(w, x, y), At(w, y, x);
            && s.link.session.Some? && t.link.session.Some? && !s.past.torn && !t.past.torn
            && IsOpened(s.past) && IsOpened(t.past) && t.past.late
            && !Paired(s.link.session.value, t.link.session.value)
  {
    StartFresh(x, y);
    w := Asking(Start, x, y, 1);
    w := Receiving(w, y, x, 1);
    w := Play(w, y, x, DoAskCheck);
    var r := Kept(x, y, 1);
    w := Opening(w, y, x, r, 2);
    w := Answering(w, y, x, r, ConfirmFrom(y, x, r, 2));
    w := Play(w, y, x, DoAskStore(3, true));
    assert RequestOf(y, x, 3) in w.net;
    w := AutoConfirming(w, x, y, 3);
  }

  /** x auto-confirms the request of y with key k, as far as the partner. */
  lemma AutoConfirming(w: World, x: ID, y: ID, k: nat) returns (w': World)
    requires Takable(w, x, y, k) && At(w, x, y).link.sent.Some? && Smaller(x, y) && At(w, x, y).link.session.None?
    requires At(w, x, y).calls == NoCalls
    ensures Ready(w', x, y) && At(w', y, x) == At(w, y, x)
    ensures var s, s', r := At(w, x, y), At(w', x, y), Kept(y, x, k);
            && s'.link.session == Some(SessionFrom(r, 4))
            && s'.past == s.past.(origin := Some(Opened(ConfirmFrom(x, y, r, 4))),
                                  confirmed := s.past.confirmed + {r.dhPub})
  {
    var n, r := NegotiationOf(RequestOf(y, x, k)), Kept(y, x, k);
    w' := Looking(w, x, y, k);
    w' := Play(w', x, y, DoProceed(n, true));
    assert At(w', x, y).calls.work == map[n := Work(RequestOf(y, x, k), Confirming)];
    w' := Opening(w', x, y, r, 4);
  }

  /** A process that ends within a confirm call, after making the partner, leaves the request
      waiting. Answered again it sends keys that its partner does not hold. */
  lemma TornConfirmUnpairs(x: ID, y: ID) returns (w: World)
    requires Identity(x) && Identity(y) && x != y
    ensures Reached(w) && Undeleted(w, x, y)
    ensures var s, t := At(w, x, y), At(w, y, x);
            && s.link.session.Some? && t.link.session.Some? && !s.past.late && !t.past.late && t.past.torn
            && !Paired(s.link.session.value, t.link.session.value)
  {
    StartFresh(x, y);
    var r := Kept(x, y, 1);
    w := Asking(Start, x, y, 1);
    w := Receiving(w, y, x, 1);
    w := Opening(w, y, x, r, 2);
    assert HasOpened(At(w, y, x).calls) by {
      assert r in At(w, y, x).calls.answers;
    }
    w := PlayRestart(w, y, x);
    w := Opening(w, y, x, r, 3);
    w := Answering(w, y, x, r, ConfirmFrom(y, x, r, 3));
    w := Accepting(w, x, y, 1, 3);
  }

  /** x accepts the answer of y with key j to its request with key i. */
  lemma Accepting(w: World, x: ID, y: ID, i: nat, j: nat) returns (w': World)
    requires Ready(w, x, y) && ConfirmFrom(y, x, Kept(x, y, i), j) in w.net
    requires At(w, x, y).link.listening == Some(SentOf(x, y, i)) && At(w, x, y).calls.closing == multiset{}
    requires At(w, x, y).link.session.None?
    ensures Ready(w', x, y) && At(w', y, x) == At(w, y, x)
    ensures At(w', x, y).link.session == Some(FinishedSession(SentOf(x, y, i), ConfirmFrom(y, x, Kept(x, y, i), j)))
    ensures At(w', x, y).past.late == At(w, x, y).past.late && At(w', x, y).past.deleted == At(w, x, y).past.deleted
  {
    var m, c := ConfirmFrom(y, x, Kept(x, y, i), j), SentOf(x, y, i);
    assert ProofOf(x, y) == ProofOf(y, x);
    assert Accepts(c, m) by {
      assert Shared(c.myDh, m.dhPub) == m.lock;
      assert m.ownership == Shared(c.myDh, c.partnerHistorical);
    }
    w' := Play(w, x, y, DoPop(m));
    assert At(w', x, y).calls.closing == multiset{Closing(c, m)};
    w' := Play(w', x, y, DoClose(Closing(c, m)));
  }

  // ----- A new request that crashes -----

  /** y deletes its request, starts anew and asks again while x answers the first one. The
      new request waits for the lock of the old one, finds it gone and stops the process. */
  lemma NewRequestCanCrash(x: ID, y: ID) returns (w: World)
    requires Identity(x) && Identity(y) && x != y
    ensures Reached(w) && x in w.down && !At(w, x, y).past.deleted
  {
    StartFresh(x, y);
    var r := Kept(y, x, 1);
    w := Asking(Start, y, x, 1);
    w := Receiving(w, x, y, 1);
    w := Opening(w, x, y, r, 2);
    w := AskingAnew(w, y, x, 3);
    w := WaitingFor(w, x, y, r, ConfirmFrom(x, y, r, 2), 3);
    var n := NegotiationOf(RequestOf(y, x, 3));
    w := Answering(w, x, y, r, ConfirmFrom(x, y, r, 2));
    ReachedNext(w, Do(x, y, DoProceed(n, true)));
    w := Next(w, Do(x, y, DoProceed(n, true)));
  }

  lemma AskingAnew(w: World, x: ID, y: ID, k: nat) returns (w': World)
    requires Ready(w, x, y) && At(w, x, y).link.sent.Some? && At(w, x, y).link.session.None?
    requires Pair(x, y) in w.sides
    ensures Ready(w', x, y) && RequestOf(x, y, k) in w'.net && At(w', y, x) == At(w, y, x)
  {
    w' := Play(w, x, y, DoDelete(true, true));
    w' := PlayRestart(w', x, y);
    w' := Asking(w', x, y, k);
  }

  lemma WaitingFor(w: World, x: ID, y: ID, r: Received, m: Message, k: nat) returns (w': World)
    requires Ready(w, x, y) && RequestOf(y, x, k) in w.net
    requires NegotiationOf(RequestOf(y, x, k)) !in At(w, x, y).link.seen
    requires At(w, x, y).link.received == Some(r) && At(w, x, y).calls == NoCalls.(answers := map[r := Derived(m)])
    ensures Ready(w', x, y) && At(w', y, x) == At(w, y, x)
    ensures var n := NegotiationOf(RequestOf(y, x, k));
            At(w', x, y) == At(w, x, y).(link := At(w', x, y).link, calls := NoCalls.(
              answers := map[r := Derived(m)], work := map[n := Work(RequestOf(y, x, k), Removing(r))]))
  {
    var p := RequestOf(y, x, k);
    assert Shared(Historical(x), p.dhPub) == p.lock;
    w' := Play(w, x, y, DoTakeIn(p));
    assert At(w', x, y).calls.work == map[NegotiationOf(p) := Work(p, Clearing)];
    w' := Play(w', x, y, DoProceed(NegotiationOf(p), true));
  }
}
