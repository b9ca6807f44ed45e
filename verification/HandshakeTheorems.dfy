/**
 * What every run of the handshake gives each two parties, with requests deleted and
 * processes ended at any point.
 */
module HandshakeTheorems {
  import opened Wrappers
  import opened Bytes
  import opened TieBreak
  import opened Handshake
  import opened HandshakeSteps
  import opened HandshakeRuns

  lemma RunIsGood(acts: seq<Act>, x: ID, y: ID)
    requires Legal(Start, acts) && Identity(x) && Identity(y) && x != y
    ensures Good(Run(Start, acts), x, y) && Good(Run(Start, acts), y, x)
  {
    StartInv();
    RunKeepsInv(Start, acts);
  }

  // ----- When two sessions are one channel -----

  /** The two came to their sessions by one confirmation, which one made and the other
      accepted. */
  predicate OneAnswer(p: Origin, q: Origin) {
    p.m == q.m && (p.Opened? <==> q.Closed?)
  }

  predicate BothPartners(w: World, x: ID, y: ID) {
    At(w, x, y).link.session.Some? && At(w, y, x).link.session.Some?
  }

  /** A confirmation names the request it answers. */
  lemma ConfirmsOne(x: ID, y: ID, i: nat, j: nat, m: Message)
    requires Confirms(x, y, i, m) && Confirms(x, y, j, m)
    ensures i == j
  {
    assert Ephemeral(i) in Shared(Historical(y), Kept(x, y, j).dhPub);
  }

  /** x answered with m and y accepted n, both of them answers to requests of y. */
  lemma AnswerPairs(x: ID, y: ID, keys: seq<nat>, m: Message, n: Message, s: Session, t: Session)
    requires OpenedBy(y, x, keys, m, s) && ClosedBy(y, x, keys, n, t)
    ensures Paired(s, t) <==> m == n
    ensures Paired(t, s) <==> m == n
  {
    var i :| i in keys && Confirms(y, x, i, m) && s == SessionFrom(Kept(y, x, i), m.dhPub.of.n);
    var j :| j in keys && Confirms(y, x, j, n) && t == FinishedSession(SentOf(y, x, j), n);
    if m == n {
      ConfirmsOne(y, x, i, j, m);
    }
  }

  lemma SameSideUnpaired(x: ID, y: ID, keys: seq<nat>, keys': seq<nat>, m: Message, n: Message, s: Session, t: Session)
    requires (OpenedBy(y, x, keys, m, s) && OpenedBy(x, y, keys', n, t))
             || (ClosedBy(x, y, keys', m, s) && ClosedBy(y, x, keys, n, t))
    ensures !Paired(s, t)
  {
  }

  /** In every run the sessions of two partners are one channel exactly when they come from
      one confirmation. */
  lemma PairedExactly(acts: seq<Act>, x: ID, y: ID)
    requires Legal(Start, acts) && Identity(x) && Identity(y) && x != y
    requires BothPartners(Run(Start, acts), x, y)
    ensures var s, t := At(Run(Start, acts), x, y), At(Run(Start, acts), y, x);
            && s.past.origin.Some? && t.past.origin.Some?
            && (Paired(s.link.session.value, t.link.session.value)
                <==> OneAnswer(s.past.origin.value, t.past.origin.value))
  {
    RunIsGood(acts, x, y);
    PairExactly(x, y, At(Run(Start, acts), x, y), At(Run(Start, acts), y, x));
  }

  lemma PairExactly(x: ID, y: ID, s: Side, t: Side)
    requires Sessions(x, y, s, t) && Sessions(y, x, t, s) && s.link.session.Some? && t.link.session.Some?
    ensures Paired(s.link.session.value, t.link.session.value)
            <==> OneAnswer(s.past.origin.value, t.past.origin.value)
  {
    var p, q := s.past.origin.value, t.past.origin.value;
    if p.Opened? && q.Closed? {
      AnswerPairs(x, y, t.past.asked, p.m, q.m, s.link.session.value, t.link.session.value);
    } else if p.Closed? && q.Opened? {
      AnswerPairs(y, x, s.past.asked, q.m, p.m, t.link.session.value, s.link.session.value);
    } else {
      SameSideUnpaired(x, y, t.past.asked, s.past.asked, p.m, q.m, s.link.session.value, t.link.session.value);
    }
  }

  /** Sessions that do not match come from two parties that both opened theirs, or from one
      that answered although it was a partner already. */
  lemma UnpairedOnlyIf(acts: seq<Act>, x: ID, y: ID)
    requires Legal(Start, acts) && Identity(x) && Identity(y) && x != y
    requires BothPartners(Run(Start, acts), x, y)
    ensures var s, t := At(Run(Start, acts), x, y), At(Run(Start, acts), y, x);
            && s.past.origin.Some? && t.past.origin.Some?
            && (!Paired(s.link.session.value, t.link.session.value) ==>
                  || (s.past.origin.value.Opened? && t.past.origin.value.Opened?)
                  || s.past.again || t.past.again)
  {
    RunIsGood(acts, x, y);
    PairedExactly(acts, x, y);
  }

  /** Both are partners exactly when one has accepted the other's confirmation or both have
      answered. */
  lemma BothPartnersExactly(acts: seq<Act>, x: ID, y: ID)
    requires Legal(Start, acts) && Identity(x) && Identity(y) && x != y
    ensures var w := Run(Start, acts);
            var s, t := At(w, x, y), At(w, y, x);
            BothPartners(w, x, y)
            <==> || s.past.accepted || t.past.accepted
                 || (s.past.origin.Some? && s.past.origin.value.Opened?
                     && t.past.origin.Some? && t.past.origin.value.Opened?)
  {
    RunIsGood(acts, x, y);
  }

  // ----- Whose request was answered -----

  /** Every confirm call under way was made with the public key of the request it answers. */
  ghost predicate RightKeys(s: Side) {
    && (forall h <- s.calls.held :: h.contactKey in s.past.confirmed)
    && (forall r <- s.calls.answers :: r.dhPub in s.past.confirmed)
    && (s.past.origin.Some? && s.past.origin.value.Opened? ==>
          s.link.session.Some? && s.link.session.value.partnerDh in s.past.confirmed)
  }

  lemma ProceedRightKeys(s: Side, me: ID, n: Negotiation, healthy: bool)
    requires RightKeys(s)
    ensures RightKeys(Proceed(s, me, n, healthy).side)
  {
    if n in s.calls.work {
      match s.calls.work[n].stage
      case Clearing =>
      case Removing(_) =>
      case Resolving =>
      case Storing(_) =>
      case Confirming => LookRightKeys(Done(s, n), s.calls.work[n].m.dhPub, healthy);
    }
  }

  lemma LookRightKeys(s: Side, contactKey: DhPub, healthy: bool)
    requires RightKeys(s)
    ensures RightKeys(Look(s, contactKey, healthy).side)
  {
  }

  lemma LockRightKeys(s: Side, h: Held)
    requires RightKeys(s)
    ensures RightKeys(Lock(s, h).side)
  {
    LockTakes(s, h);
  }

  lemma OpenRightKeys(s: Side, me: ID, them: ID, r: Received, k: nat)
    requires RightKeys(s)
    ensures RightKeys(Open(s, me, them, r, k).side)
  {
  }

  lemma ConfirmRightKeys(s: Side, me: ID, them: ID, a: Call)
    requires RightKeys(s) && (a.DoLook? || a.DoLock? || a.DoOpen?)
    ensures RightKeys(Make(s, me, them, a).side)
  {
    match a
    case DoLook(contactKey, healthy) => LookRightKeys(s, contactKey, healthy);
    case DoLock(h) => LockRightKeys(s, h);
    case DoOpen(r, k) => OpenRightKeys(s, me, them, r, k);
  }

  lemma OthersRightKeys(s: Side, me: ID, them: ID, a: Call)
    requires RightKeys(s) && !a.DoProceed? && !a.DoLook? && !a.DoLock? && !a.DoOpen?
    ensures RightKeys(Make(s, me, them, a).side)
  {
    match a
    case DoAskCheck =>
    case DoAskStore(_, _) =>
    case DoTakeIn(_) =>
    case DoSend(_) =>
    case DoRelease(_) =>
    case DoPop(_) =>
    case DoClose(_) =>
    case DoDelete(_, _) =>
  }

  lemma MakeRightKeys(s: Side, me: ID, them: ID, a: Call)
    requires RightKeys(s)
    ensures RightKeys(Make(s, me, them, a).side)
  {
    if a.DoProceed? {
      ProceedRightKeys(s, me, a.n, a.healthy);
    } else if a.DoLook? || a.DoLock? || a.DoOpen? {
      ConfirmRightKeys(s, me, them, a);
    } else {
      OthersRightKeys(s, me, them, a);
    }
  }

  lemma {:induction false} RunRightKeys(w: World, acts: seq<Act>, x: ID, y: ID)
    requires RightKeys(At(w, x, y))
    ensures RightKeys(At(Run(w, acts), x, y))
    decreases acts
  {
    if acts != [] {
      SideAfter(w, acts[0], x, y);
      if acts[0].Do? {
        MakeRightKeys(At(w, x, y), x, y, acts[0].call);
      }
      RunRightKeys(Next(w, acts[0]), acts[1..], x, y);
    }
  }

  /** In every run a session that a party opened answers a request whose public key is the
      one of the contact that a confirm call was made for. */
  lemma OpenedForContact(acts: seq<Act>, x: ID, y: ID)
    ensures var s := At(Run(Start, acts), x, y);
            s.past.origin.Some? && s.past.origin.value.Opened? ==>
              s.link.session.Some? && s.link.session.value.partnerDh in s.past.confirmed
  {
    RunRightKeys(Start, acts, x, y);
  }

  // ----- The store -----

  /** In every run a party never holds a sent and a received request of one partner
      together, not even after a restart, and a repeated request is answered by nothing. */
  lemma StoreStaysExclusive(acts: seq<Act>, x: ID, y: ID, m: Message, listed: bool)
    requires Legal(Start, acts) && Identity(x) && Identity(y) && x != y
    ensures var s := At(Run(Start, acts), x, y);
            && (s.link.sent.None? || s.link.received.None?)
            && (Restarted(s.link, listed).sent.None? || Restarted(s.link, listed).received.None?)
            && TakeIn(s, x, m).message.None?
  {
    RunIsGood(acts, x, y);
    RepeatIsSilent(x, y, At(Run(Start, acts), x, y), At(Run(Start, acts), y, x).past.asked, m);
  }

  // ----- How often a request comes to an end -----

  /** Whether a step takes the processing of a request of y by x to one of the ends. */
  predicate EndsIn(w: World, a: Act, x: ID, y: ID, ends: set<Status>) {
    a.Do? && a.me == x && a.them == y && a.call.DoProceed?
    && Make(At(w, x, y), x, y, a.call).status in ends
  }

  /** How often x does so over a run. */
  function Tally(w: World, acts: seq<Act>, x: ID, y: ID, ends: set<Status>): nat
    decreases acts
  {
    if acts == [] then 0
    else
      var rest := Tally(Next(w, acts[0]), acts[1..], x, y, ends);
      if EndsIn(w, acts[0], x, y, ends) then rest + 1 else rest
  }

  const AllEnds := {Bailed, Discarded, Pending, AutoConfirmed}

  /** The requests on their way to AddReceived. */
  function Early(c: Calls): set<Negotiation> {
    set n | n in c.work && !c.work[n].stage.Confirming?
  }

  /** A step that ends one takes it from the way; only a new one adds to it. */
  ghost predicate Balanced(s: Side, s': Side, ended: nat) {
    |Early(s'.calls)| + ended + |s.link.seen| <= |Early(s.calls)| + |s'.link.seen|
  }

  lemma Shrinks(s: set<Negotiation>, t: set<Negotiation>)
    requires s <= t
    ensures |s| <= |t|
  {
    assert t == s + (t - s);
  }

  lemma ProceedBalanced(s: Side, me: ID, n: Negotiation, healthy: bool)
    ensures var o := Proceed(s, me, n, healthy);
            Balanced(s, o.side, if o.status in AllEnds then 1 else 0)
  {
    var o := Proceed(s, me, n, healthy);
    ProceedAdvances(s, me, n, healthy);
    if o.status in AllEnds {
      Shrinks(Early(o.side.calls), Early(s.calls) - {n});
    } else {
      Shrinks(Early(o.side.calls), Early(s.calls));
    }
  }

  /** The processing of a request goes on without others, and an end is after AddReceived. */
  lemma ProceedAdvances(s: Side, me: ID, n: Negotiation, healthy: bool)
    ensures var o := Proceed(s, me, n, healthy);
            && (forall k <- o.side.calls.work ::
                  && k in s.calls.work && (k != n ==> o.side.calls.work[k] == s.calls.work[k])
                  && (s.calls.work[k].stage.Confirming? ==> o.side.calls.work[k].stage.Confirming?))
            && (o.status in AllEnds ==>
                  && n in s.calls.work && !s.calls.work[n].stage.Confirming?
                  && (n in o.side.calls.work ==> o.side.calls.work[n].stage.Confirming?))
  {
    if n in s.calls.work {
      match s.calls.work[n].stage
      case Clearing =>
      case Removing(_) =>
      case Resolving =>
      case Storing(_) =>
      case Confirming =>
    }
  }

  lemma TakeInBalanced(s: Side, me: ID, m: Message)
    ensures Balanced(s, TakeIn(s, me, m).side, 0)
  {
    var s' := TakeIn(s, me, m).side;
    if s' != s {
      Shrinks(Early(s'.calls), Early(s.calls) + {NegotiationOf(m)});
    }
  }

  lemma OthersBalanced(s: Side, me: ID, them: ID, a: Call)
    requires !a.DoProceed? && !a.DoTakeIn?
    ensures Balanced(s, Make(s, me, them, a).side, 0)
  {
    OthersKeepWork(s, me, them, a);
  }

  lemma OthersKeepWork(s: Side, me: ID, them: ID, a: Call)
    requires !a.DoProceed? && !a.DoTakeIn?
    ensures var s' := Make(s, me, them, a).side; s'.link.seen == s.link.seen && s'.calls.work == s.calls.work
  {
    match a
    case DoAskCheck =>
    case DoAskStore(_, _) =>
    case DoLook(_, _) =>
    case DoLock(_) =>
    case DoOpen(_, _) =>
    case DoSend(_) =>
    case DoRelease(_) =>
    case DoPop(_) =>
    case DoClose(_) =>
    case DoDelete(_, _) =>
  }

  lemma NextBalanced(w: World, a: Act, x: ID, y: ID)
    ensures Balanced(At(w, x, y), At(Next(w, a), x, y), if EndsIn(w, a, x, y, AllEnds) then 1 else 0)
  {
    var s, s' := At(w, x, y), At(Next(w, a), x, y);
    SideAfter(w, a, x, y);
    if a.Restart? {
      Shrinks(Early(s'.calls), Early(s.calls));
    } else {
      StepBalanced(s, x, y, a.call);
    }
  }

  lemma StepBalanced(s: Side, me: ID, them: ID, a: Call)
    ensures var o := Make(s, me, them, a);
            Balanced(s, o.side, if a.DoProceed? && o.status in AllEnds then 1 else 0)
  {
    match a
    case DoProceed(n, healthy) => ProceedBalanced(s, me, n, healthy);
    case DoTakeIn(m) => TakeInBalanced(s, me, m);
    case _ => OthersBalanced(s, me, them, a);
  }

  lemma {:induction false} TallyBound(w: World, acts: seq<Act>, x: ID, y: ID)
    ensures Tally(w, acts, x, y, AllEnds) + |At(w, x, y).link.seen|
            <= |Early(At(w, x, y).calls)| + |At(Run(w, acts), x, y).link.seen|
    decreases acts
  {
    if acts != [] {
      TallyBound(Next(w, acts[0]), acts[1..], x, y);
      NextBalanced(w, acts[0], x, y);
    }
  }

  lemma {:induction false} TallyMonotone(w: World, acts: seq<Act>, x: ID, y: ID, ends: set<Status>)
    requires ends <= AllEnds
    ensures Tally(w, acts, x, y, ends) <= Tally(w, acts, x, y, AllEnds)
    decreases acts
  {
    if acts != [] {
      TallyMonotone(Next(w, acts[0]), acts[1..], x, y, ends);
    }
  }

  // ----- Who auto-confirms and who bails -----

  /** Only the smaller party takes its own request back. */
  ghost predicate Chosen(x: ID, y: ID, s: Side) {
    forall n <- s.calls.work :: s.calls.work[n].stage == Storing(true) ==> Smaller(x, y)
  }

  lemma ProceedChooses(x: ID, y: ID, s: Side, keys: seq<nat>, n: Negotiation, healthy: bool)
    requires Chosen(x, y, s) && TheirWork(x, y, keys, s.link.seen, s.calls.work)
    ensures var o := Proceed(s, x, n, healthy);
            && Chosen(x, y, o.side)
            && (o.status == Bailed ==> !Smaller(x, y)) && (o.status == AutoConfirmed ==> Smaller(x, y))
  {
  }

  lemma OthersChoose(x: ID, y: ID, s: Side, a: Call)
    requires Chosen(x, y, s) && !a.DoProceed?
    ensures Chosen(x, y, Make(s, x, y, a).side)
  {
    if !a.DoTakeIn? {
      OthersKeepWork(s, x, y, a);
    }
  }

  lemma NextChooses(w: World, a: Act, x: ID, y: ID)
    requires Good(w, x, y) && Chosen(x, y, At(w, x, y))
    ensures Chosen(x, y, At(Next(w, a), x, y))
    ensures EndsIn(w, a, x, y, {Bailed}) ==> !Smaller(x, y)
    ensures EndsIn(w, a, x, y, {AutoConfirmed}) ==> Smaller(x, y)
  {
    SideAfter(w, a, x, y);
    if a.Do? {
      StepChooses(x, y, At(w, x, y), At(w, y, x).past.asked, a.call);
    }
  }

  lemma StepChooses(x: ID, y: ID, s: Side, keys: seq<nat>, a: Call)
    requires Chosen(x, y, s) && TheirWork(x, y, keys, s.link.seen, s.calls.work)
    ensures var o := Make(s, x, y, a);
            && Chosen(x, y, o.side)
            && (a.DoProceed? && o.status == Bailed ==> !Smaller(x, y))
            && (a.DoProceed? && o.status == AutoConfirmed ==> Smaller(x, y))
  {
    match a
    case DoProceed(n, healthy) => ProceedChooses(x, y, s, keys, n, healthy);
    case _ => OthersChoose(x, y, s, a);
  }

  lemma {:induction false} TieBreakDecides(w: World, acts: seq<Act>, x: ID, y: ID)
    requires Inv(w) && Legal(w, acts) && Identity(x) && Identity(y) && x != y && Chosen(x, y, At(w, x, y))
    ensures Smaller(x, y) ==> Tally(w, acts, x, y, {Bailed}) == 0
    ensures !Smaller(x, y) ==> Tally(w, acts, x, y, {AutoConfirmed}) == 0
    decreases acts
  {
    if acts != [] {
      assert Good(w, x, y);
      NextKeepsInv(w, acts[0]);
      NextChooses(w, acts[0], x, y);
      TieBreakDecides(Next(w, acts[0]), acts[1..], x, y);
    }
  }

  /** Distinct negotiations need distinct keys. */
  lemma {:induction false} SeenAtMostAsked(x: ID, y: ID, keys: seq<nat>, seen: seq<Negotiation>)
    requires TheirKeys(x, y, keys, seen)
    ensures |seen| <= |keys|
    decreases |seen|
  {
    if seen != [] {
      var n := seen[|seen| - 1];
      assert n in seen && IsNegotiation(y, x, keys, n);
      var i :| 0 <= i < |keys| && keys[i] == n.dhPub.of.n;
      var rest := keys[..i] + keys[i + 1..];
      forall k <- seen[..|seen| - 1] ensures IsNegotiation(y, x, rest, k) {
        assert k in seen && IsNegotiation(y, x, keys, k) && k != n;
        var j :| 0 <= j < |keys| && keys[j] == k.dhPub.of.n;
        assert rest[if j < i then j else j - 1] == keys[j];
      }
      SeenAtMostAsked(x, y, rest, seen[..|seen| - 1]);
    }
  }

  /** In every run x takes each request of y to at most one end: it bails, discards it, lets
      it wait or auto-confirms it. Whether it can bail or auto-confirm follows the
      identifiers. */
  lemma AtMostOneOfEach(acts: seq<Act>, x: ID, y: ID)
    requires Legal(Start, acts) && Identity(x) && Identity(y) && x != y
    ensures Tally(Start, acts, x, y, AllEnds) <= |At(Run(Start, acts), y, x).past.asked|
    ensures Smaller(x, y) ==> Tally(Start, acts, x, y, {Bailed}) == 0
    ensures !Smaller(x, y) ==> Tally(Start, acts, x, y, {AutoConfirmed}) == 0
  {
    var w := Run(Start, acts);
    RunIsGood(acts, x, y);
    StartInv();
    TallyBound(Start, acts, x, y);
    SeenAtMostAsked(x, y, At(w, y, x).past.asked, At(w, x, y).link.seen);
    TieBreakDecides(Start, acts, x, y);
    assert Early(At(Start, x, y).calls) == {};
  }
}
