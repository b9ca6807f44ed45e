/**
 * The operations of the handshake taken apart. Request, Confirm and the processing of a
 * message each make several calls into the store, the partners and the network, and every
 * operation runs in a goroutine of its own. A step is one such call; between two steps of
 * one operation any other may run.
 */
module HandshakeSteps {
  import opened Wrappers
  import opened Bytes
  import opened TieBreak
  import opened Handshake

  // ----- Operations under way -----

  /** Which call the processing of a request makes next; Removing waits for the lock of a
      received request that a confirmation holds. */
  datatype Stage = Clearing | Removing(r: Received) | Resolving | Storing(auto: bool) | Confirming

  datatype Work = Work(m: Message, stage: Stage)

  /** A confirm call that has found a received request. */
  datatype Held = Held(r: Received, contactKey: DhPub)

  /** How far the confirm call that holds the lock of a received request has come. */
  datatype Phase = Locked | Derived(m: Message) | Answered(m: Message)

  /** A confirmation that has used up the registration of a sent request. */
  datatype Closing = Closing(sent: Sent, m: Message)

  /** What is under way with one partner. asking counts the requests past their partner
      check. */
  datatype Calls = Calls(
    asking: nat,
    work: map<Negotiation, Work>,
    held: multiset<Held>,
    answers: map<Received, Phase>,
    closing: multiset<Closing>)

  const NoCalls := Calls(0, map[], multiset{}, map[], multiset{})

  // ----- History -----

  /** How a party came to its session: by answering, or by the other's answer. */
  datatype Origin = Opened(m: Message) | Closed(m: Message)

  /** What has happened on one side.
      asked: the keys of the requests it stored.
      accepted: it accepted a confirmation.
      late: it stored a request although it was a partner by then.
      again: it answered a request although it was a partner by then.
      crossed: it stored a request while a Process was between its look at the sent request
      and AddReceived.
      lost: the process ended while a Process was before AddReceived.
      torn: the process ended while a confirm call had made the partner.
      confirmed: the contacts' public keys with which confirm calls found a request.
      deleted: a request was deleted by the user. */
  datatype Past = Past(
    asked: seq<nat>,
    origin: Option<Origin>,
    accepted: bool,
    late: bool,
    again: bool,
    crossed: bool,
    lost: bool,
    torn: bool,
    deleted: bool,
    confirmed: set<DhPub>)

  const NoPast := Past([], None, false, false, false, false, false, false, false, {})

  /** One party's side of its dealings with another. */
  datatype Side = Side(link: Link, calls: Calls, past: Past)

  const NoSide := Side(NoLink, NoCalls, NoPast)

  datatype Made = Made(side: Side, message: Option<Message>, status: Status)

  // ----- Request -----

  /** The partner check of Request. */
  function AskCheck(s: Side): (o: Made)
    ensures o.side == s.(calls := s.calls.(asking := o.side.calls.asking)) && o.message.None? && o.status != Crashed
  {
    if s.link.session.Some? then Made(s, None, Refused)
    else Made(s.(calls := s.calls.(asking := s.calls.asking + 1)), None, Underway)
  }

  predicate IsStoring(c: Calls) {
    exists n | n in c.work :: c.work[n].stage.Storing?
  }

  /** AddSent of a request past its partner check. */
  function AskStore(s: Side, me: ID, them: ID, k: nat, goes: bool): (o: Made)
    ensures o.side.calls == s.calls.(asking := o.side.calls.asking)
    ensures o.side.link == s.link.(sent := o.side.link.sent, listening := o.side.link.listening,
                                   cleared := o.side.link.cleared)
    ensures o.side.past == s.past.(asked := o.side.past.asked, late := o.side.past.late, crossed := o.side.past.crossed)
  {
    if s.calls.asking == 0 then Made(s, None, Idle)
    else
      var added := AddSent(s.link, me, them, k, goes);
      var c := s.calls.(asking := s.calls.asking - 1);
      if s.link.sent.None? && added.status == Requested then
        var p := s.past.(asked := s.past.asked + [k],
                         late := s.past.late || s.link.session.Some?,
                         crossed := s.past.crossed || IsStoring(s.calls));
        Made(Side(added.link, c, p), added.message, added.status)
      else Made(Side(added.link, c, s.past), added.message, added.status)
  }

  // ----- Processing a request -----

  /** CheckIfNegotiationIsNew. The path of a repeat only reads. */
  function TakeIn(s: Side, me: ID, m: Message): (o: Made)
    ensures o.side.link == s.link.(seen := o.side.link.seen) && o.side.calls == s.calls.(work := o.side.calls.work)
    ensures o.side.past == s.past && o.status != Crashed
  {
    if !m.RequestMsg? then Made(s, None, Idle)
    else
      var n := NegotiationOf(m);
      if Shared(Historical(me), m.dhPub) != m.lock then Made(s, None, Dropped)
      else if n !in s.link.seen then
        Made(s.(link := s.link.(seen := s.link.seen + [n]),
                calls := s.calls.(work := s.calls.work[n := Work(m, Clearing)])), None, Underway)
      else if s.link.seen[|s.link.seen| - 1] == n && s.link.session.None? then
        Made(s, s.link.confirmation, Repeated)
      else Made(s, None, Repeated)
  }

  function AtStage(s: Side, n: Negotiation, stage: Stage): Side
    requires n in s.calls.work
  {
    s.(calls := s.calls.(work := s.calls.work[n := s.calls.work[n].(stage := stage)]))
  }

  function Done(s: Side, n: Negotiation): Side {
    s.(calls := s.calls.(work := s.calls.work - {n}))
  }

  /** DeleteReceivedRequest. It takes the lock of the request it found and then looks
      again: a request that went meanwhile is a nil pointer, and another one's lock is not
      held, so that releasing it stops the process either way. */
  function ClearOld(s: Side, n: Negotiation): (o: Made)
    requires n in s.calls.work
    ensures o.side.link == s.link.(received := o.side.link.received, cleared := o.side.link.cleared)
    ensures o.side.calls == s.calls.(work := o.side.calls.work) && o.side.past == s.past && o.message.None?
  {
    var stage, found := s.calls.work[n].stage, s.link.received;
    if stage.Removing? && stage.r in s.calls.answers then Made(s, None, Waiting)
    else if stage.Removing? && found != Some(stage.r) then Made(s, None, Crashed)
    else if found.Some? && found.value in s.calls.answers then
      Made(AtStage(s, n, Removing(found.value)), None, Underway)
    else Made(AtStage(s.(link := ClearReceived(s.link)), n, Resolving), None, Underway)
  }

  /** HandleSentRequest with the tie-break. */
  function Resolve(s: Side, me: ID, n: Negotiation): (o: Made)
    requires n in s.calls.work
    ensures o.side.link == s.link.(sent := o.side.link.sent, cleared := o.side.link.cleared)
    ensures o.side.calls == s.calls.(work := o.side.calls.work) && o.side.past == s.past && o.message.None?
    ensures o.status != Crashed
  {
    var m := s.calls.work[n].m;
    if s.link.sent.None? then Made(AtStage(s, n, Storing(false)), None, Underway)
    else if !m.RequestMsg? || !Smaller(me, m.sender) then Made(Done(s, n), None, Bailed)
    else Made(AtStage(s.(link := TakeSent(s.link)), n, Storing(true)), None, Underway)
  }

  /** AddReceived; what waits for the user ends here. */
  function StoreNew(s: Side, n: Negotiation): (o: Made)
    requires n in s.calls.work && s.calls.work[n].stage.Storing?
    ensures o.side.link == s.link.(received := o.side.link.received, cleared := o.side.link.cleared)
    ensures o.side.calls == s.calls.(work := o.side.calls.work) && o.side.past == s.past && o.message.None?
    ensures o.status != Crashed
  {
    var m := s.calls.work[n].m;
    if s.link.sent.Some? || s.link.received.Some? || !m.RequestMsg? then Made(Done(s, n), None, Discarded)
    else
      var s1 := s.(link := StoreReceived(s.link, ReceivedOf(m)));
      if s.calls.work[n].stage.auto then Made(AtStage(s1, n, Confirming), None, AutoConfirmed)
      else Made(Done(s1, n), None, Pending)
  }

  /** The next call of the processing of a request. */
  function Proceed(s: Side, me: ID, n: Negotiation, healthy: bool): (o: Made)
    ensures o.side.link == s.link.(sent := o.side.link.sent, received := o.side.link.received,
                                cleared := o.side.link.cleared)
    ensures o.side.calls == s.calls.(work := o.side.calls.work, held := o.side.calls.held)
    ensures o.side.past == s.past.(confirmed := o.side.past.confirmed) && o.message.None?
  {
    if n !in s.calls.work then Made(s, None, Idle)
    else
      match s.calls.work[n].stage
      case Clearing => ClearOld(s, n)
      case Removing(_) => ClearOld(s, n)
      case Resolving => Resolve(s, me, n)
      case Storing(_) => StoreNew(s, n)
      case Confirming => Look(Done(s, n), s.calls.work[n].m.dhPub, healthy)
  }

  // ----- Confirming -----

  /** The health check of confirm and the first look of HandleReceivedRequest. */
  function Look(s: Side, contactKey: DhPub, healthy: bool): (o: Made)
    ensures o.side.link == s.link && o.side.calls == s.calls.(held := o.side.calls.held)
    ensures o.side.past == s.past.(confirmed := o.side.past.confirmed) && o.message.None? && o.status != Crashed
  {
    if !healthy || s.link.received.None? then Made(s, None, Refused)
    else
      var h := Held(s.link.received.value, contactKey);
      Made(s.(calls := s.calls.(held := s.calls.held + multiset{h}),
              past := s.past.(confirmed := s.past.confirmed + {contactKey})), None, Underway)
  }

  /** The lock of the found request and the second look, which takes any request of the
      partner for the one found first. */
  function Lock(s: Side, h: Held): (o: Made)
    ensures o.side == s.(calls := s.calls.(held := o.side.calls.held, answers := o.side.calls.answers))
    ensures o.message.None? && o.status != Crashed
  {
    if h !in s.calls.held then Made(s, None, Idle)
    else if h.r in s.calls.answers then Made(s, None, Waiting)
    else
      var s1 := s.(calls := s.calls.(held := s.calls.held - multiset{h}));
      if s.link.received.None? || h.r.dhPub != h.contactKey then Made(s1, None, Refused)
      else Made(s1.(calls := s1.calls.(answers := s1.calls.answers[h.r := Locked])), None, Underway)
  }

  /** AddPartner with fresh keys. */
  function Open(s: Side, me: ID, them: ID, r: Received, k: nat): (o: Made)
    ensures o.side.link == s.link.(session := o.side.link.session)
    ensures o.side.calls == s.calls.(answers := o.side.calls.answers)
    ensures o.side.past == s.past.(origin := o.side.past.origin, again := o.side.past.again) && o.message.None?
    ensures o.status != Crashed
  {
    if r !in s.calls.answers || !s.calls.answers[r].Locked? then Made(s, None, Idle)
    else
      var m := ConfirmFrom(me, them, r, k);
      var p := if s.link.session.None? then s.past.(origin := Some(Opened(m))) else s.past.(again := true);
      Made(Side(AddPartner(s.link, SessionFrom(r, k)),
                s.calls.(answers := s.calls.answers[r := Derived(m)]), p), None, Underway)
  }

  /** StoreConfirmation and the sending. */
  function Send(s: Side, r: Received): (o: Made)
    ensures o.side.link == s.link.(confirmation := o.side.link.confirmation)
    ensures o.side.calls == s.calls.(answers := o.side.calls.answers) && o.side.past == s.past && o.status != Crashed
  {
    if r !in s.calls.answers || !s.calls.answers[r].Derived? then Made(s, None, Idle)
    else
      var m := s.calls.answers[r].m;
      Made(s.(link := s.link.(confirmation := Some(m)),
              calls := s.calls.(answers := s.calls.answers[r := Answered(m)])), Some(m), Underway)
  }

  /** The end of HandleReceivedRequest. */
  function Release(s: Side, r: Received): (o: Made)
    ensures o.side.link == s.link || o.side.link == DropReceived(s.link)
    ensures o.side.calls == s.calls.(answers := o.side.calls.answers) && o.side.past == s.past && o.message.None?
    ensures o.status != Crashed
  {
    if r !in s.calls.answers || !s.calls.answers[r].Answered? then Made(s, None, Idle)
    else
      Made(s.(link := DropReceived(s.link), calls := s.calls.(answers := s.calls.answers - {r})), None, Confirmed)
  }

  // ----- Processing a confirmation -----

  /** The network takes the registration out and starts the processor. */
  function Pop(s: Side, m: Message): (o: Made)
    ensures o.side.link == s.link.(listening := o.side.link.listening)
    ensures o.side.calls == s.calls.(closing := o.side.calls.closing) && o.side.past == s.past && o.message.None?
    ensures o.status != Crashed
  {
    if !m.ConfirmMsg? || s.link.listening.None? || s.link.listening.value.fp != m.fp then Made(s, None, Dropped)
    else
      var c := Closing(s.link.listening.value, m);
      Made(s.(link := s.link.(listening := None),
              calls := s.calls.(closing := s.calls.closing + multiset{c})), None, Underway)
  }

  /** The checks of the processor and AddPartner. */
  function Close(s: Side, c: Closing): (o: Made)
    ensures o.side.link == s.link.(session := o.side.link.session)
    ensures o.side.calls == s.calls.(closing := o.side.calls.closing)
    ensures o.side.past == s.past.(origin := o.side.past.origin, accepted := o.side.past.accepted) && o.message.None?
    ensures o.status != Crashed
  {
    if c !in s.calls.closing then Made(s, None, Idle)
    else
      var s1 := s.(calls := s.calls.(closing := s.calls.closing - multiset{c}));
      if !c.m.ConfirmMsg? || !Accepts(c.sent, c.m) then Made(s1, None, Dropped)
      else
        var origin := if s.link.session.None? then Some(Closed(c.m)) else s.past.origin;
        Made(s1.(link := AddPartner(s.link, FinishedSession(c.sent, c.m)),
                 past := s.past.(origin := origin, accepted := true)), None, Finished)
  }

  // ----- Deletion and restart -----

  function Delete(s: Side, mine: bool, theirs: bool): (o: Made)
    ensures o.side.calls == s.calls && o.side.past == s.past.(deleted := o.side.past.deleted) && o.message.None?
    ensures o.status != Crashed
  {
    var l := Deleted(s.link, mine, theirs);
    Made(s.(link := l, past := s.past.(deleted := s.past.deleted || l != s.link)), None, Idle)
  }

  /** Whether a request is on its way to AddReceived. */
  predicate HasEarly(c: Calls) {
    exists n | n in c.work :: !c.work[n].stage.Confirming?
  }

  /** Whether a confirm call has made the partner and not released the request. */
  predicate HasOpened(c: Calls) {
    exists r | r in c.answers :: !c.answers[r].Locked?
  }

  /** A new process: what was under way is gone. */
  function RestartSide(s: Side, listed: bool): Side {
    Side(Restarted(s.link, listed), NoCalls,
         s.past.(lost := s.past.lost || HasEarly(s.calls), torn := s.past.torn || HasOpened(s.calls)))
  }

  // ----- All steps -----

  datatype Call =
    | DoAskCheck
    | DoAskStore(k: nat, goes: bool)
    | DoTakeIn(m: Message)
    | DoProceed(n: Negotiation, healthy: bool)
    | DoLook(contactKey: DhPub, healthy: bool)
    | DoLock(h: Held)
    | DoOpen(r: Received, k: nat)
    | DoSend(r: Received)
    | DoRelease(r: Received)
    | DoPop(m: Message)
    | DoClose(c: Closing)
    | DoDelete(mine: bool, theirs: bool)

  function Make(s: Side, me: ID, them: ID, a: Call): Made {
    match a
    case DoAskCheck => AskCheck(s)
    case DoAskStore(k, goes) => AskStore(s, me, them, k, goes)
    case DoTakeIn(m) => TakeIn(s, me, m)
    case DoProceed(n, healthy) => Proceed(s, me, n, healthy)
    case DoLook(contactKey, healthy) => Look(s, contactKey, healthy)
    case DoLock(h) => Lock(s, h)
    case DoOpen(r, k) => Open(s, me, them, r, k)
    case DoSend(r) => Send(s, r)
    case DoRelease(r) => Release(s, r)
    case DoPop(m) => Pop(s, m)
    case DoClose(c) => Close(s, c)
    case DoDelete(mine, theirs) => Delete(s, mine, theirs)
  }

  // ----- Steps with nothing between them -----

  function RequestInFull(s: Side, me: ID, them: ID, k: nat, goes: bool): Made {
    var checked := AskCheck(s);
    if checked.status != Underway then checked else AskStore(checked.side, me, them, k, goes)
  }

  /** Request is its two calls. */
  lemma RequestUninterrupted(s: Side, me: ID, them: ID, k: nat, goes: bool)
    ensures var last := RequestInFull(s, me, them, k, goes);
            && Outcome(last.side.link, last.message, last.status) == Request(s.link, me, them, k, goes)
            && last.side.calls == s.calls
  {
  }

  /** The calls of a confirm that found a request, as far as they go. */
  function AnswerInFull(s: Side, me: ID, them: ID, h: Held, k: nat): Made {
    var locked := Lock(s, h);
    if locked.status != Underway then locked
    else
      var s2 := Open(locked.side, me, them, h.r, k).side;
      var sending := Send(s2, h.r);
      Release(sending.side, h.r).(message := sending.message)
  }

  function ConfirmInFull(s: Side, me: ID, them: ID, contactKey: DhPub, k: nat, healthy: bool): Made {
    var looked := Look(s, contactKey, healthy);
    if looked.status != Underway then looked
    else AnswerInFull(looked.side, me, them, Held(s.link.received.value, contactKey), k)
  }

  /** Confirm is its five calls, for any contact. */
  lemma ConfirmUninterrupted(s: Side, me: ID, them: ID, contactKey: DhPub, k: nat, healthy: bool)
    requires s.calls == NoCalls
    ensures var last := ConfirmInFull(s, me, them, contactKey, k, healthy);
            && Outcome(last.side.link, last.message, last.status) == Confirm(s.link, me, them, contactKey, k, healthy)
            && last.side.calls == NoCalls
  {
    if healthy && s.link.received.Some? {
      var r := s.link.received.value;
      var h := Held(r, contactKey);
      var s0 := Look(s, contactKey, healthy).side;
      assert s0.calls.held == multiset{h};
      var s1 := Lock(s0, h).side;
      if r.dhPub == contactKey {
        AnsweringUninterrupted(s1, me, them, r, k);
      } else {
        assert s1.calls == NoCalls;
      }
    }
  }

  lemma AnsweringUninterrupted(s: Side, me: ID, them: ID, r: Received, k: nat)
    requires s.calls == NoCalls.(answers := map[r := Locked])
    ensures var sending := Send(Open(s, me, them, r, k).side, r);
            var last := Release(sending.side, r);
            && sending.message == Some(ConfirmFrom(me, them, r, k)) && last.status == Confirmed
            && last.side.link == DropReceived(AddPartner(s.link, SessionFrom(r, k)).(confirmation := sending.message))
            && last.side.calls == NoCalls
  {
    var m := ConfirmFrom(me, them, r, k);
    var s2 := Open(s, me, them, r, k).side;
    assert s2.calls == NoCalls.(answers := map[r := Derived(m)]);
    var s3 := Send(s2, r).side;
    assert s3.calls == NoCalls.(answers := map[r := Answered(m)]);
  }

  /** A new request from the first call to AddReceived. */
  function Taking(s: Side, me: ID, m: Message): Made
    requires m.RequestMsg?
  {
    var n := NegotiationOf(m);
    var s1 := TakeIn(s, me, m).side;
    var s2 := Proceed(s1, me, n, true).side;
    var looked := Proceed(s2, me, n, true);
    if looked.status == Bailed then looked else Proceed(looked.side, me, n, true)
  }

  /** The records after the look at the sent request. */
  lemma TakingUninterrupted(s: Side, me: ID, m: Message)
    requires m.RequestMsg? && Shared(Historical(me), m.dhPub) == m.lock && NegotiationOf(m) !in s.link.seen
    requires s.calls == NoCalls
    ensures var n := NegotiationOf(m);
            var l1 := ClearReceived(s.link.(seen := s.link.seen + [n]));
            var last := Taking(s, me, m);
            if l1.sent.None? then last == Made(s.(link := StoreReceived(l1, ReceivedOf(m))), None, Pending)
            else if !Smaller(me, m.sender) then last == Made(s.(link := l1), None, Bailed)
            else last == Made(Side(StoreReceived(TakeSent(l1), ReceivedOf(m)),
                                   NoCalls.(work := map[n := Work(m, Confirming)]), s.past), None, AutoConfirmed)
  {
    var n := NegotiationOf(m);
    var s1 := TakeIn(s, me, m).side;
    assert s1.calls.work == map[n := Work(m, Clearing)];
    var s2 := Proceed(s1, me, n, true).side;
    assert s2 == Side(ClearReceived(s1.link), NoCalls.(work := map[n := Work(m, Resolving)]), s.past);
    ResolvingUninterrupted(s2, me, m);
  }

  lemma ResolvingUninterrupted(s: Side, me: ID, m: Message)
    requires m.RequestMsg? && s.calls == NoCalls.(work := map[NegotiationOf(m) := Work(m, Resolving)])
    requires s.link.received.None?
    ensures var n := NegotiationOf(m);
            var looked := Proceed(s, me, n, true);
            if s.link.sent.Some? && !Smaller(me, m.sender)
            then looked == Made(Side(s.link, NoCalls, s.past), None, Bailed)
            else
              var l := if s.link.sent.Some? then TakeSent(s.link) else s.link;
              && looked.status != Bailed
              && Proceed(looked.side, me, n, true)
                 == Made(Side(StoreReceived(l, ReceivedOf(m)),
                              if s.link.sent.Some? then NoCalls.(work := map[n := Work(m, Confirming)]) else NoCalls,
                              s.past), None, if s.link.sent.Some? then AutoConfirmed else Pending)
  {
    var n := NegotiationOf(m);
    var looked := Proceed(s, me, n, true);
    if looked.status == Bailed {
      assert looked.side.calls.work == map[];
    } else {
      var auto := s.link.sent.Some?;
      assert looked.side.calls.work == map[n := Work(m, Storing(auto))];
      var last := Proceed(looked.side, me, n, true);
      assert last.side.calls.work == if auto then map[n := Work(m, Confirming)] else map[];
    }
  }

  /** All calls of the processing of a request, as far as they go. */
  function ProcessInFull(s: Side, me: ID, m: Message, k: nat, healthy: bool): Made
    requires m.RequestMsg?
  {
    var taken := TakeIn(s, me, m);
    if taken.status != Underway then taken
    else
      var last := Taking(s, me, m);
      if last.status != AutoConfirmed then last
      else
        var looked := Proceed(last.side, me, NegotiationOf(m), healthy);
        var end := if looked.status != Underway then looked
                   else AnswerInFull(looked.side, me, m.sender, Held(ReceivedOf(m), m.dhPub), k);
        end.(status := AutoConfirmed)
  }

  /** The processing of a request is its calls. */
  lemma ProcessUninterrupted(s: Side, me: ID, m: Message, k: nat, healthy: bool)
    requires m.RequestMsg? && s.calls == NoCalls
    ensures var last := ProcessInFull(s, me, m, k, healthy);
            && Outcome(last.side.link, last.message, last.status) == ReceiveRequest(s.link, me, m, k, healthy)
            && last.side.calls == NoCalls
  {
    if TakeIn(s, me, m).status == Underway {
      TakingUninterrupted(s, me, m);
      var last := Taking(s, me, m);
      if last.status == AutoConfirmed {
        var s5 := Done(last.side, NegotiationOf(m));
        assert s5.calls == NoCalls;
        ConfirmUninterrupted(s5, me, m.sender, m.dhPub, k, healthy);
      }
    }
  }

  function ConfirmationInFull(s: Side, m: Message): Made {
    var popped := Pop(s, m);
    if popped.status != Underway then popped else Close(popped.side, Closing(s.link.listening.value, m))
  }

  /** The processing of a confirmation is its two calls. */
  lemma ConfirmationUninterrupted(s: Side, m: Message)
    requires m.ConfirmMsg?
    ensures var last := ConfirmationInFull(s, m);
            && Outcome(last.side.link, last.message, last.status) == ReceiveConfirm(s.link, m)
            && last.side.calls == s.calls
  {
    if s.link.listening.Some? {
      var c := Closing(s.link.listening.value, m);
      assert s.calls.closing + multiset{c} - multiset{c} == s.calls.closing;
    }
  }
}
