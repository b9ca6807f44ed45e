/**
 * Which listener a message reaches, over every run: the default one of its type, or the
 * extension that registered for it first.
 */
module DispatchTheorems {
  import opened Wrappers
  import opened ChannelTypes
  import opened ChannelStorage
  import opened LeaseTrigger
  import opened LeaseOrder
  import opened LeasePass
  import opened LeaseIndex
  import opened LeaseDisk
  import opened ReplayBlocker
  import opened ActionSaver
  import opened MutedUsers
  import opened ChannelEngine
  import opened EngineInvariants
  import opened EngineSteps
  import opened ModelTheorems

  // ----- Which handler a type has -----

  /** The default listeners, with where they take messages from: users, the admin. */
  function Default(t: MessageType): Option<(Listener, bool, bool)> {
    if t == TEXT then Some((TextListener, true, false))
    else if t == ADMIN_TEXT then Some((TextListener, false, true))
    else if t == REACTION then Some((ReactionListener, true, false))
    else if t == INVITATION then Some((InvitationListener, true, false))
    else if t == DELETE then Some((DeleteListener, true, true))
    else if t == PINNED then Some((PinnedListener, false, true))
    else if t == MUTE then Some((MuteListener, false, true))
    else if t == ADMIN_REPLAY then Some((ReplayListener, true, true))
    else None
  }

  /** The extension that holds a type after a step. */
  ghost function HolderNext(e: Engine, op: Op, t: MessageType, h: Option<Op>): Option<Op> {
    if op.Restart? && LoadedFrom(op.loaded, e.disk, Later(e, op.now), op.seeds) then None
    else if op.Register? && op.messageType == t && !e.crashed && h.None? && Default(t).None? then Some(op)
    else h
  }

  /** The registration that holds a type after a run: the first since the process started. */
  ghost function Holder(e: Engine, ops: seq<Op>, t: MessageType, h: Option<Op>): Option<Op>
    decreases |ops|
  {
    if ops == [] then h else Holder(Step(e, ops[0]), ops[1..], t, HolderNext(e, ops[0], t, h))
  }

  /** The handlers hold a type as they should. */
  ghost predicate Holds(hs: map<MessageType, Handler>, t: MessageType, h: Option<Op>) {
    if Default(t).Some?
    then t in hs && hs[t] == Handler(Default(t).value.0, Default(t).value.1, Default(t).value.2, false)
    else if h.Some?
    then h.value.Register? && t in hs
         && hs[t] == Handler(Extension(h.value.id), h.value.user, h.value.admin, h.value.muted)
    else t !in hs
  }

  lemma HandlersStay(e: Engine, op: Op)
    requires Inv(e) && !op.Register? && !op.Restart?
    ensures Step(e, op).handlers == e.handlers
  {
    if !e.crashed {
      match op {
        case Advance(i, now, seed) => if i < |e.jobs| { AdvanceEffect(e, i, now, seed); }
        case RunUpdate(i, now, seed) => if i < |e.updates| { UpdateEffect(e, i, now, seed); }
        case Loop(choice, reading) =>
          StepIsLoop(e, op);
          LoopOnlyForgets(e, choice, reading, 0, Key(0, 0, NoContent));
        case _ => OtherHandlersStay(e, op);
      }
    }
  }

  lemma OtherHandlersStay(e: Engine, op: Op)
    requires Inv(e) && !op.Register? && !op.Restart? && !op.Advance? && !op.RunUpdate? && !op.Loop?
    ensures StepLive(e, op).handlers == e.handlers
  {
    match op {
      case RunUndo(i, now, seed) => if i < |e.undos| { ExpiryNeverUndoes(e, i, now, seed); }
      case RunReplay(i, now, seed) => ReplayTouchesAdds(e, i, now, seed);
      case _ =>
    }
  }

  lemma RestartHandlers(e: Engine, op: Op)
    requires Inv(e) && op.Restart?
    ensures Step(e, op).handlers
         == if LoadedFrom(op.loaded, e.disk, Later(e, op.now), op.seeds) then DEFAULTS else e.handlers
  {
    LoadRebuilds(e.muted);
    LoadRebuilds(e.ledger.commands);
  }

  lemma DefaultsHold(t: MessageType)
    ensures Holds(DEFAULTS, t, None)
  {
  }

  lemma RestartHolds(e: Engine, op: Op, t: MessageType, h: Option<Op>)
    requires Inv(e) && op.Restart? && Holds(e.handlers, t, h)
    ensures Holds(Step(e, op).handlers, t, HolderNext(e, op, t, h))
  {
    RestartHandlers(e, op);
    DefaultsHold(t);
  }

  lemma StepHolds(e: Engine, op: Op, t: MessageType, h: Option<Op>)
    requires Inv(e) && Holds(e.handlers, t, h)
    ensures Holds(Step(e, op).handlers, t, HolderNext(e, op, t, h))
  {
    if op.Restart? {
      RestartHolds(e, op, t, h);
    } else if !op.Register? {
      HandlersStay(e, op);
    }
  }

  lemma {:induction false} RunHolds(e: Engine, ops: seq<Op>, t: MessageType, h: Option<Op>)
    requires Inv(e) && Holds(e.handlers, t, h)
    ensures Holds(Run(e, ops).handlers, t, Holder(e, ops, t, h))
    decreases |ops|
  {
    if ops != [] {
      StepHolds(e, ops[0], t, h);
      StepKeepsInv(e, ops[0]);
      RunHolds(Step(e, ops[0]), ops[1..], t, HolderNext(e, ops[0], t, h));
    }
  }

  // ----- Which listener a message reaches -----

  /** In every run a message reaches the default listener of its type exactly when that takes
      messages from where it comes and its sender is not muted. A message of another type
      reaches the extension that registered for the type first since the process started,
      exactly when that registered for where it comes from and, if its sender is muted, for
      muted senders; without a registration it reaches none. */
  lemma ReachedExactly(ops: seq<Op>, t: MessageType, admin: bool, muted: bool)
    ensures var h := GetHandler(Run(Init(), ops).handlers, t, !admin, admin, muted);
            var first := Holder(Init(), ops, t, None);
            match Default(t)
            case Some((l, user, byAdmin)) =>
              && (h.Some? <==> !muted && if admin then byAdmin else user)
              && (h.Some? ==> h.value.listener == l)
            case None =>
              && (first.Some? ==> first.value.Register?)
              && (h.Some? <==> && first.Some? && (muted ==> first.value.muted)
                               && if admin then first.value.admin else first.value.user)
              && (h.Some? ==> h.value.listener == Extension(first.value.id))
  {
    InitInv();
    RunHolds(Init(), ops, t, None);
  }
}
