/**
 * What a pass of the lease thread does to a list, told by the times of its leases alone:
 * which leases it leaves, removes and renews, what it undoes, sends and forgets, and what
 * it sets its alarm to.
 */
module PassTheorems {
  import opened Wrappers
  import opened ChannelTypes
  import opened LeaseTrigger
  import opened LeaseOrder
  import opened LeasePass

  /** A message is not dropped exactly when its lease is running. */
  lemma ActiveExactly(now: Time, originating: Time, lease: Duration, seed: nat)
    ensures CalculateLeaseTrigger(now, originating, lease, seed).Some? <==> Running(now, originating) < lease
  {
    if Running(now, originating) < lease {
      TriggerExactly(now, originating, lease, seed);
    }
  }

  // ----- The list -----

  /** A lease is still in the list, with its trigger, exactly when that is later than a
      millisecond ago. */
  lemma UntouchedExactly(s: seq<Lease>, bodies: map<Key, Command>, r: Reading, l: Lease)
    requires Sorted(s) && DistinctKeys(s) && l in s && r.now <= r.later
    ensures l in AfterPass(s, bodies, r) <==> l.trigger > r.now - MILLISECOND
  {
    PassFate(s, bodies, r, l);
    if l in AfterPass(s, bodies, r) {
      var o := PassOrigin(s, bodies, r, l);
      SameKey(s, o, l);
      if FateOf(o, bodies, r).Reschedule? {
        TriggerWindow(r.later, o.originating, o.lease, Seed(r, o.key));
      }
    }
  }

  lemma SameKey(s: seq<Lease>, a: Lease, b: Lease)
    requires DistinctKeys(s) && a in s && b in s && a.key == b.key
    ensures a == b
  {
    var i :| 0 <= i < |s| && s[i] == a;
    var j :| 0 <= j < |s| && s[j] == b;
  }

  /** Every other one is gone, or is there with a trigger after the pass: the one its lease
      gives it now. It is there exactly when its command is stored, its old trigger was
      before its end and its lease is running. */
  lemma RenewedExactly(s: seq<Lease>, bodies: map<Key, Command>, r: Reading, l: Lease)
    requires Sorted(s) && DistinctKeys(s) && l in s && r.now <= r.later
    requires l.trigger <= r.now - MILLISECOND
    ensures var renewed := l.key in bodies && l.trigger < l.end && Running(r.later, l.originating) < l.lease;
            && (l.key in Keys(AfterPass(s, bodies, r)) <==> renewed)
            && forall l' :: l' in AfterPass(s, bodies, r) && l'.key == l.key ==>
                 && l' == l.(trigger := l'.trigger) && r.later < l'.trigger
                 && if Outlives(r.later, l.originating, l.lease)
                    then r.later + MESSAGE_LIFE / 2 <= l'.trigger <= r.later + MESSAGE_LIFE
                    else l'.trigger == l.originating + l.lease
  {
    ActiveExactly(r.later, l.originating, l.lease, Seed(r, l.key));
    PassFate(s, bodies, r, l);
    forall l' | l' in AfterPass(s, bodies, r) && l'.key == l.key
      ensures FateOf(l, bodies, r) == Reschedule(l'.trigger) && l' == l.(trigger := l'.trigger)
    {
      var o := PassOrigin(s, bodies, r, l');
      SameKey(s, o, l);
    }
    if Running(r.later, l.originating) < l.lease {
      TriggerExactly(r.later, l.originating, l.lease, Seed(r, l.key));
      TriggerWindow(r.later, l.originating, l.lease, Seed(r, l.key));
    }
  }

  /** Nothing comes into the list. */
  lemma NothingNew(s: seq<Lease>, bodies: map<Key, Command>, r: Reading)
    requires Sorted(s) && DistinctKeys(s)
    ensures Sorted(AfterPass(s, bodies, r)) && DistinctKeys(AfterPass(s, bodies, r))
    ensures Keys(AfterPass(s, bodies, r)) <= Keys(s)
  {
    PassKeepsOrder(s, bodies, r);
  }

  /** The commands forgotten are those of the leases that leave the list. */
  lemma ForgottenExactly(s: seq<Lease>, bodies: map<Key, Command>, r: Reading, k: Key)
    requires Sorted(s) && DistinctKeys(s)
    ensures k in Forgotten(s, bodies, r) <==> k in Keys(s) && k !in Keys(AfterPass(s, bodies, r))
  {
    PassKeepsOrder(s, bodies, r);
    PassPartition(s, bodies, r);
    ForgottenAreEnded(s, bodies, r);
    assert k in Forgotten(s, bodies, r) <==> k in (set x | x in Forgotten(s, bodies, r));
  }

  /** The alarm is the earliest trigger later than a millisecond ago; without one there is
      no alarm. */
  lemma AlarmExactly(s: seq<Lease>, now: Time)
    requires Sorted(s)
    ensures match Alarm(s, now)
            case None => forall l :: l in s ==> l.trigger <= now - MILLISECOND
            case Some(t) =>
              && (exists l :: l in s && l.trigger == t && t > now - MILLISECOND)
              && forall l :: l in s && l.trigger > now - MILLISECOND ==> t <= l.trigger
  {
    KeptMembers(s, now);
    if Kept(s, now) != [] {
      AlarmIsLeast(s, now);
    } else {
      forall l | l in s ensures l.trigger <= now - MILLISECOND {
        assert l !in Kept(s, now);
      }
    }
  }

  // ----- Undos and sends -----

  /** The leases of a list that something holds of, in order. */
  function Where(s: seq<Lease>, p: Lease -> bool): seq<Lease> {
    if s == [] then [] else if p(s[0]) then [s[0]] + Where(s[1..], p) else Where(s[1..], p)
  }

  /** The lease was due a millisecond ago and its command is stored. */
  predicate Fires(l: Lease, bodies: map<Key, Command>, now: Time) {
    l.trigger <= now - MILLISECOND && l.key in bodies
  }

  /** What is undone is the stored command with the lease's own payload and times. */
  predicate Undoes(u: Command, l: Lease, body: Command) {
    && u.channel == l.key.channel && u.messageType == l.key.action && u.content == l.key.payload
    && u.originating == l.originating && u.lease == l.lease
    && u.messageID == body.messageID && u.encrypted == body.encrypted && u.timestamp == body.timestamp
    && u.originatingRound == body.originatingRound && u.round == body.round && u.fromAdmin == body.fromAdmin
  }

  /** The undos are those of the leases that fire at their end or later, each once and in
      order. */
  lemma {:induction false} UndosExactly(s: seq<Lease>, bodies: map<Key, Command>, r: Reading)
    ensures var over := Where(s, (l: Lease) => Fires(l, bodies, r.now) && l.trigger >= l.end);
            && |Undos(s, bodies, r)| == |over|
            && forall i :: 0 <= i < |over| ==>
                 over[i].key in bodies && Undoes(Undos(s, bodies, r)[i], over[i], bodies[over[i].key])
  {
    if s != [] {
      UndosExactly(s[1..], bodies, r);
    }
  }

  /** What is sent is the encrypted payload of the leases that fire before their end, each
      once and in order. */
  lemma {:induction false} SendsExactly(s: seq<Lease>, bodies: map<Key, Command>, r: Reading)
    ensures var running, sent := Where(s, (l: Lease) => Fires(l, bodies, r.now) && l.trigger < l.end),
                                 Sends(Replayed(s, bodies, r), bodies);
            && |sent| == |running|
            && forall i :: 0 <= i < |running| ==>
                 running[i].key in bodies && sent[i] == (running[i].key.channel, bodies[running[i].key].encrypted)
  {
    if s != [] {
      SendsExactly(s[1..], bodies, r);
      var l, rest := s[0], Replayed(s[1..], bodies, r);
      ActiveExactly(r.later, l.originating, l.lease, Seed(r, l.key));
      if Fires(l, bodies, r.now) && l.trigger < l.end {
        assert ([l.key] + rest)[1..] == rest;
        assert Sends([l.key] + rest, bodies) == [(l.key.channel, bodies[l.key].encrypted)] + Sends(rest, bodies);
      }
    }
  }
}
