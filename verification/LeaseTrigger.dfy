/**
 * When a lease fires: channels/lease.go, calculateLeaseTrigger and its random draw, on
 * 64-bit durations that saturate and wrap as the source's do.
 */
module LeaseTrigger {
  import opened Wrappers
  import opened ChannelTypes

  const GRACE_PERIOD: Duration := 3 * MINUTE
  const REPLAY_WAIT_MIN: Duration := 5 * MINUTE
  const REPLAY_WAIT_MAX: Duration := 30 * MINUTE
  const QUICK_REPLAY_FLOOR: Duration := GRACE_PERIOD
  const QUICK_REPLAY_CEILING: Duration := 10 * MINUTE
  const MESSAGE_LIFE: Duration := 500 * HOUR
  const VALID_FOREVER: Duration := MAX_INT64

  /** Difference of two instants: clamps to the duration range instead of overflowing. */
  function Sub(a: Time, b: Time): (d: Duration)
    ensures MIN_INT64 <= a - b <= MAX_INT64 ==> d == a - b
    ensures a - b > MAX_INT64 ==> d == MAX_INT64
    ensures a - b < MIN_INT64 ==> d == MIN_INT64
  {
    if a - b > MAX_INT64 then MAX_INT64
    else if a - b < MIN_INT64 then MIN_INT64
    else a - b
  }

  /** Subtraction of two durations: wraps around. */
  function Minus(a: Duration, b: Duration): (d: Duration)
    ensures MIN_INT64 <= a - b <= MAX_INT64 ==> d == a - b
    ensures d == a - b || d == a - b - 0x1_0000_0000_0000_0000 || d == a - b + 0x1_0000_0000_0000_0000
  {
    if a - b > MAX_INT64 then a - b - 0x1_0000_0000_0000_0000
    else if a - b < MIN_INT64 then a - b + 0x1_0000_0000_0000_0000
    else a - b
  }

  /** A draw from [lo, hi]. Every value of the range is the draw of some seed. */
  function RandDurationInRange(lo: Duration, hi: Duration, seed: nat): (d: Duration)
    requires lo <= hi
    ensures lo <= d <= hi
  {
    if lo + seed <= hi then lo + seed else hi
  }

  /** The trigger of a lease, or None when the message is dropped. */
  function CalculateLeaseTrigger(now: Time, originating: Time, lease: Duration, seed: nat): Option<Time> {
    var elapsed := Sub(now, originating);
    if elapsed >= lease then
      None
    else if lease == VALID_FOREVER || Minus(lease, elapsed) >= MESSAGE_LIFE then
      var floor0 := now + MESSAGE_LIFE / 2;
      var floor := if now > floor0 then now + GRACE_PERIOD else floor0;
      var ceiling := now + MESSAGE_LIFE;
      if floor > ceiling || Sub(ceiling, floor) < GRACE_PERIOD then
        None
      else
        Some(floor + RandDurationInRange(0, Sub(ceiling, floor), seed))
    else
      Some(originating + lease)
  }

  /** The lease, in exact arithmetic, outlasts a message life by so much that the
      64-bit difference wraps around: an originating time in the future with a lease
      that runs past the largest duration. */
  predicate RemainingOverflows(now: Time, originating: Time, lease: Duration) {
    lease != VALID_FOREVER && lease - Sub(now, originating) > MAX_INT64
  }

  /** A message is dropped exactly when its lease has elapsed: the later drop for a
      window shorter than the grace period is never taken. */
  lemma DroppedExactlyWhenElapsed(now: Time, originating: Time, lease: Duration, seed: nat)
    ensures CalculateLeaseTrigger(now, originating, lease, seed).None?
       <==> Sub(now, originating) >= lease
    ensures CalculateLeaseTrigger(now, originating, lease, seed).None?
       <==> now >= originating + lease
            || (lease == VALID_FOREVER && now - originating >= MAX_INT64)
            || (lease == MIN_INT64 && now - originating <= MIN_INT64)
  {
  }

  /** Where a trigger lands. It is always in the future. It is the end of the lease, or
      it is a replay drawn from the second half of a message life. A finite lease never
      fires after its end. For instants a duration can tell apart, the trigger stays
      within one message life of now exactly when the remaining lease does not overflow. */
  lemma TriggerWindow(now: Time, originating: Time, lease: Duration, seed: nat)
    requires CalculateLeaseTrigger(now, originating, lease, seed).Some?
    ensures var t := CalculateLeaseTrigger(now, originating, lease, seed).value;
            && now < t
            && (t != originating + lease ==> now + MESSAGE_LIFE / 2 <= t <= now + MESSAGE_LIFE)
            && (lease != VALID_FOREVER ==> t <= originating + lease)
            && (now - originating >= MIN_INT64 ==>
                  (t <= now + MESSAGE_LIFE <==> !RemainingOverflows(now, originating, lease)))
  {
  }

  /** The time a lease has been running, cut off where a duration ends. */
  function Running(now: Time, originating: Time): int {
    if now - originating < MIN_INT64 then MIN_INT64 else now - originating
  }

  /** Whether a running lease is to be replayed before it ends: it is valid forever, or has at
      least a message life left, of a size that a duration can hold. */
  predicate Outlives(now: Time, originating: Time, lease: Duration) {
    lease == VALID_FOREVER || MESSAGE_LIFE <= lease - Running(now, originating) <= MAX_INT64
  }

  /** Which of the two it is. A message whose lease is not over is replayed within the second
      half of a message life exactly when its lease outlives that; otherwise its trigger is
      the end of its lease. */
  lemma TriggerExactly(now: Time, originating: Time, lease: Duration, seed: nat)
    requires Running(now, originating) < lease
    ensures var t := CalculateLeaseTrigger(now, originating, lease, seed);
            && t.Some?
            && (Outlives(now, originating, lease) ==> now + MESSAGE_LIFE / 2 <= t.value <= now + MESSAGE_LIFE)
            && (!Outlives(now, originating, lease) ==> t.value == originating + lease)
  {
    assert Sub(now, originating) == Running(now, originating);
  }

  /** Every instant of that window can be drawn. */
  lemma TriggerDraws(now: Time, originating: Time, lease: Duration, u: Time)
    requires Running(now, originating) < lease && Outlives(now, originating, lease)
    requires now + MESSAGE_LIFE / 2 <= u <= now + MESSAGE_LIFE
    ensures CalculateLeaseTrigger(now, originating, lease, u - now - MESSAGE_LIFE / 2) == Some(u)
  {
    assert Sub(now, originating) == Running(now, originating);
  }
}
