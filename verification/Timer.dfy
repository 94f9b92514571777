/**
 The inactivity timer of a session (start_timer, src/cinema/cinema.cpp): a process that looks
 every two seconds when the client was last heard of. Times are in seconds.
 */
module Timer {

  const TIMER_POLLING: int := 2
  const MAX_TIME_TO_WAIT_SECONDS: int := 100
  const TIMER_CLOSE: int := -134

  /**
   The slot at time `t`: the latest of the times `touches` at which the listener refreshed it,
   as far as they have come, or the start of the session.
   */
  function LastActivity(start: int, touches: seq<int>, t: int): int {
    if touches == [] then start
    else
      var before, x := LastActivity(start, touches[..|touches| - 1], t), touches[|touches| - 1];
      if before <= x <= t then x else before
  }

  /** It is one of them, none later has come, and it only grows. */
  lemma {:induction false} LastActivityIsLatest(start: int, touches: seq<int>, t: int)
    requires start <= t
    ensures var last := LastActivity(start, touches, t);
            && start <= last <= t && (last == start || last in touches)
            && forall x :: x in touches && x <= t ==> x <= last
  {
    if touches != [] {
      assert touches == touches[..|touches| - 1] + [touches[|touches| - 1]];
      LastActivityIsLatest(start, touches[..|touches| - 1], t);
    }
  }

  lemma ActivityGrows(start: int, touches: seq<int>, t: int, t': int)
    requires start <= t <= t'
    ensures LastActivity(start, touches, t) <= LastActivity(start, touches, t')
  {
    LastActivityIsLatest(start, touches, t);
    LastActivityIsLatest(start, touches, t');
  }

  function PollTime(start: int, k: nat): int {
    start + TIMER_POLLING * k
  }

  /** The `k`th look at the slot finds the client idle for too long. */
  predicate TooLong(start: int, touches: seq<int>, k: nat) {
    PollTime(start, k) - LastActivity(start, touches, PollTime(start, k)) > MAX_TIME_TO_WAIT_SECONDS
  }

  /** What the timer does about one look at the clock and the slot. */
  datatype Verdict = Close | SendExit | Wait

  function Look(now: int, slot: int): Verdict {
    if now == TIMER_CLOSE then Close
    else if now - slot > MAX_TIME_TO_WAIT_SECONDS then SendExit
    else Wait
  }

  /**
   The mark TIMER_CLOSE in the slot does not close the timer: at any clock that is not negative a look
   at it sends an EXIT, and no slot whatever makes the timer close.
   */
  lemma CloseMarkIsMistaken(now: int, slot: int)
    requires 0 <= now
    ensures Look(now, TIMER_CLOSE) == SendExit
    ensures Look(now, slot) != Close
  {
  }

  /**
   The timer's loop for its first `rounds` looks; killing the timer ends it early. `exits` are the
   times at which it sent an EXIT: the first look that finds the client idle too long, if any, and
   then the client had been idle for more than 100 and at most 102 seconds.
   */
  method Watch(start: int, touches: seq<int>, rounds: nat) returns (exits: seq<int>)
    requires 0 <= start
    ensures exits == [] <==> forall k :: 1 <= k <= rounds ==> !TooLong(start, touches, k)
    ensures exits != [] ==>
              exists k :: && 1 <= k <= rounds && exits == [PollTime(start, k)] && TooLong(start, touches, k)
                          && forall j :: 1 <= j < k ==> !TooLong(start, touches, j)
    ensures forall t :: t in exits ==> 100 < t - LastActivity(start, touches, t) <= 102
  {
    exits := [];
    var now, stop, n := start, false, 0;
    LastActivityIsLatest(start, touches, start);
    while !stop && n < rounds
      invariant 0 <= n <= rounds && now == PollTime(start, n)
      invariant !stop ==> exits == [] && now - LastActivity(start, touches, now) <= MAX_TIME_TO_WAIT_SECONDS
      invariant forall k :: 1 <= k < n ==> !TooLong(start, touches, k)
      invariant n >= 1 ==> (TooLong(start, touches, n) <==> stop)
      invariant stop ==> n >= 1 && exits == [now] && now - LastActivity(start, touches, now) <= 102
      decreases !stop, rounds - n
    {
      ActivityGrows(start, touches, now, now + TIMER_POLLING);
      n := n + 1;
      now := now + TIMER_POLLING;
      var last := LastActivity(start, touches, now);
      match Look(now, last) {
        case Close => stop := true;
        case SendExit =>
          exits := exits + [now];
          stop := true;
        case Wait =>
      }
    }
  }

  /** A client not heard of for 102 seconds is found idle too long, within those seconds. */
  lemma SilenceIsNoticed(start: int, touches: seq<int>, x: int) returns (k: nat)
    requires start <= x && (x == start || x in touches)
    requires forall y :: y in touches ==> !(x < y <= x + 102)
    ensures 1 <= k && TooLong(start, touches, k) && x + 100 < PollTime(start, k) <= x + 102
  {
    k := (x + 102 - start) / 2;
    LastActivityIsLatest(start, touches, PollTime(start, k));
  }

  /** A client heard of in every 100 seconds is never sent away. */
  lemma ActivityIsHeeded(start: int, touches: seq<int>, rounds: nat)
    requires forall k :: 1 <= k <= rounds ==> HeardOf(start, touches, PollTime(start, k))
    ensures forall k :: 1 <= k <= rounds ==> !TooLong(start, touches, k)
  {
    forall k | 1 <= k <= rounds ensures !TooLong(start, touches, k) {
      assert HeardOf(start, touches, PollTime(start, k));
      LastActivityIsLatest(start, touches, PollTime(start, k));
    }
  }

  ghost predicate HeardOf(start: int, touches: seq<int>, t: int) {
    t - start <= 100 || exists x :: x in touches && t - 100 <= x <= t
  }
}
