/**
 The circuit breaker shared by all refreshes of one anchor domain, and the polling loop with exponential
 backoff. Refreshes interleave at every await, so the breaker's history is any sequence of events.
 Times and delays are in seconds.
 */
module CircuitBreaker {
  import opened Option
  import opened Sequences

  const MAX_FAILURES: nat := 3
  const RESET_TIMEOUT: real := 30.0

  datatype Phase = CLOSED | OPEN | HALF_OPEN

  datatype Breaker = Breaker(failureCount: nat, phase: Phase, lastFailureAt: Option<real>)

  /** `Enter` is the check at the start of a refresh, the others the two outcomes of a poll. */
  datatype Event = Enter(now: real) | PollOk | PollFailed(now: real)

  const FRESH := Breaker(0, CLOSED, None)

  predicate TimedOut(b: Breaker, now: real) {
    b.lastFailureAt.Some? && now - b.lastFailureAt.value > RESET_TIMEOUT
  }

  /** The refresh raises `CircuitBreakerOpenError`. */
  predicate Refuses(b: Breaker, now: real) { b.phase == OPEN && !TimedOut(b, now) }

  function Next(b: Breaker, e: Event): Breaker {
    match e
    case Enter(now) => if b.phase == OPEN && TimedOut(b, now) then b.(phase := HALF_OPEN) else b
    case PollOk => b.(failureCount := 0, phase := CLOSED)
    case PollFailed(now) =>
      Breaker(b.failureCount + 1, if b.failureCount + 1 >= MAX_FAILURES then OPEN else b.phase, Some(now))
  }

  function After(b: Breaker, events: seq<Event>): Breaker {
    if events == [] then b else Next(After(b, events[..|events| - 1]), events[|events| - 1])
  }

  // ---------- what the history says ----------

  /** Failures counted since the last success. */
  function Failures(events: seq<Event>): nat {
    if events == [] then 0
    else
      var before := Failures(events[..|events| - 1]);
      match events[|events| - 1]
      case Enter(_) => before
      case PollOk => 0
      case PollFailed(_) => before + 1
  }

  function LastFailure(events: seq<Event>): Option<real> {
    if events == [] then None
    else
      match events[|events| - 1]
      case PollFailed(now) => Some(now)
      case _ => LastFailure(events[..|events| - 1])
  }

  /** A refresh came in more than the timeout after the last failure, and no poll has ended since. */
  function Probing(events: seq<Event>): bool {
    if events == [] then false
    else
      var before := events[..|events| - 1];
      match events[|events| - 1]
      case Enter(now) =>
        Probing(before) || (LastFailure(before).Some? && now - LastFailure(before).value > RESET_TIMEOUT && Failures(before) >= MAX_FAILURES)
      case _ => false
  }

  /**
   Whatever the interleaving, the breaker is a function of its history: CLOSED exactly with fewer than
   three failures since the last success, otherwise HALF-OPEN exactly while a probe is out. An OPEN
   breaker always knows its last failure, and one failed probe opens it again.
   */
  lemma {:induction false} BreakerIsItsHistory(events: seq<Event>)
    ensures var b := After(FRESH, events);
            && b.failureCount == Failures(events)
            && b.lastFailureAt == LastFailure(events)
            && (b.phase == CLOSED <==> Failures(events) < MAX_FAILURES)
            && (b.phase == HALF_OPEN <==> Failures(events) >= MAX_FAILURES && Probing(events))
            && (Failures(events) > 0 ==> b.lastFailureAt.Some?)
            && (forall now :: b.phase == HALF_OPEN ==> Next(b, PollFailed(now)).phase == OPEN)
  {
    if events != [] {
      BreakerIsItsHistory(events[..|events| - 1]);
    }
  }

  /** A refresh is turned away exactly while three failures are counted, no probe is out and 30 s have not passed. */
  lemma RefusedExactly(events: seq<Event>, now: real)
    ensures Refuses(After(FRESH, events), now) <==>
            && Failures(events) >= MAX_FAILURES && !Probing(events)
            && !(LastFailure(events).Some? && now - LastFailure(events).value > RESET_TIMEOUT)
  {
    BreakerIsItsHistory(events);
  }

  // ---------- the loop ----------

  /** The `n`-th delay: it doubles every time. */
  function Delay(initial: real, n: nat): real { if n == 0 then initial else 2.0 * Delay(initial, n - 1) }

  /** The first `n` delays together. */
  function Slept(initial: real, n: nat): real { if n == 0 then 0.0 else Slept(initial, n - 1) + Delay(initial, n - 1) }

  function Pow2(n: nat): nat { if n == 0 then 1 else 2 * Pow2(n - 1) }

  lemma Distribute(x: real, a: real, b: real)
    ensures x * (a + b) == x * a + x * b
  {
  }

  lemma Doubles(n: nat)
    requires n > 0
    ensures Pow2(n) as real == Pow2(n - 1) as real + Pow2(n - 1) as real
    ensures (Pow2(n) - 1) as real == (Pow2(n - 1) - 1) as real + Pow2(n - 1) as real
  {
  }

  lemma {:induction false} DelayClosed(initial: real, n: nat)
    ensures Delay(initial, n) == initial * Pow2(n) as real
  {
    if n > 0 {
      DelayClosed(initial, n - 1);
      Doubles(n);
      Distribute(initial, Pow2(n - 1) as real, Pow2(n - 1) as real);
    }
  }

  /** A call that sleeps `n` times sleeps initial * (2^n - 1) in all. */
  lemma {:induction false} SleptClosed(initial: real, n: nat)
    ensures Slept(initial, n) == initial * (Pow2(n) - 1) as real
  {
    if n > 0 {
      SleptClosed(initial, n - 1);
      DelayClosed(initial, n - 1);
      Doubles(n);
      Distribute(initial, (Pow2(n - 1) - 1) as real, Pow2(n - 1) as real);
    }
  }

  /** No call sleeps longer than one that polls `maxRetries` times. */
  lemma {:induction false} SleepBound(initial: real, n: nat, maxRetries: nat)
    requires 0.0 <= initial && n <= maxRetries - 1
    ensures 0.0 <= Delay(initial, maxRetries - 1) && Slept(initial, n) <= Slept(initial, maxRetries - 1)
    decreases maxRetries
  {
    if n < maxRetries - 1 {
      SleepBound(initial, n, maxRetries - 1);
    } else if n > 0 {
      SleepBound(initial, n - 1, n);
    }
  }

  /** What a call that polls at most `maxRetries` times may sleep: initial * (2^(maxRetries - 1) - 1). */
  predicate SleepsWithin(slept: real, initial: real, maxRetries: nat) {
    maxRetries > 0 && 0.0 <= initial ==> slept <= initial * (Pow2(maxRetries - 1) - 1) as real
  }

  lemma SleepLimit(initial: real, n: nat, maxRetries: nat)
    requires n == 0 || n <= maxRetries - 1
    ensures SleepsWithin(Slept(initial, n), initial, maxRetries)
  {
    if maxRetries == 0 || initial < 0.0 {
      return;
    }
    SleepBound(initial, n, maxRetries);
    SleptClosed(initial, maxRetries - 1);
  }

  datatype Outcome = Refused | Refreshed | GaveUp

  /**
   One poll as the environment plays it: whether the anchor answers, whether committing the answer to
   the database fails, the clock, and what other refreshes of the domain do meanwhile.
   */
  datatype Poll = Poll(answers: bool, commitFails: bool, now: real, duringCommit: seq<Event>, duringSleep: seq<Event>)

  predicate Refreshes(poll: Poll) { poll.answers && !poll.commitFails }

  /** What one poll and the commit after it add to the breaker's history. */
  function PollEvents(poll: Poll): seq<Event> {
    (if poll.answers then [PollOk] + poll.duringCommit else []) + (if Refreshes(poll) then [] else [PollFailed(poll.now)])
  }

  /** The same with the sleep that follows a failed poll, unless it was the last. */
  function TurnEvents(polls: seq<Poll>, k: nat): seq<Event>
    requires k < |polls|
  {
    PollEvents(polls[k]) + if Refreshes(polls[k]) || k + 1 == |polls| then [] else polls[k].duringSleep
  }

  /** The history of the first `n` turns of the loop. */
  function LoopEvents(polls: seq<Poll>, n: nat): seq<Event>
    requires n <= |polls|
  {
    if n == 0 then [] else LoopEvents(polls, n - 1) + TurnEvents(polls, n - 1)
  }

  class SharedBreaker {
    var failureCount: nat
    var phase: Phase
    var lastFailureAt: Option<real>
    ghost var history: seq<Event>

    ghost function Abs(): Breaker
      reads this
    {
      Breaker(failureCount, phase, lastFailureAt)
    }

    ghost predicate Valid()
      reads this
    {
      Abs() == After(FRESH, history)
    }

    constructor ()
      ensures Valid() && history == []
    {
      failureCount, phase, lastFailureAt, history := 0, CLOSED, None, [];
    }

    method Admit(now: real) returns (admitted: bool)
      requires Valid()
      modifies this
      ensures Valid() && history == old(history) + [Enter(now)]
      ensures admitted <==> !Refuses(old(Abs()), now)
      ensures !admitted ==> Abs() == old(Abs())
    {
      admitted := true;
      if phase == OPEN {
        if lastFailureAt.Some? && now - lastFailureAt.value > RESET_TIMEOUT {
          phase := HALF_OPEN;
        } else {
          admitted := false;
        }
      }
      history := history + [Enter(now)];
      assert history[..|history| - 1] == old(history);
    }

    method Succeed()
      requires Valid()
      modifies this
      ensures Valid() && history == old(history) + [PollOk]
    {
      failureCount := 0;
      phase := CLOSED;
      history := history + [PollOk];
      assert history[..|history| - 1] == old(history);
    }

    method Fail(now: real)
      requires Valid()
      modifies this
      ensures Valid() && history == old(history) + [PollFailed(now)]
    {
      failureCount := failureCount + 1;
      lastFailureAt := Some(now);
      if failureCount >= MAX_FAILURES {
        phase := OPEN;
      }
      history := history + [PollFailed(now)];
      assert history[..|history| - 1] == old(history);
    }

    /** Other refreshes of the domain run while this one waits. */
    method Others(events: seq<Event>)
      requires Valid()
      modifies this
      ensures Valid() && history == old(history) + events
    {
      for i := 0 to |events|
        invariant Valid() && history == old(history) + events[..i]
      {
        match events[i] {
          case Enter(now) => var _ := Admit(now);
          case PollOk => Succeed();
          case PollFailed(now) => Fail(now);
        }
        assert events[..i + 1] == events[..i] + [events[i]];
      }
    }

    /** The body of the loop up to the sleep: a database error after an answer counts as a failed poll. */
    method PollOnce(poll: Poll) returns (refreshed: bool)
      requires Valid()
      modifies this
      ensures Valid() && old(history) <= history
      ensures refreshed <==> poll.answers && !poll.commitFails
      ensures history == old(history) + PollEvents(poll)
    {
      if poll.answers {
        Succeed();
        Others(poll.duringCommit);
        if !poll.commitFails {
          return true;
        }
      }
      Fail(poll.now);
      refreshed := false;
    }

    /** Poll number `k`, and what others do while the loop sleeps before the next. */
    method Turn(polls: seq<Poll>, k: nat) returns (refreshed: bool)
      requires Valid() && k < |polls|
      modifies this
      ensures Valid() && history == old(history) + TurnEvents(polls, k)
      ensures refreshed <==> polls[k].answers && !polls[k].commitFails
    {
      ghost var before := history;
      refreshed := PollOnce(polls[k]);
      if !refreshed && k + 1 < |polls| {
        Others(polls[k].duringSleep);
        Joined(before, PollEvents(polls[k]), polls[k].duringSleep);
      }
    }

    /**
     `refresh_from_anchor`. A refused refresh polls nothing. Otherwise it polls at most `maxRetries`
     times, gives up only after that many failures, and between polls sleeps
     initial, 2 * initial, 4 * initial, ... Every poll counts in the breaker, with what others do meanwhile.
     */
    method Refresh(maxRetries: nat, initialBackoff: real, start: real, polls: seq<Poll>)
      returns (outcome: Outcome, polled: nat, slept: real, sleeps: nat)
      requires Valid() && |polls| == maxRetries
      modifies this
      ensures Valid() && polled <= maxRetries && history == old(history) + [Enter(start)] + LoopEvents(polls, polled)
      ensures outcome == Refused <==> Refuses(old(Abs()), start)
      ensures outcome == Refused ==> polled == 0 && slept == 0.0 && Abs() == old(Abs())
      ensures outcome == GaveUp ==> polled == maxRetries
      ensures sleeps <= polled && (polled > 0 ==> sleeps == polled - 1)
      ensures slept == Slept(initialBackoff, sleeps)
      ensures SleepsWithin(slept, initialBackoff, maxRetries)
      ensures outcome == Refreshed ==> polled > 0 && polls[polled - 1].answers && !polls[polled - 1].commitFails
      ensures forall k :: 0 <= k < polled && (k < polled - 1 || outcome == GaveUp) ==> !polls[k].answers || polls[k].commitFails
    {
      polled, slept, sleeps := 0, 0.0, 0;
      var admitted := Admit(start);
      if !admitted {
        SleepLimit(initialBackoff, 0, maxRetries);
        return Refused, polled, slept, sleeps;
      }
      ghost var base := history;
      var attempt, backoff := 0, initialBackoff;
      while attempt < maxRetries
        invariant polled == attempt <= maxRetries
        invariant Valid() && history == base + LoopEvents(polls, polled)
        invariant sleeps == if attempt < maxRetries then attempt else if maxRetries == 0 then 0 else maxRetries - 1
        invariant backoff == Delay(initialBackoff, sleeps) && slept == Slept(initialBackoff, sleeps)
        invariant forall k :: 0 <= k < polled ==> !polls[k].answers || polls[k].commitFails
      {
        ghost var past := LoopEvents(polls, attempt);
        var refreshed := Turn(polls, attempt);
        Joined(base, past, TurnEvents(polls, attempt));
        polled := polled + 1;
        if refreshed {
          SleepLimit(initialBackoff, sleeps, maxRetries);
          return Refreshed, polled, slept, sleeps;
        }
        attempt := attempt + 1;
        if attempt < maxRetries {
          slept := slept + backoff;
          sleeps := sleeps + 1;
          backoff := backoff * 2.0;
        }
      }
      SleepLimit(initialBackoff, sleeps, maxRetries);
      outcome := GaveUp;
    }
  }
}
