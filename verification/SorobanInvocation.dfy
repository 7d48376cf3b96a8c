/** How the client waits for a submitted contract call: it polls until the ledger knows the result or time is up. */
module SorobanInvocation {

  const POLL_INTERVAL_MS: nat := 1000
  const POLL_TIMEOUT_MS: nat := 30_000

  /** What a poll brings; `UNANSWERED` is a poll that throws. */
  datatype TxStatus = NOT_FOUND | SUCCESS | FAILED | UNANSWERED

  datatype Invocation = Returned | Rejected | TimedOut | Broken

  /**
   The polling loop of `submitInvocation`. `status` is what the network answers to each poll and
   `elapsed` the clock at that moment; each wait takes at least the polling interval. It returns
   normally exactly when the last answer is SUCCESS, it times out only on an unknown result, and it
   never asks more than 32 times.
   */
  method AwaitResult(status: nat -> TxStatus, elapsed: nat -> nat) returns (r: Invocation, polls: nat)
    requires forall k :: elapsed(k) >= POLL_INTERVAL_MS * k
    ensures 1 <= polls <= POLL_TIMEOUT_MS / POLL_INTERVAL_MS + 2
    ensures forall k :: 0 <= k < polls - 1 ==> status(k) == NOT_FOUND && elapsed(k) <= POLL_TIMEOUT_MS
    ensures r == Returned <==> status(polls - 1) == SUCCESS
    ensures r == Rejected <==> status(polls - 1) == FAILED
    ensures r == Broken <==> status(polls - 1) == UNANSWERED
    ensures r == TimedOut ==> elapsed(polls - 1) > POLL_TIMEOUT_MS
  {
    polls := 1;
    var result := status(0);
    while result == NOT_FOUND
      invariant 1 <= polls <= POLL_TIMEOUT_MS / POLL_INTERVAL_MS + 2 && result == status(polls - 1)
      invariant forall k :: 0 <= k < polls - 1 ==> status(k) == NOT_FOUND && elapsed(k) <= POLL_TIMEOUT_MS
      decreases POLL_TIMEOUT_MS / POLL_INTERVAL_MS + 2 - polls
    {
      if elapsed(polls - 1) > POLL_TIMEOUT_MS {
        return TimedOut, polls;
      }
      result := status(polls);
      polls := polls + 1;
    }
    r := if result == SUCCESS then Returned else if result == FAILED then Rejected else Broken;
  }
}
