/**
 The life of one escrow over arbitrary runs: its record never changes, it is finalised at most once
 with exactly one payout, it can always be finalised, and a silent payer gets the deadline rule.
 */
module EscrowHistory {
  import opened Option
  import opened EscrowContract
  import opened EscrowAccounting

  predicate Finalises(c: Call, id: nat) {
    (c.Release? || c.Refund?) && c.id == id
  }

  function Creations(h: Host, calls: seq<Call>): nat
    decreases |calls|
  {
    if calls == [] then 0
    else (if Exec(h, calls[0]).1.Created? then 1 else 0) + Creations(Exec(h, calls[0]).0, calls[1..])
  }

  /** How many calls of the run released or refunded escrow `id`. */
  function Finalisations(h: Host, calls: seq<Call>, id: nat): nat
    decreases |calls|
  {
    if calls == [] then 0
    else
      (if Finalises(calls[0], id) && Exec(h, calls[0]).1.Completed? then 1 else 0)
      + Finalisations(Exec(h, calls[0]).0, calls[1..], id)
  }

  /** What the balance of `who` in `token` gained in the calls that released or refunded escrow `id`. */
  function Received(h: Host, calls: seq<Call>, id: nat, token: Address, who: Address): int
    decreases |calls|
  {
    if calls == [] then 0
    else
      (if Finalises(calls[0], id) then Exec(h, calls[0]).0.Balance(token, who) - h.Balance(token, who) else 0)
      + Received(Exec(h, calls[0]).0, calls[1..], id, token, who)
  }

  /** The one payout an escrow with this final record has made, seen from `who`'s balance of `token`. */
  function Payout(e: Escrow, self: Address, token: Address, who: Address): int {
    var amount: int := e.amount;
    if e.token != token || e.status == Locked then 0
    else
      (if who == (if e.status == Released then e.payee else e.payer) then amount else 0)
      - (if who == self then amount else 0)
  }

  /** Ids are handed out one by one; a call that does not create an escrow consumes none. */
  lemma {:induction false} IdsAreContiguous(h: Host, calls: seq<Call>)
    requires Valid(h)
    ensures Run(h, calls).nextId == h.nextId + Creations(h, calls) <= U64_MAX
    ensures forall id :: id in Run(h, calls).escrows <==> 0 <= id < h.nextId + Creations(h, calls)
    decreases |calls|
  {
    if calls != [] {
      ExecKeepsValid(h, calls[0]);
      IdsAreContiguous(Exec(h, calls[0]).0, calls[1..]);
    }
  }

  /** Every field but the status is fixed for ever, and so is a terminal status. */
  lemma {:induction false} RecordIsPermanent(h: Host, calls: seq<Call>, id: nat)
    requires Valid(h) && id in h.escrows
    ensures var es := Run(h, calls).escrows;
            && id in es
            && es[id] == h.escrows[id].(status := es[id].status)
            && (h.escrows[id].status != Locked ==> es[id].status == h.escrows[id].status)
    decreases |calls|
  {
    if calls != [] {
      ExecKeepsValid(h, calls[0]);
      RecordIsPermanent(Exec(h, calls[0]).0, calls[1..], id);
    }
  }

  /** A call on an escrow either leaves it alone or makes its single payout. */
  lemma FinaliseStep(h: Host, c: Call, id: nat, token: Address, who: Address)
    requires Valid(h) && id in h.escrows
    ensures Valid(Exec(h, c).0) && id in Exec(h, c).0.escrows
    ensures var e, e' := h.escrows[id], Exec(h, c).0.escrows[id];
            if Finalises(c, id) && Exec(h, c).1.Completed? then
              && e.status == Locked
              && e' == e.(status := if c.Release? then Released else Refunded)
              && Exec(h, c).0.Balance(token, who) - h.Balance(token, who) == Payout(e', h.self, token, who)
            else
              && e' == e
              && (Finalises(c, id) ==> Exec(h, c).0 == h)
  {
    ExecKeepsValid(h, c);
    var e := h.escrows[id];
    if Finalises(c, id) && Exec(h, c).1.Completed? {
      MoveShifts(h, e.token, h.self, if c.Release? then e.payee else e.payer, e.amount, token, who);
    }
  }

  /**
   Over any run, escrow `id` is finalised once if it leaves Locked and never otherwise, and the calls
   that finalise it move exactly its amount, once, to the party its final status names.
   */
  lemma {:induction false} FinalisedOnce(h: Host, calls: seq<Call>, id: nat, token: Address, who: Address)
    requires Valid(h) && id in h.escrows
    ensures id in Run(h, calls).escrows
    ensures var e, e' := h.escrows[id], Run(h, calls).escrows[id];
            && Finalisations(h, calls, id) == (if e.status == Locked && e'.status != Locked then 1 else 0)
            && Received(h, calls, id, token, who) == (if e.status == Locked then Payout(e', h.self, token, who) else 0)
    decreases |calls|
  {
    if calls != [] {
      var h1 := Exec(h, calls[0]).0;
      ExecKeepsValid(h, calls[0]);
      FinaliseStep(h, calls[0], id, token, who);
      RecordIsPermanent(h1, calls[1..], id);
      FinalisedOnce(h1, calls[1..], id, token, who);
    }
  }

  /** Before an escrow exists no call can finalise it, so the history of an id starts at its deposit. */
  lemma {:induction false} HistoryFromGenesis(h: Host, calls: seq<Call>, id: nat, token: Address, who: Address)
    requires Valid(h) && id !in h.escrows
    ensures id !in Run(h, calls).escrows ==> Finalisations(h, calls, id) == 0 == Received(h, calls, id, token, who)
    ensures id in Run(h, calls).escrows ==>
              var e' := Run(h, calls).escrows[id];
              && Finalisations(h, calls, id) == (if e'.status != Locked then 1 else 0)
              && Received(h, calls, id, token, who) == Payout(e', h.self, token, who)
    decreases |calls|
  {
    if calls != [] {
      var h1 := Exec(h, calls[0]).0;
      ExecKeepsValid(h, calls[0]);
      if id in h1.escrows {
        FinalisedOnce(h1, calls[1..], id, token, who);
      } else {
        HistoryFromGenesis(h1, calls[1..], id, token, who);
      }
    }
  }

  // ---------- nothing is ever stuck ----------

  lemma {:induction false} LockedCovers(h: Host, n: nat, id: nat)
    requires Valid(h) && id < n <= h.nextId && h.escrows[id].status == Locked
    ensures LockedSum(h.escrows, n, h.escrows[id].token) >= h.escrows[id].amount
  {
    if id < n - 1 {
      LockedCovers(h, n - 1, id);
    } else {
      NetOfContract(h, n - 1, h.escrows[id].token);
    }
  }

  /** The transfer that finalises a Locked escrow of a reachable state cannot fail. */
  lemma PayoutCannotFail(h0: Host, calls: seq<Call>, id: nat, to: Address)
    requires Genesis(h0) && forall token :: Supply(h0, token) <= I128_MAX
    requires Valid(Run(h0, calls)) && id in Run(h0, calls).escrows && Run(h0, calls).escrows[id].status == Locked
    requires to == Run(h0, calls).escrows[id].payee || to == Run(h0, calls).escrows[id].payer
    ensures var h := Run(h0, calls); Move(h, h.escrows[id].token, h.self, to, h.escrows[id].amount).Some?
  {
    var h := Run(h0, calls);
    var e := h.escrows[id];
    ContractHoldsLocked(h0, calls, e.token);
    LockedCovers(h, h.nextId, id);
    SupplyConserved(h0, calls, e.token);
    TwoHolders(h, e.token, h.self, to);
  }

  /**
   In every reachable state a release succeeds exactly when the escrow is Locked and its payer
   authorises it, and a refund exactly when it is Locked and either the payer authorises it or the
   timeout has passed. The tokens of all holders together must fit the 128-bit balances.
   */
  lemma NothingStuck(h0: Host, calls: seq<Call>, id: U64, auth: set<Address>)
    requires Genesis(h0) && forall token :: Supply(h0, token) <= I128_MAX
    requires id in Run(h0, calls).escrows
    ensures var h := Run(h0, calls);
            var e := h.escrows[id];
            && (Exec(h, Release(id, auth)).1.Completed? <==> e.status == Locked && e.payer in auth)
            && (Exec(h, Refund(id, auth)).1.Completed? <==>
                  e.status == Locked && (e.payer in auth || h.sequence >= e.timeoutLedger))
  {
    RunKeepsValid(h0, calls);
    var h := Run(h0, calls);
    if h.escrows[id].status == Locked {
      PayoutCannotFail(h0, calls, id, h.escrows[id].payee);
      PayoutCannotFail(h0, calls, id, h.escrows[id].payer);
    }
  }

  /** A finalised escrow answers every later release or refund, in any later state, with the same error. */
  lemma FinalisedForEver(h: Host, calls: seq<Call>, id: U64, auth: set<Address>)
    requires Valid(h) && id in h.escrows && h.escrows[id].status != Locked
    ensures var h' := Run(h, calls);
            && Exec(h', Release(id, auth)) == (h', Failed(AlreadyFinalized))
            && Exec(h', Refund(id, auth)) == (h', Failed(AlreadyFinalized))
  {
    RecordIsPermanent(h, calls, id);
  }

  /**
   In every reachable state a deposit succeeds exactly when its parties and amount are proper, the
   payer authorises and can afford it, the deadline fits 32 bits and an id is left; and the escrow it
   creates has the terms of the call.
   */
  lemma DepositSucceedsExactly(h0: Host, calls: seq<Call>, c: Call)
    requires Genesis(h0) && forall token :: Supply(h0, token) <= I128_MAX
    requires c.Deposit?
    ensures var h := Run(h0, calls);
            var (h', o) := Exec(h, c);
            && (o.Created? <==>
                  && 0 < c.amount <= h.Balance(c.token, c.payer)
                  && c.payer != c.payee && c.payee != h.self && c.payer != h.self
                  && c.payer in c.auth
                  && h.sequence + c.timeoutLedgers <= U32_MAX
                  && h.nextId < U64_MAX)
            && (o.Created? ==>
                  && o.id == h.nextId && o.id !in h.escrows && o.id in h'.escrows
                  && h'.escrows[o.id] == Escrow(c.payer, c.payee, c.token, c.amount, Locked, h.sequence + c.timeoutLedgers))
  {
    RunKeepsValid(h0, calls);
    SupplyConserved(h0, calls, c.token);
    if c.payer != h0.self {
      TwoHolders(Run(h0, calls), c.token, c.payer, h0.self);
    }
  }

  /** The payer can pay, and the contract can hold what it is paid. */
  predicate Affords(h: Host, c: Call)
    requires c.Deposit?
  {
    c.amount <= h.Balance(c.token, c.payer) && h.Balance(c.token, h.self) + c.amount <= I128_MAX
  }

  /**
   What a deposit answers in any state. Each error has its own cause, the earlier ones hide the later ones,
   and no answer but an id changes anything.
   */
  lemma DepositAnswers(h: Host, c: Call)
    requires c.Deposit?
    ensures var (h', o) := Exec(h, c);
            var proper := c.amount > 0 && c.payer != c.payee && c.payee != h.self;
            var signed := c.payer in c.auth && c.payer != h.self;
            var fits := h.sequence + c.timeoutLedgers <= U32_MAX;
            && (o == Failed(InvalidAmount) <==> c.amount <= 0)
            && (o == Failed(InvalidParty) <==> c.amount > 0 && (c.payer == c.payee || c.payee == h.self))
            && (o == Failed(InvalidTimeout) <==> proper && signed && !fits)
            && (o == Failed(Overflow) <==> proper && signed && fits && Affords(h, c) && h.nextId >= U64_MAX)
            && (o == Trapped <==> proper && (!signed || (fits && !Affords(h, c))))
            && (o.Created? <==> proper && signed && fits && Affords(h, c) && h.nextId < U64_MAX)
            && (o.Created? ==> o.id == h.nextId)
            && (!o.Created? ==> h' == h)
  {
  }

  /** And what a release and a refund answer. */
  lemma FinaliseAnswers(h: Host, id: U64, auth: set<Address>)
    ensures forall c :: c in {Release(id, auth), Refund(id, auth)} ==>
              var (h', o) := Exec(h, c);
              && (o == Failed(NotFound) <==> id !in h.escrows)
              && (o == Failed(AlreadyFinalized) <==> id in h.escrows && h.escrows[id].status != Locked)
              && (o in {Completed, Trapped} <==> id in h.escrows && h.escrows[id].status == Locked)
              && (o != Completed ==> h' == h)
    ensures id in h.escrows && h.escrows[id].status == Locked && (h.escrows[id].payer !in auth || h.escrows[id].payer == h.self) ==>
              && Exec(h, Release(id, auth)).1 == Trapped
              && (h.sequence < h.escrows[id].timeoutLedger ==> Exec(h, Refund(id, auth)).1 == Trapped)
  {
  }

  // ---------- the deadline rule ----------

  predicate Silent(payer: Address, calls: seq<Call>) {
    forall i :: 0 <= i < |calls| && (calls[i].Release? || calls[i].Refund?) ==> payer !in calls[i].auth
  }

  /** While the payer authorises nothing, an escrow is never released and stays Locked until its timeout. */
  lemma {:induction false} SilentPayer(h: Host, calls: seq<Call>, id: nat)
    requires Valid(h) && id in h.escrows && h.escrows[id].status == Locked
    requires Silent(h.escrows[id].payer, calls)
    ensures var h' := Run(h, calls);
            && h.sequence <= h'.sequence
            && id in h'.escrows
            && h'.escrows[id].status != Released
            && (h'.sequence < h.escrows[id].timeoutLedger ==> h'.escrows[id].status == Locked)
    decreases |calls|
  {
    if calls != [] {
      var h1 := Exec(h, calls[0]).0;
      ExecKeepsValid(h, calls[0]);
      assert Silent(h.escrows[id].payer, calls[1..]);
      if h1.escrows[id].status == Locked {
        SilentPayer(h1, calls[1..], id);
      } else {
        RecordIsPermanent(h1, calls[1..], id);
        SequenceGrows(h1, calls[1..]);
      }
    }
  }

  lemma {:induction false} SequenceGrows(h: Host, calls: seq<Call>)
    ensures h.sequence <= Run(h, calls).sequence
    decreases |calls|
  {
    if calls != [] {
      SequenceGrows(Exec(h, calls[0]).0, calls[1..]);
    }
  }

  /**
   After a deposit, if the payer authorises nothing more, no run pays the payee. The only possible
   end is a refund, at a ledger at or past the deposit's ledger plus `timeoutLedgers`, a sum that fits
   32 bits; and from that ledger on anyone's refund goes through.
   */
  lemma DeadlineRule(h0: Host, before: seq<Call>, deposit: Call, after: seq<Call>)
    requires Genesis(h0) && forall token :: Supply(h0, token) <= I128_MAX
    requires deposit.Deposit? && Exec(Run(h0, before), deposit).1.Created?
    requires Silent(deposit.payer, after)
    ensures var h := Run(h0, before);
            var id: U64, deadline := h.nextId, h.sequence + deposit.timeoutLedgers;
            var h' := Run(Exec(h, deposit).0, after);
            && deadline <= U32_MAX
            && id in h'.escrows
            && h'.escrows[id].timeoutLedger == deadline
            && h'.escrows[id].status != Released
            && Received(Exec(h, deposit).0, after, id, deposit.token, deposit.payee) == 0
            && (h'.sequence < deadline ==> h'.escrows[id].status == Locked)
            && (h'.sequence >= deadline && h'.escrows[id].status == Locked ==> Exec(h', Refund(id, {})).1.Completed?)
  {
    var h := Run(h0, before);
    RunKeepsValid(h0, before);
    ExecKeepsValid(h, deposit);
    var h1 := Exec(h, deposit).0;
    SilentPayer(h1, after, h.nextId);
    RecordIsPermanent(h1, after, h.nextId);
    FinalisedOnce(h1, after, h.nextId, deposit.token, deposit.payee);
    var all := before + ([deposit] + after);
    RunAppend(h0, before, [deposit] + after);
    assert ([deposit] + after)[1..] == after;
    NothingStuck(h0, all, h.nextId, {});
  }

  lemma {:induction false} RunAppend(h: Host, a: seq<Call>, b: seq<Call>)
    ensures Run(h, a + b) == Run(Run(h, a), b)
    decreases |a|
  {
    if a == [] {
      assert a + b == b;
    } else {
      assert (a + b)[1..] == a[1..] + b;
      RunAppend(Exec(h, a[0]).0, a[1..], b);
    }
  }
}
