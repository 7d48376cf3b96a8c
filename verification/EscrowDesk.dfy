/**
 The escrow service in the source's own form: its calls, each run to completion, updating the escrows
 table and the deployed contract in place. Every call logs the segments it goes through, so that the
 history of the desk is a run of `EscrowService` and everything proved about runs holds of it.
 */
module EscrowDesk {
  import opened Option
  import opened EscrowContract
  import opened EscrowAccounting
  import opened EscrowHistory
  import opened EscrowService
  import opened EscrowTracking
  import opened Repositories
  import opened Sequences
  import Soroban = SorobanInvocation

  /**
   What the network does to one invocation: whether it is accepted for submission, before which poll
   the ledger executes it if it does while the client waits, and which poll, if any, goes unanswered.
   `readable` tells whether the new escrow can be read back afterwards.
   */
  datatype Wire = Wire(accepted: bool, landsBefore: Option<nat>, lostAt: Option<nat>, readable: bool)
  {
    predicate LandedBy(poll: nat) { landsBefore.Some? && landsBefore.value <= poll }

    function Status(outcome: Outcome, poll: nat): Soroban.TxStatus {
      if lostAt == Some(poll) then Soroban.UNANSWERED
      else if !LandedBy(poll) then Soroban.NOT_FOUND
      else if outcome.Succeeded() then Soroban.SUCCESS else Soroban.FAILED
    }

    /** The ledger executes the call in time, and the client hears of it. */
    ghost predicate Prompt(elapsed: nat -> nat) {
      && accepted && landsBefore.Some?
      && (lostAt.Some? ==> landsBefore.value < lostAt.value)
      && forall k :: 0 <= k < landsBefore.value ==> elapsed(k) <= Soroban.POLL_TIMEOUT_MS
    }
  }

  /** How a call went: how far it came, and whether the ledger executed what it submitted. */
  datatype Course =
    | Refused                // answered from the table alone
    | NoWallet               // the wallet could not be resolved
    | NotSent                // nothing was submitted
    | Lost(landed: bool)     // submitted, and given up on
    | Done
  {
    predicate Landed() { Done? || (Lost? && landed) }
  }

  function Submission(t: nat, x: nat, course: Course): seq<Step> {
    match course
    case Lost(landed) => [Submit(t)] + if landed then [Land(x)] else []
    case Done => [Submit(t)] + [Land(x)]
    case _ => []
  }

  function DepositEnding(t: nat, course: Course): seq<Step> {
    if course.Done? then [Poll(t)] + [Read(t)] + [Write(t)] else [Throw(t)] + [Write(t)]
  }

  /** The segments of a deposit call `t` that submits transaction `x`. */
  function DepositSegments(begin: Step, t: nat, x: nat, course: Course): seq<Step> {
    if course.Refused? then []
    else if course.NoWallet? then [begin] + [Crash(t)]
    else [begin] + (Submission(t, x, course) + DepositEnding(t, course))
  }

  function FinalEnding(t: nat, course: Course): seq<Step> {
    if course.Done? then [Poll(t)] + [Write(t)] else [Throw(t)]
  }

  /** And those of a release or refund call. */
  function FinalSegments(begin: Step, t: nat, x: nat, course: Course): seq<Step> {
    if course.Refused? then []
    else if course.NoWallet? then [begin] + [Crash(t)]
    else [begin] + (Submission(t, x, course) + FinalEnding(t, course))
  }

  /** Whatever a transaction of the service achieved on the chain is recorded in its row. */
  ghost predicate NothingMissed(w: World) {
    forall x :: 0 <= x < |w.txs| && w.txs[x].result.Some? && w.txs[x].result.value.Succeeded() ==> Recorded(w, x)
  }

  lemma {:induction false} PlaySnoc(w: World, steps: seq<Step>, s: Step)
    ensures Play(w, steps + [s]) == Next(Play(w, steps), s)
    decreases |steps|
  {
    if steps == [] {
      assert Play(w, [s]) == Play(Next(w, s), [s][1..]);
    } else {
      assert (steps + [s])[1..] == steps[1..] + [s];
      PlaySnoc(Next(w, steps[0]), steps[1..], s);
    }
  }

  lemma DeskInv(start: World, trace: seq<Step>)
    requires Start(start)
    ensures Inv(Play(start, trace))
  {
    PlayKeeps(start, trace);
  }

  lemma PromptIsAnswered(wire: Wire, outcome: Outcome, elapsed: nat -> nat, r: Soroban.Invocation, polls: nat)
    requires wire.Prompt(elapsed) && outcome.Succeeded() && polls > 0
    requires forall k :: 0 <= k < polls - 1 ==> wire.Status(outcome, k) == Soroban.NOT_FOUND
    requires r == Soroban.Returned <==> wire.Status(outcome, polls - 1) == Soroban.SUCCESS
    requires wire.Status(outcome, polls - 1) == Soroban.NOT_FOUND ==> elapsed(polls - 1) > Soroban.POLL_TIMEOUT_MS
    ensures r == Soroban.Returned && wire.LandedBy(polls - 1)
  {
    var k := wire.landsBefore.value;
    assert wire.Status(outcome, k) == Soroban.SUCCESS;
  }

  /** Waits for a call with result `outcome`. */
  method Wait(wire: Wire, outcome: Outcome, elapsed: nat -> nat) returns (answered: bool, landed: bool)
    requires forall k :: elapsed(k) >= Soroban.POLL_INTERVAL_MS * k
    ensures landed ==> wire.landsBefore.Some?
    ensures answered ==> landed && outcome.Succeeded()
    ensures wire.Prompt(elapsed) && outcome.Succeeded() ==> answered
  {
    var status := (k: nat) => wire.Status(outcome, k);
    var r, polls := Soroban.AwaitResult(status, elapsed);
    if wire.Prompt(elapsed) && outcome.Succeeded() {
      forall k: nat ensures status(k) == wire.Status(outcome, k) {}
      PromptIsAnswered(wire, outcome, elapsed, r, polls);
    }
    answered, landed := r == Soroban.Returned, wire.LandedBy(polls - 1);
  }

  /** A call that adds one row, and a transaction that is recorded there if it achieved anything. */
  lemma MissesNothing(w: World, w': World)
    requires Inv(w) && |w'.rows| == |w.rows| + 1 && w.rows <= w'.rows && w.txs <= w'.txs && |w'.txs| <= |w.txs| + 1
    requires |w'.txs| > |w.txs| && w'.txs[|w.txs|].result.Some? && w'.txs[|w.txs|].result.value.Succeeded() ==> Recorded(w', |w.txs|)
    ensures NothingMissed(w) ==> NothingMissed(w')
  {
    forall x: nat | x < |w.txs| && Recorded(w, x) ensures Recorded(w', x) {
      assert w'.txs[x] == w.txs[x];
    }
  }

  /** The same for a call that finalises a row which recorded no release or refund before. */
  lemma FinalMissesNothing(w: World, w': World, r: nat)
    requires Inv(w) && r < |w.rows| && w.rows[r].status == LOCKED && w.txs <= w'.txs && |w'.txs| <= |w.txs| + 1
    requires |w'.rows| == |w.rows| && w'.rows[r].depositTx == w.rows[r].depositTx
    requires forall q :: 0 <= q < |w.rows| && q != r ==> w'.rows[q] == w.rows[q]
    requires |w'.txs| > |w.txs| && w'.txs[|w.txs|].result.Some? && w'.txs[|w.txs|].result.value.Succeeded() ==> Recorded(w', |w.txs|)
    ensures NothingMissed(w) ==> NothingMissed(w')
  {
    assert RowOk(w, r, w.rows[r]);
    forall x: nat | x < |w.txs| && Recorded(w, x) ensures Recorded(w', x) {
      assert w'.txs[x] == w.txs[x];
    }
  }

  /** The row's escrow leaves Locked, its amount goes from the contract to `to`, and nothing else changes. */
  ghost predicate PaysOut(h: Host, h': Host, row: Row, to: Address, status: Status) {
    && row.chainId.Some? && row.chainId.value in h.escrows && h.escrows[row.chainId.value].status == Locked
    && h' == h.(balances := h'.balances, escrows := h.escrows[row.chainId.value := h.escrows[row.chainId.value].(status := status)])
    && to != h.self && h'.Balance(row.token, to) == h.Balance(row.token, to) + row.amount
    && h'.Balance(row.token, h.self) == h.Balance(row.token, h.self) - row.amount
    && forall token, who :: token != row.token || who !in {to, h.self} ==> h'.Balance(token, who) == h.Balance(token, who)
  }

  lemma FinalPaysOut(h: Host, row: Row, kind: Kind)
    requires Valid(h) && Describes(h, row) && row.chainId.Some?
    requires Exec(h, FinalCall(row, kind, row.chainId.value)).1.Completed?
    ensures PaysOut(h, Exec(h, FinalCall(row, kind, row.chainId.value)).0, row,
                    if kind.ToPayee? then row.payee else row.payer, if kind.ToPayee? then Released else Refunded)
  {
    var to := if kind.ToPayee? then row.payee else row.payer;
    var h' := Exec(h, FinalCall(row, kind, row.chainId.value)).0;
    forall token, who
      ensures h'.Balance(token, who) - h.Balance(token, who) ==
              if token != row.token then 0 else (if who == to then row.amount else 0) - (if who == h.self then row.amount else 0)
    {
      MoveShifts(h, row.token, h.self, to, row.amount, token, who);
    }
  }

  class Desk {
    const repo: EscrowRepository
    const chain: Instance
    var submitted: nat          // stands for the hash of the next transaction
    ghost var start: World
    ghost var trace: seq<Step>

    ghost function Now(): World
      reads this
    {
      Play(start, trace)
    }

    /** The table and the contract are where the logged run leads. */
    ghost predicate Valid()
      reads this, repo, chain
    {
      Start(start) && repo.rows == Now().rows && chain.Abs() == Now().chain && submitted == |Now().txs|
    }

    constructor (repo: EscrowRepository, chain: Instance)
      requires repo.rows == [] && Genesis(chain.Abs())
      ensures Valid() && trace == [] && this.repo == repo && this.chain == chain
    {
      this.repo, this.chain, submitted := repo, chain, 0;
      start, trace := World(chain.Abs(), [], [], []), [];
    }

    ghost method Log(s: Step)
      modifies this`trace
      ensures trace == old(trace) + [s] && Now() == Next(old(Now()), s)
    {
      PlaySnoc(start, trace, s);
      trace := trace + [s];
    }

    /** Somebody else invokes the contract. */
    method ThirdParty(c: Call) returns (o: Outcome)
      requires Valid()
      modifies this, chain
      ensures Valid() && trace == old(trace) + [External(c)]
      ensures (chain.Abs(), o) == Exec(old(chain.Abs()), c)
    {
      o := chain.Invoke(c);
      Log(External(c));
    }

    /** The ledger executes a transaction whose call is over. */
    method LandLate(x: nat, c: Call) returns (o: Outcome)
      requires Valid() && x < |Now().txs| && Now().txs[x].result.None? && Now().txs[x].call == c
      modifies this, chain
      ensures Valid() && trace == old(trace) + [Land(x)]
      ensures (chain.Abs(), o) == Exec(old(chain.Abs()), c)
    {
      o := chain.Invoke(c);
      Log(Land(x));
    }

    /**
     `submitInvocation`: submits and polls. The call is answered only if the ledger executed it with
     success, and always if it did so in time and no poll failed.
     */
    method SubmitAndWait(ghost t: nat, c: Call, wire: Wire, elapsed: nat -> nat) returns (course: Course, o: Outcome)
      requires Valid() && forall k :: elapsed(k) >= Soroban.POLL_INTERVAL_MS * k
      requires t < |Now().tasks| && |SubmitTask(Now(), t).txs| == |Now().txs| + 1
      requires SubmitTask(Now(), t).txs[|Now().txs|].call == c && SubmitTask(Now(), t).txs[|Now().txs|].result.None?
      modifies this, chain
      ensures Valid()
      ensures course.NotSent? || course.Lost? || course.Done?
      ensures course.NotSent? <==> !wire.accepted
      ensures course.Landed() ==> wire.landsBefore.Some?
      ensures course.Done? ==> o == Exec(old(chain.Abs()), c).1 && o.Succeeded()
      ensures wire.Prompt(elapsed) && Exec(old(chain.Abs()), c).1.Succeeded() ==> course.Done?
      ensures trace == old(trace) + Submission(t, |old(Now()).txs|, course)
      ensures chain.Abs() == if course.Landed() then Exec(old(chain.Abs()), c).0 else old(chain.Abs())
      ensures Now() == if course.NotSent? then old(Now())
                       else if course.Landed() then LandTx(SubmitTask(old(Now()), t), |old(Now()).txs|)
                       else SubmitTask(old(Now()), t)
    {
      o := Trapped;
      if !wire.accepted {
        return NotSent, o;
      }
      ghost var x := |Now().txs|;
      Log(Submit(t));
      submitted := submitted + 1;
      var outcome := Exec(chain.Abs(), c).1;
      var answered, landed := Wait(wire, outcome, elapsed);
      if landed {
        o := chain.Invoke(c);
        Log(Land(x));
      }
      course := if answered then Done else Lost(landed);
    }

    // ---------- the segments of a deposit ----------

    method BeginDeposit(key: string, payer: Address, payee: Address, token: Address, amount: nat, timeoutLedgers: U32)
      returns (escrow: nat)
      requires Valid() && !KeyTaken(repo.rows, key) && KeysApart(repo.rows)
      modifies this, repo
      ensures Valid() && trace == old(trace) + [StartDeposit(key, payer, payee, token, amount, timeoutLedgers)]
      ensures escrow == |old(repo.rows)| && repo.rows == old(repo.rows) + [NewRow(key, payer, payee, token, amount)]
      ensures Now().tasks == old(Now()).tasks + [DepositSend(escrow, timeoutLedgers)]
      ensures Now().txs == old(Now()).txs && chain.Abs() == old(chain.Abs())
    {
      var created := repo.Create(key, payer, payee, token, amount);
      escrow := created.value;
      Log(StartDeposit(key, payer, payee, token, amount, timeoutLedgers));
    }

    /** The error path: the row is marked FAILED, whatever the network may still do. */
    method FailDeposit(ghost t: nat, escrow: nat)
      requires Valid() && escrow < |repo.rows| && t < |Now().tasks| && ThrowTask(Now(), t).tasks[t] == DepositFail(escrow)
      modifies this, repo
      ensures Valid() && trace == old(trace) + ([Throw(t)] + [Write(t)])
      ensures repo.rows == old(repo.rows)[escrow := old(repo.rows)[escrow].(status := FAILED)]
      ensures Now().txs == old(Now()).txs && chain.Abs() == old(chain.Abs())
    {
      Log(Throw(t));
      var _ := repo.UpdateStatus(escrow, EscrowUpdate(FAILED));
      Log(Write(t));
    }

    /** The deposit is known to have succeeded: the escrow is read back and the row names it. */
    method LockRow(ghost t: nat, escrow: nat, hash: nat, id: U64)
      requires Valid() && escrow < |repo.rows| && t < |Now().tasks| && Now().tasks[t] == DepositWait(escrow, hash)
      requires hash < |Now().txs| && Now().txs[hash].result == Some(Created(id)) && id in chain.escrows
      modifies this, repo
      ensures Valid() && trace == old(trace) + ([Poll(t)] + [Read(t)] + [Write(t)])
      ensures repo.rows == old(repo.rows)[escrow := old(repo.rows)[escrow].(
                  chainId := Some(id), timeoutLedger := Some(chain.escrows[id].timeoutLedger),
                  depositTx := Some(hash), status := LOCKED)]
      ensures Now().txs == old(Now()).txs && chain.Abs() == old(chain.Abs())
    {
      Log(Poll(t));
      var onChain := chain.escrows[id];
      Log(Read(t));
      var _ := repo.UpdateStatus(escrow, EscrowUpdate(LOCKED, chainId := Some(id),
                                                      timeoutLedger := Some(onChain.timeoutLedger), depositTx := Some(hash)));
      Log(Write(t));
    }

    /** What a submitted transaction achieved without being given up on is in the table, and only one was submitted. */
    twostate predicate NothingDropped(course: Course)
      reads this
    {
      && old(Now()).txs <= Now().txs && |Now().txs| <= |old(Now()).txs| + 1
      && (course != Lost(true) && |Now().txs| > |old(Now()).txs| ==>
            var tx := Now().txs[|old(Now()).txs|];
            tx.result.Some? && tx.result.value.Succeeded() ==> Recorded(Now(), |old(Now()).txs|))
    }

    /** The `try` block of a deposit and its `catch`. */
    method TryDeposit(ghost t: nat, escrow: nat, timeoutLedgers: U32, wire: Wire, elapsed: nat -> nat)
      returns (ghost course: Course, ok: bool)
      requires Valid() && forall k :: elapsed(k) >= Soroban.POLL_INTERVAL_MS * k
      requires escrow < |repo.rows| && t < |Now().tasks| && Now().tasks[t] == DepositSend(escrow, timeoutLedgers)
      modifies this, repo, chain
      ensures Valid() && NothingDropped(course)
      ensures course.NotSent? || course.Lost? || course.Done?
      ensures ok <==> course.Done?
      ensures trace == old(trace) + (Submission(t, |old(Now()).txs|, course) + DepositEnding(t, course))
      ensures |repo.rows| == |old(repo.rows)|
      ensures forall k :: 0 <= k < |repo.rows| && k != escrow ==> repo.rows[k] == old(repo.rows)[k]
      ensures !ok ==> repo.rows[escrow] == old(repo.rows)[escrow].(status := FAILED)
      ensures ok ==>
                && old(chain.nextId) <= U64_MAX && old(chain.nextId) in chain.escrows
                && var e := chain.escrows[old(chain.nextId)];
                   && SameTerms(e, old(repo.rows)[escrow]) && e.status == Locked
                   && e.timeoutLedger == old(chain.sequence) + timeoutLedgers
                   && repo.rows[escrow] == old(repo.rows)[escrow].(
                        status := LOCKED, chainId := Some(old(chain.nextId)), timeoutLedger := Some(e.timeoutLedger),
                        depositTx := Some(|old(Now()).txs|))
      ensures !course.Landed() ==> chain.Abs() == old(chain.Abs())
      ensures old(repo.rows)[escrow].amount > I128_MAX ==> course.NotSent?
      ensures old(repo.rows)[escrow].amount <= I128_MAX ==>
                var row := old(repo.rows)[escrow];
                var (h, o) := Exec(old(chain.Abs()), Deposit(row.payer, row.payee, row.token, row.amount, timeoutLedgers, {row.payer}));
                && (course.Landed() ==> chain.Abs() == h)
                && (ok ==> o.Created?)
                && (wire.Prompt(elapsed) && wire.readable && o.Created? ==> ok)
    {
      ghost var before, x := trace, |Now().txs|;
      var row := repo.rows[escrow];
      var sent, outcome := NotSent, Trapped;
      if row.amount <= I128_MAX {
        sent, outcome := SubmitAndWait(t, DepositCall(row, timeoutLedgers), wire, elapsed);
      }
      ok := sent.Done? && wire.readable && outcome.Created? && outcome.id in chain.escrows;
      if ok {
        LockRow(t, escrow, submitted - 1, outcome.id);
        course := Done;
      } else {
        course := if sent.Done? then Lost(true) else sent;
        FailDeposit(t, escrow);
      }
      Joined(before, Submission(t, x, course), DepositEnding(t, course));
    }

    /**
     `depositForUser`; no row means that it threw. A known key changes nothing. Under a new one the call
     leaves one row: PENDING if the wallet could not be resolved; LOCKED if the ledger executed the deposit
     and the service heard of it, naming the escrow just created, which has the terms asked for and falls due
     `timeoutLedgers` after the ledger it was created in; and FAILED otherwise. Unless
     a deposit landed that was given up on, the table misses nothing that it did not miss before.
     */
    method DepositForUser(key: string, payer: Address, payee: Address, token: Address, amount: nat,
                          timeoutLedgers: U32, wallet: bool, wire: Wire, elapsed: nat -> nat)
      returns (row: Option<nat>, ghost course: Course)
      requires Valid() && forall k :: elapsed(k) >= Soroban.POLL_INTERVAL_MS * k
      modifies this, repo, chain
      ensures Valid()
      ensures trace == old(trace) + DepositSegments(StartDeposit(key, payer, payee, token, amount, timeoutLedgers),
                                                    |old(Now()).tasks|, |old(Now()).txs|, course)
      ensures course.Refused? <==> KeyTaken(old(repo.rows), key)
      ensures !course.Refused? ==> (course.NoWallet? <==> !wallet) && (row.Some? <==> course.Done?)
      ensures course.Refused? ==> row.Some? && repo.rows == old(repo.rows)
      ensures row.Some? ==> row.value < |repo.rows| && repo.rows[row.value].key == key
      ensures !course.Refused? ==>
                var born := NewRow(key, payer, payee, token, amount);
                var n := |old(repo.rows)|;
                && |repo.rows| == n + 1 && repo.rows[..n] == old(repo.rows)
                && (course.NoWallet? ==> repo.rows[n] == born)
                && (course.NotSent? || course.Lost? ==> repo.rows[n] == born.(status := FAILED))
                && (course.Done? ==>
                      && row.value == n && old(chain.nextId) <= U64_MAX && old(chain.nextId) in chain.escrows
                      && var e := chain.escrows[old(chain.nextId)];
                         && e.payer == payer && e.payee == payee && e.token == token && e.amount == amount && e.status == Locked
                         && e.timeoutLedger == old(chain.sequence) + timeoutLedgers
                         && repo.rows[n] == Row(key, payer, payee, token, amount, Some(old(chain.nextId)), Some(e.timeoutLedger),
                                                Some(|old(Now()).txs|), None, LOCKED))
                && (amount > I128_MAX ==> !course.Landed())
                && (amount <= I128_MAX ==>
                      var (h, o) := Exec(old(chain.Abs()), Deposit(payer, payee, token, amount, timeoutLedgers, {payer}));
                      && (chain.Abs() == if course.Landed() then h else old(chain.Abs()))
                      && (course.Done? ==> o.Created?)
                      && (wallet && wire.Prompt(elapsed) && wire.readable && o.Created? ==> course.Done?))
      ensures !course.Landed() ==> chain.Abs() == old(chain.Abs())
      ensures old(NothingMissed(Now())) && course != Lost(true) ==> NothingMissed(Now())
    {
      ghost var w, before := Now(), trace;
      ghost var t, x := |w.tasks|, |w.txs|;
      ghost var begin := StartDeposit(key, payer, payee, token, amount, timeoutLedgers);
      DeskInv(start, trace);
      row := repo.FindByIdempotencyKey(key);
      if row.Some? {
        course := Refused;
        return;
      }
      var escrow := BeginDeposit(key, payer, payee, token, amount, timeoutLedgers);
      if !wallet {
        Log(Crash(t));
        course := NoWallet;
        Joined(before, [begin], [Crash(t)]);
        MissesNothing(w, Now());
        return;
      }
      var ok;
      course, ok := TryDeposit(t, escrow, timeoutLedgers, wire, elapsed);
      Joined(before, [begin], Submission(t, x, course) + DepositEnding(t, course));
      row := if ok then Some(escrow) else None;
      if course != Lost(true) {
        MissesNothing(w, Now());
      }
    }

    // ---------- releases and refunds ----------

    method BeginFinal(escrow: nat, kind: Kind)
      requires Valid() && escrow < |repo.rows| && repo.rows[escrow].status == LOCKED && repo.rows[escrow].chainId.Some?
      modifies this`trace
      ensures Valid() && trace == old(trace) + [StartFinal(escrow, kind)]
      ensures Now().tasks == old(Now()).tasks + [FinalSend(escrow, kind, repo.rows[escrow].chainId.value)]
      ensures Now().txs == old(Now()).txs
    {
      Log(StartFinal(escrow, kind));
    }

    method CloseRow(ghost t: nat, escrow: nat, kind: Kind, hash: nat)
      requires Valid() && escrow < |repo.rows| && t < |Now().tasks| && Now().tasks[t] == FinalWait(escrow, kind, hash)
      requires hash < |Now().txs| && Now().txs[hash].result == Some(Completed)
      modifies this, repo
      ensures Valid() && trace == old(trace) + ([Poll(t)] + [Write(t)])
      ensures repo.rows == old(repo.rows)[escrow := old(repo.rows)[escrow].(finalTx := Some(hash), status := FinalStatus(kind))]
      ensures Now().txs == old(Now()).txs && chain.Abs() == old(chain.Abs())
    {
      Log(Poll(t));
      var _ := repo.UpdateStatus(escrow, EscrowUpdate(FinalStatus(kind), finalTx := Some(hash)));
      Log(Write(t));
    }

    /** The `try` block of a release or refund; its `catch` leaves the row as it is. */
    method TryFinalise(ghost t: nat, escrow: nat, kind: Kind, id: U64, wire: Wire, elapsed: nat -> nat)
      returns (ghost course: Course, ok: bool)
      requires Valid() && forall k :: elapsed(k) >= Soroban.POLL_INTERVAL_MS * k
      requires escrow < |repo.rows| && t < |Now().tasks| && Now().tasks[t] == FinalSend(escrow, kind, id)
      requires repo.rows[escrow].chainId == Some(id)
      requires EscrowAccounting.Valid(chain.Abs()) && Describes(chain.Abs(), repo.rows[escrow])
      modifies this, repo, chain
      ensures Valid() && NothingDropped(course)
      ensures course.NotSent? || course.Lost? || course.Done?
      ensures ok <==> course.Done?
      ensures trace == old(trace) + (Submission(t, |old(Now()).txs|, course) + FinalEnding(t, course))
      ensures repo.rows == if !ok then old(repo.rows)
                           else old(repo.rows)[escrow := old(repo.rows)[escrow].(
                                  finalTx := Some(|old(Now()).txs|), status := if kind.ToPayee? then RELEASED else REFUNDED)]
      ensures var payer := old(repo.rows)[escrow].payer;
              var (h, o) := Exec(old(chain.Abs()), if kind.ToPayee? then Release(id, {payer}) else Refund(id, {payer}));
              && chain.Abs() == (if course.Landed() then h else old(chain.Abs()))
              && (ok ==> o.Completed?)
              && (ok ==> PaysOut(old(chain.Abs()), h, old(repo.rows)[escrow],
                                 if kind.ToPayee? then old(repo.rows)[escrow].payee else payer,
                                 if kind.ToPayee? then Released else Refunded))
              && (wire.Prompt(elapsed) && o.Completed? ==> ok)
    {
      ghost var before, x := trace, |Now().txs|;
      var call := FinalCall(repo.rows[escrow], kind, id);
      var sent, outcome := SubmitAndWait(t, call, wire, elapsed);
      course := sent;
      ok := sent.Done?;
      if ok {
        FinalPaysOut(old(chain.Abs()), old(repo.rows)[escrow], kind);
        CloseRow(t, escrow, kind, submitted - 1);
      } else {
        Log(Throw(t));
      }
      Joined(before, Submission(t, x, course), FinalEnding(t, course));
    }

    /**
     `releaseForUser` and `refundForUser`. They throw before submitting anything unless the row is
     LOCKED and the wallet can be resolved; then the row takes its final status exactly when the service
     heard that the contract moved the tokens, and stays LOCKED otherwise. Unless a call landed that was
     given up on, the table misses nothing that it did not miss before.
     */
    method FinaliseForUser(escrow: nat, kind: Kind, wallet: bool, wire: Wire, elapsed: nat -> nat)
      returns (done: bool, ghost course: Course)
      requires Valid() && forall k :: elapsed(k) >= Soroban.POLL_INTERVAL_MS * k
      modifies this, repo, chain
      ensures Valid()
      ensures trace == old(trace) + FinalSegments(StartFinal(escrow, kind), |old(Now()).tasks|, |old(Now()).txs|, course)
      ensures course.Refused? <==> !(escrow < |old(repo.rows)| && old(repo.rows)[escrow].status == LOCKED)
      ensures !course.Refused? ==> (course.NoWallet? <==> !wallet)
      ensures done <==> course.Done?
      ensures !done ==> repo.rows == old(repo.rows)
      ensures !course.Landed() ==> chain.Abs() == old(chain.Abs())
      ensures !course.Refused? && !course.NoWallet? ==>
                && old(repo.rows)[escrow].chainId.Some?
                && var id, payer := old(repo.rows)[escrow].chainId.value, old(repo.rows)[escrow].payer;
                   var (h, o) := Exec(old(chain.Abs()), if kind.ToPayee? then Release(id, {payer}) else Refund(id, {payer}));
                   && (course.Landed() ==> chain.Abs() == h)
                   && (done ==> o.Completed?)
                   && (wire.Prompt(elapsed) && o.Completed? ==> done)
      ensures done ==>
                var row := old(repo.rows)[escrow];
                && PaysOut(old(chain.Abs()), chain.Abs(), row, if kind.ToPayee? then row.payee else row.payer,
                           if kind.ToPayee? then Released else Refunded)
                && repo.rows == old(repo.rows)[escrow := row.(
                                  finalTx := Some(|old(Now()).txs|), status := if kind.ToPayee? then RELEASED else REFUNDED)]
      ensures old(NothingMissed(Now())) && course != Lost(true) ==> NothingMissed(Now())
    {
      ghost var w, before := Now(), trace;
      ghost var t, x := |w.tasks|, |w.txs|;
      done := false;
      DeskInv(start, trace);
      assert escrow < |w.rows| ==> RowOk(w, escrow, w.rows[escrow]);
      if escrow >= |repo.rows| || repo.rows[escrow].status != LOCKED || repo.rows[escrow].chainId.None? {
        course := Refused;
        return;
      }
      BeginFinal(escrow, kind);
      if !wallet {
        Log(Crash(t));
        course := NoWallet;
        Joined(before, [StartFinal(escrow, kind)], [Crash(t)]);
        return;
      }
      course, done := TryFinalise(t, escrow, kind, repo.rows[escrow].chainId.value, wire, elapsed);
      Joined(before, [StartFinal(escrow, kind)], Submission(t, x, course) + FinalEnding(t, course));
      if course != Lost(true) {
        FinalMissesNothing(w, Now(), escrow);
      }
    }
  }
}
