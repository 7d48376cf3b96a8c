/**
 What the escrow service submits and records is what it was asked for: every transaction and every row of
 a run goes back to a request of the run.
 */
module EscrowRequests {
  import opened Option
  import opened EscrowContract
  import opened EscrowAccounting
  import opened EscrowHistory
  import opened EscrowService

  predicate AsksUnder(s: Step, key: string) { s.StartDeposit? && s.key == key }

  /** The first request under a key: the one that opens its row. Later ones are retries. */
  function FirstAsk(steps: seq<Step>, key: string): (k: Option<nat>)
    ensures k.Some? ==> k.value < |steps| && AsksUnder(steps[k.value], key)
    ensures forall j :: 0 <= j < (if k.Some? then k.value else |steps|) ==> !AsksUnder(steps[j], key)
  {
    if steps == [] then None
    else
      var n := |steps| - 1;
      var earlier := FirstAsk(steps[..n], key);
      if earlier.Some? then earlier else if AsksUnder(steps[n], key) then Some(n) else None
  }

  /** A request, and the terms of the row it opens. */
  ghost predicate RowAsked(steps: seq<Step>, row: Row) {
    var k := FirstAsk(steps, row.key);
    && k.Some?
    && var s := steps[k.value];
       row.payer == s.payer && row.payee == s.payee && row.token == s.token && row.amount == s.amount
  }

  /** A deposit has the terms and the timeout of the request; releases and refunds were asked for as such. */
  ghost predicate CallAsked(steps: seq<Step>, rows: seq<Row>, tx: Tx) {
    && tx.row < |rows|
    && match tx.call
       case Deposit(payer, payee, token, amount, timeoutLedgers, auth) =>
         var k := FirstAsk(steps, rows[tx.row].key);
         && k.Some?
         && var s := steps[k.value];
            && payer == s.payer && payee == s.payee && token == s.token && amount == s.amount
            && timeoutLedgers == s.timeoutLedgers && auth == {s.payer}
       case Release(_, _) => StartFinal(tx.row, ToPayee) in steps
       case Refund(_, _) => StartFinal(tx.row, ToPayer) in steps
       case _ => false
  }

  ghost predicate TaskAsked(steps: seq<Step>, rows: seq<Row>, task: Task) {
    match task
    case DepositSend(r, timeoutLedgers) =>
      r < |rows| && var k := FirstAsk(steps, rows[r].key); k.Some? && steps[k.value].timeoutLedgers == timeoutLedgers
    case FinalSend(r, kind, _) => StartFinal(r, kind) in steps
    case FinalWait(r, kind, _) => StartFinal(r, kind) in steps
    case FinalWrite(r, kind, _) => StartFinal(r, kind) in steps
    case _ => true
  }

  ghost predicate EndAsked(steps: seq<Step>, r: nat, row: Row) {
    && (row.status == RELEASED ==> StartFinal(r, ToPayee) in steps)
    && (row.status == REFUNDED ==> StartFinal(r, ToPayer) in steps)
  }

  /** An escrow's deadline is its timeout past a ledger that the run has gone through. */
  ghost predicate DeadlineOk(from: nat, h: Host, tx: Tx) {
    tx.call.Deposit? && tx.result.Some? && tx.result.value.Created? ==>
      && tx.result.value.id in h.escrows
      && var deadline := h.escrows[tx.result.value.id].timeoutLedger;
         from + tx.call.timeoutLedgers <= deadline <= h.sequence + tx.call.timeoutLedgers
  }

  ghost predicate Asked(from: nat, steps: seq<Step>, w: World) {
    && from <= w.chain.sequence
    && (forall k :: 0 <= k < |steps| && steps[k].StartDeposit? ==> KeyTaken(w.rows, steps[k].key))
    && (forall r :: 0 <= r < |w.rows| ==> RowAsked(steps, w.rows[r]) && EndAsked(steps, r, w.rows[r]))
    && (forall x :: 0 <= x < |w.txs| ==> CallAsked(steps, w.rows, w.txs[x]) && DeadlineOk(from, w.chain, w.txs[x]))
    && (forall t :: 0 <= t < |w.tasks| ==> TaskAsked(steps, w.rows, w.tasks[t]))
  }

  // ---------- every step keeps it ----------

  lemma FirstAskLasts(steps: seq<Step>, s: Step, key: string)
    ensures FirstAsk(steps, key).Some? ==> FirstAsk(steps + [s], key) == FirstAsk(steps, key)
    ensures FirstAsk(steps, key).None? && AsksUnder(s, key) ==> FirstAsk(steps + [s], key) == Some(|steps|)
  {
    assert (steps + [s])[..|steps|] == steps;
  }

  /** A request that opens no row is only remembered. */
  lemma Remember(from: nat, steps: seq<Step>, s: Step, w: World)
    requires Asked(from, steps, w) && (s.StartDeposit? ==> KeyTaken(w.rows, s.key))
    ensures Asked(from, steps + [s], w)
  {
    forall r | 0 <= r < |w.rows| ensures RowAsked(steps + [s], w.rows[r]) && EndAsked(steps + [s], r, w.rows[r]) {
      assert RowAsked(steps, w.rows[r]) && EndAsked(steps, r, w.rows[r]);
      FirstAskLasts(steps, s, w.rows[r].key);
    }
    forall x | 0 <= x < |w.txs| ensures CallAsked(steps + [s], w.rows, w.txs[x]) {
      assert CallAsked(steps, w.rows, w.txs[x]);
      FirstAskLasts(steps, s, w.rows[w.txs[x].row].key);
    }
    forall t | 0 <= t < |w.tasks| ensures TaskAsked(steps + [s], w.rows, w.tasks[t]) {
      assert TaskAsked(steps, w.rows, w.tasks[t]);
      if w.tasks[t].DepositSend? {
        FirstAskLasts(steps, s, w.rows[w.tasks[t].row].key);
      }
    }
  }

  lemma OpenAsked(from: nat, steps: seq<Step>, s: Step, w: World)
    requires Asked(from, steps, w) && s.StartDeposit? && !KeyTaken(w.rows, s.key)
    ensures Asked(from, steps + [s], Next(w, s))
  {
    var w', n := Next(w, s), |w.rows|;
    assert w'.rows[n].key == s.key;
    FirstAskLasts(steps, s, s.key);
    assert FirstAsk(steps, s.key).None?;
    forall k | 0 <= k < |steps + [s]| && (steps + [s])[k].StartDeposit? ensures KeyTaken(w'.rows, (steps + [s])[k].key) {
      if k < |steps| {
        var r :| 0 <= r < |w.rows| && w.rows[r].key == steps[k].key;
        assert w'.rows[r] == w.rows[r];
      }
    }
    forall r | 0 <= r < |w'.rows| ensures RowAsked(steps + [s], w'.rows[r]) && EndAsked(steps + [s], r, w'.rows[r]) {
      if r < n {
        assert RowAsked(steps, w.rows[r]) && EndAsked(steps, r, w.rows[r]);
        FirstAskLasts(steps, s, w.rows[r].key);
      }
    }
    forall x | 0 <= x < |w.txs| ensures CallAsked(steps + [s], w'.rows, w.txs[x]) {
      assert CallAsked(steps, w.rows, w.txs[x]);
      FirstAskLasts(steps, s, w.rows[w.txs[x].row].key);
    }
    forall t | 0 <= t < |w'.tasks| ensures TaskAsked(steps + [s], w'.rows, w'.tasks[t]) {
      if t < |w.tasks| {
        assert TaskAsked(steps, w.rows, w.tasks[t]);
        if w.tasks[t].DepositSend? {
          FirstAskLasts(steps, s, w.rows[w.tasks[t].row].key);
        }
      }
    }
  }

  lemma StartFinalAsked(from: nat, steps: seq<Step>, s: Step, w: World)
    requires Asked(from, steps, w) && s.StartFinal? && s in steps
    ensures Asked(from, steps, Next(w, s))
  {
  }

  lemma SubmitAsked(from: nat, steps: seq<Step>, w: World, t: nat)
    requires Asked(from, steps, w) && Inv(w) && t < |w.tasks|
    ensures Asked(from, steps, SubmitTask(w, t))
  {
    var w' := SubmitTask(w, t);
    assert TaskAsked(steps, w.rows, w.tasks[t]) && TaskOk(w, w.tasks[t]);
    if |w'.txs| > |w.txs| {
      var tx := w'.txs[|w.txs|];
      assert RowAsked(steps, w.rows[tx.row]);
      assert CallAsked(steps, w.rows, tx);
    }
  }

  /** A call that creates an escrow gives it its deadline; every other leaves the deadlines alone. */
  lemma ExecDeadlines(h: Host, c: Call)
    requires Valid(h)
    ensures h.sequence <= Exec(h, c).0.sequence
    ensures forall id :: id in h.escrows ==>
                           id in Exec(h, c).0.escrows && Exec(h, c).0.escrows[id].timeoutLedger == h.escrows[id].timeoutLedger
    ensures c.Deposit? && Exec(h, c).1.Created? ==>
              && Exec(h, c).1.id in Exec(h, c).0.escrows
              && Exec(h, c).0.escrows[Exec(h, c).1.id].timeoutLedger == h.sequence + c.timeoutLedgers
  {
  }

  lemma ChainAsked(from: nat, steps: seq<Step>, w: World, c: Call)
    requires Asked(from, steps, w) && Inv(w)
    ensures Asked(from, steps, w.(chain := Exec(w.chain, c).0))
  {
    ExecDeadlines(w.chain, c);
    forall x | 0 <= x < |w.txs| ensures DeadlineOk(from, Exec(w.chain, c).0, w.txs[x]) {
      assert DeadlineOk(from, w.chain, w.txs[x]);
    }
  }

  lemma LandAsked(from: nat, steps: seq<Step>, w: World, x: nat)
    requires Asked(from, steps, w) && Inv(w) && x < |w.txs|
    ensures Asked(from, steps, LandTx(w, x))
  {
    if w.txs[x].result.None? {
      var w' := LandTx(w, x);
      ChainAsked(from, steps, w, w.txs[x].call);
      ExecDeadlines(w.chain, w.txs[x].call);
      forall y | 0 <= y < |w'.txs| ensures CallAsked(steps, w'.rows, w'.txs[y]) && DeadlineOk(from, w'.chain, w'.txs[y]) {
        assert CallAsked(steps, w.rows, w.txs[y]);
        assert y != x ==> DeadlineOk(from, w'.chain, w.txs[y]);
      }
    }
  }

  lemma TaskMoveAsked(from: nat, steps: seq<Step>, w: World, t: nat, task: Task)
    requires Asked(from, steps, w) && t < |w.tasks| && TaskAsked(steps, w.rows, task)
    ensures Asked(from, steps, SetTask(w, t, task))
  {
  }

  lemma MoveAsked(from: nat, steps: seq<Step>, w: World, s: Step)
    requires Asked(from, steps, w) && (s.Poll? || s.Read? || s.Throw? || s.Crash?) && s.task < |w.tasks|
    ensures Asked(from, steps, Next(w, s))
  {
    assert TaskAsked(steps, w.rows, w.tasks[s.task]);
    assert TaskAsked(steps, w.rows, Next(w, s).tasks[s.task]);
    assert Next(w, s) == SetTask(w, s.task, Next(w, s).tasks[s.task]);
    TaskMoveAsked(from, steps, w, s.task, Next(w, s).tasks[s.task]);
  }

  /** A row keeps its key and terms, and is finalised by a call that was asked for. */
  lemma UpdateAsked(from: nat, steps: seq<Step>, w: World, t: nat, r: nat, row: Row)
    requires Asked(from, steps, w) && t < |w.tasks| && r < |w.rows|
    requires row.key == w.rows[r].key && row.payer == w.rows[r].payer && row.payee == w.rows[r].payee
    requires row.token == w.rows[r].token && row.amount == w.rows[r].amount
    requires EndAsked(steps, r, row)
    ensures Asked(from, steps, SetTask(w.(rows := w.rows[r := row]), t, Ended))
  {
    var w' := SetTask(w.(rows := w.rows[r := row]), t, Ended);
    forall k | 0 <= k < |steps| && steps[k].StartDeposit? ensures KeyTaken(w'.rows, steps[k].key) {
      var q :| 0 <= q < |w.rows| && w.rows[q].key == steps[k].key;
      assert w'.rows[q].key == steps[k].key;
    }
    forall q | 0 <= q < |w'.rows| ensures RowAsked(steps, w'.rows[q]) && EndAsked(steps, q, w'.rows[q]) {
      assert RowAsked(steps, w.rows[q]) && EndAsked(steps, q, w.rows[q]);
    }
    forall x | 0 <= x < |w'.txs| ensures CallAsked(steps, w'.rows, w'.txs[x]) {
      assert CallAsked(steps, w.rows, w.txs[x]);
    }
    forall q | 0 <= q < |w'.tasks| ensures TaskAsked(steps, w'.rows, w'.tasks[q]) {
      assert q != t ==> TaskAsked(steps, w.rows, w.tasks[q]);
    }
  }

  lemma WriteAsked(from: nat, steps: seq<Step>, w: World, t: nat)
    requires Asked(from, steps, w) && Inv(w) && t < |w.tasks|
    ensures Asked(from, steps, WriteTask(w, t))
  {
    assert TaskAsked(steps, w.rows, w.tasks[t]) && TaskOk(w, w.tasks[t]);
    match w.tasks[t] {
      case DepositWrite(r, x, id, timeoutLedger) =>
        UpdateAsked(from, steps, w, t, r, w.rows[r].(chainId := Some(id), timeoutLedger := Some(timeoutLedger),
                                                     depositTx := Some(x), status := LOCKED));
      case DepositFail(r) => UpdateAsked(from, steps, w, t, r, w.rows[r].(status := FAILED));
      case FinalWrite(r, kind, x) =>
        UpdateAsked(from, steps, w, t, r, w.rows[r].(finalTx := Some(x), status := FinalStatus(kind)));
      case _ =>
    }
  }

  lemma NextAsked(from: nat, steps: seq<Step>, w: World, s: Step)
    requires Asked(from, steps, w) && Inv(w)
    ensures Asked(from, steps + [s], Next(w, s))
  {
    if s.StartDeposit? && !KeyTaken(w.rows, s.key) {
      OpenAsked(from, steps, s, w);
    } else {
      Remember(from, steps, s, w);
      match s {
        case StartFinal(_, _) => StartFinalAsked(from, steps + [s], s, w);
        case Submit(t) => if t < |w.tasks| { SubmitAsked(from, steps + [s], w, t); }
        case Land(x) => if x < |w.txs| { LandAsked(from, steps + [s], w, x); }
        case Write(t) => if t < |w.tasks| { WriteAsked(from, steps + [s], w, t); }
        case External(call) => ChainAsked(from, steps + [s], w, call);
        case StartDeposit(_, _, _, _, _, _) =>
        case _ => if s.task < |w.tasks| { MoveAsked(from, steps + [s], w, s); }
      }
    }
  }

  lemma {:induction false} PlayAsked(from: nat, past: seq<Step>, w: World, steps: seq<Step>)
    requires Asked(from, past, w) && Inv(w)
    ensures Asked(from, past + steps, Play(w, steps))
    decreases |steps|
  {
    if steps == [] {
      assert past + steps == past;
    } else {
      NextAsked(from, past, w, steps[0]);
      NextKeeps(w, steps[0]);
      assert past + steps == past + [steps[0]] + steps[1..];
      PlayAsked(from, past + [steps[0]], Next(w, steps[0]), steps[1..]);
    }
  }

  lemma RunAsked(w0: World, steps: seq<Step>)
    requires Start(w0)
    ensures Asked(w0.chain.sequence, steps, Play(w0, steps)) && Inv(Play(w0, steps))
  {
    PlayAsked(w0.chain.sequence, [], w0, steps);
    PlayKeeps(w0, steps);
    assert [] + steps == steps;
  }

  // ---------- main results ----------

  /**
   Every transaction of the service was asked for. A deposit carries the parties, token, amount and timeout
   of the first request under its row's key, whatever later requests under that key say, and the payer's
   signature alone. A release or refund was requested, as that, for the row it is submitted for.
   */
  lemma SubmitsWhatWasAsked(w0: World, steps: seq<Step>, x: nat)
    requires Start(w0) && x < |Play(w0, steps).txs|
    ensures var w := Play(w0, steps);
            var tx := w.txs[x];
            && tx.row < |w.rows|
            && (tx.call.Deposit? ==>
                  && FirstAsk(steps, w.rows[tx.row].key).Some?
                  && var s := steps[FirstAsk(steps, w.rows[tx.row].key).value];
                     && tx.call.payer == s.payer && tx.call.payee == s.payee && tx.call.token == s.token
                     && tx.call.amount == s.amount && tx.call.timeoutLedgers == s.timeoutLedgers && tx.call.auth == {s.payer})
            && (tx.call.Release? ==> StartFinal(tx.row, ToPayee) in steps)
            && (tx.call.Refund? ==> StartFinal(tx.row, ToPayer) in steps)
            && !tx.call.Pay? && !tx.call.Close?
  {
    RunAsked(w0, steps);
    assert CallAsked(steps, Play(w0, steps).rows, Play(w0, steps).txs[x]);
  }

  /**
   Every row has the terms of the first request under its key. If it names an escrow, the deadline it holds
   lies the requested number of ledgers after a ledger of the run; and it is RELEASED or REFUNDED only if that was
   requested for it.
   */
  lemma RowsHoldWhatWasAsked(w0: World, steps: seq<Step>, r: nat)
    requires Start(w0) && r < |Play(w0, steps).rows|
    ensures var w := Play(w0, steps);
            var row := w.rows[r];
            && FirstAsk(steps, row.key).Some?
            && var s := steps[FirstAsk(steps, row.key).value];
               && row.payer == s.payer && row.payee == s.payee && row.token == s.token && row.amount == s.amount
               && (row.chainId.Some? ==>
                     && row.timeoutLedger.Some?
                     && w0.chain.sequence + s.timeoutLedgers <= row.timeoutLedger.value <= w.chain.sequence + s.timeoutLedgers)
               && (row.status == RELEASED ==> StartFinal(r, ToPayee) in steps)
               && (row.status == REFUNDED ==> StartFinal(r, ToPayer) in steps)
  {
    RunAsked(w0, steps);
    var w := Play(w0, steps);
    var row := w.rows[r];
    assert RowAsked(steps, row) && EndAsked(steps, r, row) && RowOk(w, r, row);
    if row.chainId.Some? {
      var tx := w.txs[row.depositTx.value];
      assert CallAsked(steps, w.rows, tx) && DeadlineOk(w0.chain.sequence, w.chain, tx);
    }
  }
}
