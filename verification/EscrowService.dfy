/**
 The escrow service running against the contract. Each service call is a task that advances in atomic
 segments between awaited requests; tasks interleave with each other, with the ledger executing
 submitted transactions at any later time, with third-party calls, and with lost responses and crashes.
 */
module EscrowService {
  import opened Option
  import opened EscrowContract
  import opened EscrowAccounting

  datatype RowStatus = PENDING | LOCKED | RELEASED | REFUNDED | FAILED

  /** A row of the `escrows` table. `depositTx` and `finalTx` are transaction hashes. */
  datatype Row = Row(
    key: string, payer: Address, payee: Address, token: Address, amount: nat,
    chainId: Option<U64>, timeoutLedger: Option<U32>, depositTx: Option<nat>, finalTx: Option<nat>, status: RowStatus)

  datatype Kind = ToPayee | ToPayer

  /** A submitted transaction, who submitted it, and its result once the ledger has executed it. */
  datatype Tx = Tx(row: nat, call: Call, result: Option<Outcome>)

  datatype Task =
    | DepositSend(row: nat, timeoutLedgers: U32)             // the row exists, nothing submitted yet
    | DepositWait(row: nat, tx: nat)                         // submitted, polling for the result
    | DepositRead(row: nat, tx: nat, id: U64)                // saw SUCCESS, about to read the escrow back
    | DepositWrite(row: nat, tx: nat, id: U64, timeoutLedger: U32)
    | DepositFail(row: nat)                                  // caught an error, about to write FAILED
    | FinalSend(row: nat, kind: Kind, id: U64)
    | FinalWait(row: nat, kind: Kind, tx: nat)
    | FinalWrite(row: nat, kind: Kind, tx: nat)
    | Ended

  datatype World = World(chain: Host, rows: seq<Row>, tasks: seq<Task>, txs: seq<Tx>)

  datatype Step =
    | StartDeposit(key: string, payer: Address, payee: Address, token: Address, amount: nat, timeoutLedgers: U32)
    | StartFinal(row: nat, kind: Kind)
    | Submit(task: nat)
    | Land(tx: nat)
    | Poll(task: nat)
    | Read(task: nat)
    | Throw(task: nat)
    | Write(task: nat)
    | Crash(task: nat)
    | External(call: Call)

  function NewRow(key: string, payer: Address, payee: Address, token: Address, amount: nat): Row {
    Row(key, payer, payee, token, amount, None, None, None, None, PENDING)
  }

  predicate KeyTaken(rows: seq<Row>, key: string) {
    exists r :: 0 <= r < |rows| && rows[r].key == key
  }

  function DepositCall(row: Row, timeoutLedgers: U32): Call
    requires row.amount <= I128_MAX
  {
    Deposit(row.payer, row.payee, row.token, row.amount, timeoutLedgers, {row.payer})
  }

  /** Signed by the wallet of the row's own account, which is the escrow's payer. */
  function FinalCall(row: Row, kind: Kind, id: U64): Call {
    if kind == ToPayee then Release(id, {row.payer}) else Refund(id, {row.payer})
  }

  function FinalStatus(kind: Kind): RowStatus { if kind == ToPayee then RELEASED else REFUNDED }

  function SetTask(w: World, t: nat, task: Task): World
    requires t < |w.tasks|
  {
    w.(tasks := w.tasks[t := task])
  }

  function SubmitTask(w: World, t: nat): World
    requires t < |w.tasks|
  {
    match w.tasks[t]
    case DepositSend(r, timeoutLedgers) =>
      if r < |w.rows| && w.rows[r].amount <= I128_MAX then
        SetTask(w.(txs := w.txs + [Tx(r, DepositCall(w.rows[r], timeoutLedgers), None)]), t, DepositWait(r, |w.txs|))
      else SetTask(w, t, DepositFail(r))
    case FinalSend(r, kind, id) =>
      if r < |w.rows| then
        SetTask(w.(txs := w.txs + [Tx(r, FinalCall(w.rows[r], kind, id), None)]), t, FinalWait(r, kind, |w.txs|))
      else w
    case _ => w
  }

  function LandTx(w: World, x: nat): World
    requires x < |w.txs|
  {
    if w.txs[x].result.Some? then w
    else
      var (chain, outcome) := Exec(w.chain, w.txs[x].call);
      w.(chain := chain, txs := w.txs[x := w.txs[x].(result := Some(outcome))])
  }

  function PollTask(w: World, t: nat): World
    requires t < |w.tasks|
  {
    match w.tasks[t]
    case DepositWait(r, x) =>
      if x < |w.txs| && w.txs[x].result.Some? && w.txs[x].result.value.Created? then
        SetTask(w, t, DepositRead(r, x, w.txs[x].result.value.id))
      else w
    case FinalWait(r, kind, x) =>
      if x < |w.txs| && w.txs[x].result == Some(Completed) then SetTask(w, t, FinalWrite(r, kind, x)) else w
    case _ => w
  }

  function ReadTask(w: World, t: nat): World
    requires t < |w.tasks|
  {
    match w.tasks[t]
    case DepositRead(r, x, id) =>
      if id in w.chain.escrows then SetTask(w, t, DepositWrite(r, x, id, w.chain.escrows[id].timeoutLedger))
      else SetTask(w, t, DepositFail(r))
    case _ => w
  }

  function ThrowTask(w: World, t: nat): World
    requires t < |w.tasks|
  {
    match w.tasks[t]
    case DepositSend(r, _) => SetTask(w, t, DepositFail(r))
    case DepositWait(r, _) => SetTask(w, t, DepositFail(r))
    case DepositRead(r, _, _) => SetTask(w, t, DepositFail(r))
    case DepositWrite(r, _, _, _) => SetTask(w, t, DepositFail(r))
    case _ => SetTask(w, t, Ended)
  }

  function WriteTask(w: World, t: nat): World
    requires t < |w.tasks|
  {
    match w.tasks[t]
    case DepositWrite(r, x, id, timeoutLedger) =>
      if r < |w.rows| then
        SetTask(w.(rows := w.rows[r := w.rows[r].(chainId := Some(id), timeoutLedger := Some(timeoutLedger),
                                                  depositTx := Some(x), status := LOCKED)]), t, Ended)
      else w
    case DepositFail(r) =>
      if r < |w.rows| then SetTask(w.(rows := w.rows[r := w.rows[r].(status := FAILED)]), t, Ended) else w
    case FinalWrite(r, kind, x) =>
      if r < |w.rows| then
        SetTask(w.(rows := w.rows[r := w.rows[r].(finalTx := Some(x), status := FinalStatus(kind))]), t, Ended)
      else w
    case _ => w
  }

  /** One atomic segment of one task, or one move of the environment; a disabled step does nothing. */
  function Next(w: World, s: Step): World {
    match s
    case StartDeposit(key, payer, payee, token, amount, timeoutLedgers) =>
      if KeyTaken(w.rows, key) then w                        // answered with the existing row
      else w.(rows := w.rows + [NewRow(key, payer, payee, token, amount)],
              tasks := w.tasks + [DepositSend(|w.rows|, timeoutLedgers)])
    case StartFinal(r, kind) =>
      if r < |w.rows| && w.rows[r].status == LOCKED && w.rows[r].chainId.Some? then
        w.(tasks := w.tasks + [FinalSend(r, kind, w.rows[r].chainId.value)])
      else w
    case Submit(t) => if t < |w.tasks| then SubmitTask(w, t) else w
    case Land(x) => if x < |w.txs| then LandTx(w, x) else w
    case Poll(t) => if t < |w.tasks| then PollTask(w, t) else w
    case Read(t) => if t < |w.tasks| then ReadTask(w, t) else w
    case Throw(t) => if t < |w.tasks| then ThrowTask(w, t) else w
    case Write(t) => if t < |w.tasks| then WriteTask(w, t) else w
    case Crash(t) => if t < |w.tasks| then SetTask(w, t, Ended) else w
    case External(call) => w.(chain := Exec(w.chain, call).0)
  }

  function Play(w: World, steps: seq<Step>): World
    decreases |steps|
  {
    if steps == [] then w else Play(Next(w, steps[0]), steps[1..])
  }

  ghost predicate Start(w: World) {
    Genesis(w.chain) && w.rows == [] && w.tasks == [] && w.txs == []
  }

  // ---------- the invariant ----------

  predicate Depositing(t: Task) {
    t.DepositSend? || t.DepositWait? || t.DepositRead? || t.DepositWrite? || t.DepositFail?
  }

  /** Transaction `x` is the deposit of row `r` and it created escrow `id`. */
  predicate Opened(w: World, x: nat, r: nat, id: U64) {
    x < |w.txs| && w.txs[x].row == r && w.txs[x].call.Deposit? && w.txs[x].result == Some(Created(id))
  }

  ghost predicate SameTerms(e: Escrow, row: Row) {
    e.payer == row.payer && e.payee == row.payee && e.token == row.token && e.amount == row.amount
  }

  ghost predicate TxOk(w: World, tx: Tx) {
    && tx.row < |w.rows|
    && !tx.call.Pay? && !tx.call.Close?
    && tx.call.auth == {w.rows[tx.row].payer}
    && (tx.call.Deposit? ==>
          && w.rows[tx.row].amount <= I128_MAX
          && tx.call == DepositCall(w.rows[tx.row], tx.call.timeoutLedgers)
          && (tx.result.Some? && tx.result.value.Created? ==>
                tx.result.value.id in w.chain.escrows && SameTerms(w.chain.escrows[tx.result.value.id], w.rows[tx.row])))
    && (!tx.call.Deposit? ==>
          && w.rows[tx.row].chainId == Some(tx.call.id)
          && (tx.result == Some(Completed) ==>
                tx.call.id in w.chain.escrows
                && w.chain.escrows[tx.call.id].status == if tx.call.Release? then Released else Refunded))
  }

  ghost predicate TaskOk(w: World, task: Task) {
    match task
    case DepositSend(r, _) =>
      r < |w.rows| && w.rows[r].status == PENDING && forall x :: 0 <= x < |w.txs| ==> w.txs[x].row != r
    case DepositWait(r, x) =>
      r < |w.rows| && w.rows[r].status == PENDING && x < |w.txs| && w.txs[x].row == r && w.txs[x].call.Deposit?
    case DepositRead(r, x, id) => r < |w.rows| && w.rows[r].status == PENDING && Opened(w, x, r, id)
    case DepositWrite(r, x, id, timeoutLedger) =>
      && r < |w.rows| && w.rows[r].status == PENDING && Opened(w, x, r, id)
      && id in w.chain.escrows && w.chain.escrows[id].timeoutLedger == timeoutLedger
    case DepositFail(r) => r < |w.rows| && w.rows[r].status == PENDING
    case FinalSend(r, _, id) => r < |w.rows| && w.rows[r].chainId == Some(id)
    case FinalWait(r, kind, x) =>
      r < |w.rows| && x < |w.txs| && w.txs[x].row == r && w.rows[r].chainId.Some?
      && w.txs[x].call == FinalCall(w.rows[r], kind, w.rows[r].chainId.value)
    case FinalWrite(r, kind, x) =>
      r < |w.rows| && x < |w.txs| && w.txs[x].row == r && w.rows[r].chainId.Some?
      && w.txs[x].call == FinalCall(w.rows[r], kind, w.rows[r].chainId.value) && w.txs[x].result == Some(Completed)
    case Ended => true
  }

  /** What a row says about the chain is true, and it names an escrow exactly when it is LOCKED, RELEASED or REFUNDED. */
  ghost predicate Describes(h: Host, row: Row) {
    && (row.chainId.Some? <==> row.status in {LOCKED, RELEASED, REFUNDED})
    && (row.chainId.Some? ==>
          && row.chainId.value in h.escrows
          && var e := h.escrows[row.chainId.value];
          && SameTerms(e, row)
          && row.timeoutLedger == Some(e.timeoutLedger)
          && (row.status == RELEASED ==> e.status == Released)
          && (row.status == REFUNDED ==> e.status == Refunded))
  }

  /** Transaction `x` released or refunded the escrow of row `r`. */
  ghost predicate Closed(w: World, x: nat, r: nat, status: RowStatus) {
    x < |w.txs| && w.txs[x].row == r && !w.txs[x].call.Deposit? && w.txs[x].result == Some(Completed)
    && status == if w.txs[x].call.Release? then RELEASED else REFUNDED
  }

  ghost predicate RowOk(w: World, r: nat, row: Row) {
    && Describes(w.chain, row)
    && (row.depositTx.Some? <==> row.chainId.Some?)
    && (row.depositTx.Some? ==> Opened(w, row.depositTx.value, r, row.chainId.value))
    && (row.finalTx.Some? <==> row.status in {RELEASED, REFUNDED})
    && (row.finalTx.Some? ==> Closed(w, row.finalTx.value, r, row.status))
  }

  ghost predicate DepositsApart(txs: seq<Tx>) {
    forall x, y :: 0 <= x < y < |txs| && txs[x].call.Deposit? && txs[y].call.Deposit? ==>
                     && txs[x].row != txs[y].row
                     && (txs[x].result.Some? && txs[x].result.value.Created? && txs[y].result.Some? && txs[y].result.value.Created? ==>
                           txs[x].result.value.id != txs[y].result.value.id)
  }

  ghost predicate TasksApart(tasks: seq<Task>) {
    forall s, t :: 0 <= s < t < |tasks| && Depositing(tasks[s]) && Depositing(tasks[t]) ==> tasks[s].row != tasks[t].row
  }

  ghost predicate KeysApart(rows: seq<Row>) {
    forall r, q :: 0 <= r < q < |rows| ==> rows[r].key != rows[q].key
  }

  ghost predicate Inv(w: World) {
    && Valid(w.chain)
    && (forall x :: 0 <= x < |w.txs| ==> TxOk(w, w.txs[x]))
    && (forall t :: 0 <= t < |w.tasks| ==> TaskOk(w, w.tasks[t]))
    && (forall r :: 0 <= r < |w.rows| ==> RowOk(w, r, w.rows[r]))
    && DepositsApart(w.txs) && TasksApart(w.tasks) && KeysApart(w.rows)
  }

  // ---------- every step keeps the invariant ----------

  /** The chain only grows: records are permanent and terminal statuses stay. */
  ghost predicate Extends(h: Host, h': Host) {
    forall id :: id in h.escrows ==>
                   && id in h'.escrows
                   && h'.escrows[id] == h.escrows[id].(status := h'.escrows[id].status)
                   && (h.escrows[id].status != Locked ==> h'.escrows[id].status == h.escrows[id].status)
  }

  lemma RecordsExtend(h: Host, c: Call)
    requires Valid(h)
    ensures Extends(h, Exec(h, c).0)
  {
  }

  lemma ExecExtends(h: Host, c: Call)
    requires Valid(h)
    ensures Valid(Exec(h, c).0) && Extends(h, Exec(h, c).0)
  {
    ExecKeepsValid(h, c);
    RecordsExtend(h, c);
  }

  lemma ChainGrows(w: World, chain: Host)
    requires Inv(w) && Valid(chain) && Extends(w.chain, chain)
    ensures Inv(w.(chain := chain))
  {
  }

  lemma StartDepositKeeps(w: World, s: Step)
    requires Inv(w) && s.StartDeposit?
    ensures Inv(Next(w, s))
  {
  }

  lemma StartFinalKeeps(w: World, s: Step)
    requires Inv(w) && s.StartFinal?
    ensures Inv(Next(w, s))
  {
  }

  /** Appending a transaction that is in order leaves every other claim alone. */
  lemma AppendKeeps(w: World, t: nat, tx: Tx, task: Task)
    requires Inv(w) && t < |w.tasks| && tx.result.None?
    requires forall x :: 0 <= x < |w.txs| && w.txs[x].call.Deposit? && tx.call.Deposit? ==> w.txs[x].row != tx.row
    requires Depositing(task) ==> Depositing(w.tasks[t]) && task.row == w.tasks[t].row
    requires forall s :: 0 <= s < |w.tasks| && s != t && w.tasks[s].DepositSend? ==> w.tasks[s].row != tx.row
    requires var w' := SetTask(w.(txs := w.txs + [tx]), t, task); TxOk(w', tx) && TaskOk(w', task)
    ensures Inv(SetTask(w.(txs := w.txs + [tx]), t, task))
  {
    var w' := SetTask(w.(txs := w.txs + [tx]), t, task);
    forall s | 0 <= s < |w'.tasks| ensures TaskOk(w', w'.tasks[s]) {
      if s != t {
        assert TaskOk(w, w.tasks[s]);
      }
    }
    forall r | 0 <= r < |w'.rows| ensures RowOk(w', r, w'.rows[r]) {
      assert RowOk(w, r, w.rows[r]);
    }
  }

  lemma SubmitKeeps(w: World, t: nat)
    requires Inv(w) && t < |w.tasks|
    ensures Inv(SubmitTask(w, t))
  {
    assert TaskOk(w, w.tasks[t]);
    match w.tasks[t] {
      case DepositSend(r, timeoutLedgers) =>
        if w.rows[r].amount <= I128_MAX {
          AppendKeeps(w, t, Tx(r, DepositCall(w.rows[r], timeoutLedgers), None), DepositWait(r, |w.txs|));
        }
      case FinalSend(r, kind, id) =>
        assert RowOk(w, r, w.rows[r]);
        AppendKeeps(w, t, Tx(r, FinalCall(w.rows[r], kind, id), None), FinalWait(r, kind, |w.txs|));
      case _ =>
    }
  }

  /** Executing a call on the chain proves what its result claims. */
  lemma ResultIsTrue(w: World, x: nat)
    requires Inv(w) && x < |w.txs| && w.txs[x].result.None?
    ensures TxOk(LandTx(w, x), LandTx(w, x).txs[x])
  {
    assert TxOk(w, w.txs[x]);
    ExecExtends(w.chain, w.txs[x].call);
  }

  /** Recording a result takes nothing away from what tasks and rows rely on. */
  lemma ResultsOnlyAdd(w: World, x: nat, tx: Tx)
    requires Inv(w) && x < |w.txs| && w.txs[x].result.None? && tx == w.txs[x].(result := tx.result)
    ensures var w' := w.(txs := w.txs[x := tx]);
            && (forall t :: 0 <= t < |w'.tasks| ==> TaskOk(w', w'.tasks[t]))
            && (forall r :: 0 <= r < |w'.rows| ==> RowOk(w', r, w'.rows[r]))
  {
    var w' := w.(txs := w.txs[x := tx]);
    forall t | 0 <= t < |w'.tasks| ensures TaskOk(w', w'.tasks[t]) {
      assert TaskOk(w, w.tasks[t]);
    }
    forall r | 0 <= r < |w'.rows| ensures RowOk(w', r, w'.rows[r]) {
      assert RowOk(w, r, w.rows[r]);
    }
  }

  lemma LandApart(w: World, x: nat)
    requires Inv(w) && x < |w.txs| && w.txs[x].result.None?
    ensures DepositsApart(LandTx(w, x).txs)
  {
    var txs := LandTx(w, x).txs;
    if txs[x].result.value.Created? {
      forall y | 0 <= y < |txs| && y != x && txs[y].call.Deposit? && txs[y].result.Some? && txs[y].result.value.Created?
        ensures txs[y].result.value.id != txs[x].result.value.id
      {
        assert TxOk(w, w.txs[y]);
      }
    }
  }

  lemma LandKeeps(w: World, x: nat)
    requires Inv(w) && x < |w.txs|
    ensures Inv(LandTx(w, x))
  {
    if w.txs[x].result.None? {
      var w1 := w.(chain := Exec(w.chain, w.txs[x].call).0);
      var w2 := LandTx(w, x);
      ExecExtends(w.chain, w.txs[x].call);
      ChainGrows(w, w1.chain);
      forall y | 0 <= y < |w2.txs| ensures TxOk(w2, w2.txs[y]) {
        if y == x {
          ResultIsTrue(w, x);
        } else {
          assert TxOk(w1, w1.txs[y]);
        }
      }
      ResultsOnlyAdd(w1, x, w2.txs[x]);
      LandApart(w, x);
    }
  }

  /** Moving one task on needs the new task to be in order and on the same row. */
  lemma MoveKeeps(w: World, t: nat, task: Task)
    requires Inv(w) && t < |w.tasks| && TaskOk(w, task)
    requires Depositing(task) ==> Depositing(w.tasks[t]) && task.row == w.tasks[t].row
    ensures Inv(SetTask(w, t, task))
  {
    var w' := SetTask(w, t, task);
    forall s | 0 <= s < |w'.tasks| ensures TaskOk(w', w'.tasks[s]) {
      assert s != t ==> TaskOk(w, w.tasks[s]);
    }
    forall r | 0 <= r < |w'.rows| ensures RowOk(w', r, w'.rows[r]) {
      assert RowOk(w, r, w.rows[r]);
    }
  }

  lemma PollKeeps(w: World, t: nat)
    requires Inv(w) && t < |w.tasks|
    ensures Inv(PollTask(w, t))
  {
    assert TaskOk(w, w.tasks[t]);
    MoveKeeps(w, t, PollTask(w, t).tasks[t]);
  }

  lemma ReadKeeps(w: World, t: nat)
    requires Inv(w) && t < |w.tasks|
    ensures Inv(ReadTask(w, t))
  {
    assert TaskOk(w, w.tasks[t]);
    MoveKeeps(w, t, ReadTask(w, t).tasks[t]);
  }

  lemma ThrowKeeps(w: World, t: nat)
    requires Inv(w) && t < |w.tasks|
    ensures Inv(ThrowTask(w, t))
  {
    assert TaskOk(w, w.tasks[t]);
    MoveKeeps(w, t, ThrowTask(w, t).tasks[t]);
  }

  /** A task that writes its row and ends: the new row must be in order, and nobody else may be working on it. */
  lemma UpdateKeeps(w: World, t: nat, r: nat, row: Row)
    requires Inv(w) && t < |w.tasks| && r < |w.rows|
    requires row.key == w.rows[r].key && row.payer == w.rows[r].payer && row.payee == w.rows[r].payee
    requires row.token == w.rows[r].token && row.amount == w.rows[r].amount
    requires w.rows[r].chainId.Some? ==> row.chainId == w.rows[r].chainId
    requires forall s :: 0 <= s < |w.tasks| && s != t && Depositing(w.tasks[s]) ==> w.tasks[s].row != r
    requires RowOk(w, r, row)
    ensures Inv(SetTask(w.(rows := w.rows[r := row]), t, Ended))
  {
    var w' := SetTask(w.(rows := w.rows[r := row]), t, Ended);
    forall x | 0 <= x < |w'.txs| ensures TxOk(w', w'.txs[x]) {
      assert TxOk(w, w.txs[x]);
    }
    forall s | 0 <= s < |w'.tasks| ensures TaskOk(w', w'.tasks[s]) {
      if s != t {
        assert TaskOk(w, w.tasks[s]);
      }
    }
    forall q | 0 <= q < |w'.rows| ensures RowOk(w', q, w'.rows[q]) {
      if q != r {
        assert RowOk(w, q, w.rows[q]);
      }
    }
  }

  lemma WriteKeeps(w: World, t: nat)
    requires Inv(w) && t < |w.tasks|
    ensures Inv(WriteTask(w, t))
  {
    assert TaskOk(w, w.tasks[t]);
    match w.tasks[t] {
      case DepositWrite(r, x, id, timeoutLedger) =>
        assert RowOk(w, r, w.rows[r]) && TxOk(w, w.txs[x]);
        UpdateKeeps(w, t, r, w.rows[r].(chainId := Some(id), timeoutLedger := Some(timeoutLedger),
                                        depositTx := Some(x), status := LOCKED));
      case DepositFail(r) =>
        assert RowOk(w, r, w.rows[r]);
        UpdateKeeps(w, t, r, w.rows[r].(status := FAILED));
      case FinalWrite(r, kind, x) =>
        FinalWriteKeeps(w, t, r, kind, x);
      case _ =>
    }
  }

  lemma FinalWriteKeeps(w: World, t: nat, r: nat, kind: Kind, x: nat)
    requires Inv(w) && t < |w.tasks| && w.tasks[t] == FinalWrite(r, kind, x)
    ensures Inv(WriteTask(w, t))
  {
    assert TaskOk(w, w.tasks[t]);
    assert RowOk(w, r, w.rows[r]) && TxOk(w, w.txs[x]);
    forall s | 0 <= s < |w.tasks| && Depositing(w.tasks[s]) ensures w.tasks[s].row != r {
      assert TaskOk(w, w.tasks[s]);
    }
    UpdateKeeps(w, t, r, w.rows[r].(finalTx := Some(x), status := FinalStatus(kind)));
  }

  lemma NextKeeps(w: World, s: Step)
    requires Inv(w)
    ensures Inv(Next(w, s))
  {
    match s {
      case StartDeposit(_, _, _, _, _, _) => StartDepositKeeps(w, s);
      case StartFinal(_, _) => StartFinalKeeps(w, s);
      case Submit(t) => if t < |w.tasks| { SubmitKeeps(w, t); }
      case Land(x) => if x < |w.txs| { LandKeeps(w, x); }
      case Poll(t) => if t < |w.tasks| { PollKeeps(w, t); }
      case Read(t) => if t < |w.tasks| { ReadKeeps(w, t); }
      case Throw(t) => if t < |w.tasks| { ThrowKeeps(w, t); }
      case Write(t) => if t < |w.tasks| { WriteKeeps(w, t); }
      case Crash(t) => if t < |w.tasks| { MoveKeeps(w, t, Ended); }
      case External(call) => ExecExtends(w.chain, call); ChainGrows(w, Exec(w.chain, call).0);
    }
  }

  lemma {:induction false} PlayKeeps(w: World, steps: seq<Step>)
    requires Inv(w)
    ensures Inv(Play(w, steps))
    decreases |steps|
  {
    if steps != [] {
      NextKeeps(w, steps[0]);
      PlayKeeps(Next(w, steps[0]), steps[1..]);
    }
  }

  // ---------- main results ----------

  /**
   In every state reachable under any interleaving: a row names an on-chain escrow exactly when it is
   LOCKED, RELEASED or REFUNDED; that escrow has the row's parties, token, amount and timeout; a
   RELEASED row's escrow is Released and a REFUNDED row's is Refunded.
   */
  lemma RowsDescribeTheChain(w0: World, steps: seq<Step>, r: nat)
    requires Start(w0) && r < |Play(w0, steps).rows|
    ensures Describes(Play(w0, steps).chain, Play(w0, steps).rows[r])
  {
    PlayKeeps(w0, steps);
    var w := Play(w0, steps);
    assert RowOk(w, r, w.rows[r]);
  }

  /** Distinct rows name distinct on-chain escrows. */
  lemma RowsNameDistinctEscrows(w0: World, steps: seq<Step>, r: nat, q: nat)
    requires Start(w0) && r < q < |Play(w0, steps).rows|
    requires Play(w0, steps).rows[r].chainId.Some? && Play(w0, steps).rows[q].chainId.Some?
    ensures Play(w0, steps).rows[r].chainId != Play(w0, steps).rows[q].chainId
  {
    PlayKeeps(w0, steps);
    var w := Play(w0, steps);
    assert RowOk(w, r, w.rows[r]) && RowOk(w, q, w.rows[q]);
    var x, y := w.rows[r].depositTx.value, w.rows[q].depositTx.value;
    assert x < y || y < x;
  }

  /** One idempotency key has one row and at most one deposit transaction, however often it is retried. */
  lemma OneDepositPerKey(w0: World, steps: seq<Step>, x: nat, y: nat)
    requires Start(w0) && x < |Play(w0, steps).txs| && y < |Play(w0, steps).txs|
    requires Play(w0, steps).txs[x].call.Deposit? && Play(w0, steps).txs[y].call.Deposit?
    ensures var w := Play(w0, steps);
            && w.txs[x].row < |w.rows| && w.txs[y].row < |w.rows|
            && (w.rows[w.txs[x].row].key == w.rows[w.txs[y].row].key ==> x == y)
  {
    PlayKeeps(w0, steps);
    var w := Play(w0, steps);
    assert TxOk(w, w.txs[x]) && TxOk(w, w.txs[y]);
    if x < y {
      assert w.txs[x].row != w.txs[y].row;
    } else if y < x {
      assert w.txs[y].row != w.txs[x].row;
    }
  }

  /**
   Every transaction the service submits is signed by the payer of one row alone, and a release or
   refund names the escrow of that row and no other.
   */
  lemma SubmitsOnlyForItsOwnRow(w0: World, steps: seq<Step>, x: nat)
    requires Start(w0) && x < |Play(w0, steps).txs|
    ensures var w := Play(w0, steps);
            var tx := w.txs[x];
            && tx.row < |w.rows|
            && (tx.call.Deposit? || tx.call.Release? || tx.call.Refund?)
            && tx.call.auth == {w.rows[tx.row].payer}
            && (!tx.call.Deposit? ==> w.rows[tx.row].chainId == Some(tx.call.id))
  {
    PlayKeeps(w0, steps);
    var w := Play(w0, steps);
    assert TxOk(w, w.txs[x]);
  }

  /** The edges of a row's life. */
  predicate Edge(a: RowStatus, b: RowStatus) {
    a == b || (a == PENDING && b in {LOCKED, FAILED}) || (a == LOCKED && b in {RELEASED, REFUNDED})
  }

  lemma OnlyWritesChangeRows(w: World, s: Step, r: nat)
    requires r < |w.rows| && !s.Write?
    ensures r < |Next(w, s).rows| && Next(w, s).rows[r] == w.rows[r]
  {
  }

  lemma StatusMovesAlongEdges(w: World, s: Step, r: nat)
    requires Inv(w) && r < |w.rows|
    ensures r < |Next(w, s).rows|
    ensures Edge(w.rows[r].status, Next(w, s).rows[r].status)
    ensures w.rows[r].chainId.Some? ==>
              Next(w, s).rows[r] == w.rows[r].(status := Next(w, s).rows[r].status, finalTx := Next(w, s).rows[r].finalTx)
  {
    if !s.Write? {
      OnlyWritesChangeRows(w, s, r);
    } else if s.task < |w.tasks| {
      assert TaskOk(w, w.tasks[s.task]) && RowOk(w, r, w.rows[r]);
      if w.tasks[s.task].FinalWrite? {
        assert TxOk(w, w.txs[w.tasks[s.task].tx]);
      }
    }
  }

  /** Over a whole run, a terminal status is final and a named escrow stays named. */
  lemma {:induction false} StatusOnlyAdvances(w: World, steps: seq<Step>, r: nat)
    requires Inv(w) && r < |w.rows|
    ensures r < |Play(w, steps).rows|
    ensures var a, b := w.rows[r], Play(w, steps).rows[r];
            && (a.status in {FAILED, RELEASED, REFUNDED} ==> b.status == a.status)
            && (a.status == LOCKED ==> b.status in {LOCKED, RELEASED, REFUNDED})
            && (a.chainId.Some? ==> b == a.(status := b.status, finalTx := b.finalTx))
    decreases |steps|
  {
    if steps != [] {
      NextKeeps(w, steps[0]);
      StatusMovesAlongEdges(w, steps[0], r);
      StatusOnlyAdvances(Next(w, steps[0]), steps[1..], r);
    }
  }

  lemma PlayOne(w: World, s: Step, rest: seq<Step>)
    ensures Play(w, [s] + rest) == Play(Next(w, s), rest)
  {
    assert ([s] + rest)[1..] == rest;
  }

  /** Undisturbed, a deposit the contract accepts ends with a LOCKED row that names the new escrow. */
  lemma UndisturbedDepositLocks(w0: World, start: Step, id: U64)
    requires Start(w0) && start.StartDeposit? && start.amount <= I128_MAX
    requires Exec(w0.chain, Deposit(start.payer, start.payee, start.token, start.amount, start.timeoutLedgers, {start.payer})).1 == Created(id)
    ensures var w := Play(w0, [start] + ([Submit(0)] + ([Land(0)] + ([Poll(0)] + ([Read(0)] + ([Write(0)] + []))))));
            && |w.rows| == 1 && w.rows[0].status == LOCKED && w.rows[0].chainId == Some(id)
            && id in w.chain.escrows && w.chain.escrows[id].status == Locked
  {
    var w1 := Next(w0, start);
    var w2 := Next(w1, Submit(0));
    var w3 := Next(w2, Land(0));
    var w4 := Next(w3, Poll(0));
    var w5 := Next(w4, Read(0));
    assert w3.txs[0].result == Some(Created(id));
    assert w5.tasks[0] == DepositWrite(0, 0, id, w3.chain.escrows[id].timeoutLedger);
    PlayOne(w5, Write(0), []);
    PlayOne(w4, Read(0), [Write(0)] + []);
    PlayOne(w3, Poll(0), [Read(0)] + ([Write(0)] + []));
    PlayOne(w2, Land(0), [Poll(0)] + ([Read(0)] + ([Write(0)] + [])));
    PlayOne(w1, Submit(0), [Land(0)] + ([Poll(0)] + ([Read(0)] + ([Write(0)] + []))));
    PlayOne(w0, start, [Submit(0)] + ([Land(0)] + ([Poll(0)] + ([Read(0)] + ([Write(0)] + [])))));
  }

  /**
   The converse of the simulation does not hold: whenever a deposit would succeed, giving up on it
   before it lands leaves a FAILED row beside a Locked escrow with the row's terms.
   */
  lemma TimedOutDepositMayLand(w0: World, start: Step)
    requires Start(w0) && start.StartDeposit? && start.amount <= I128_MAX
    requires Exec(w0.chain, Deposit(start.payer, start.payee, start.token, start.amount, start.timeoutLedgers, {start.payer})).1.Created?
    ensures var w := Play(w0, [start] + ([Submit(0)] + ([Throw(0)] + ([Write(0)] + ([Land(0)] + [])))));
            && |w.rows| == 1 && w.rows[0].status == FAILED && w.rows[0].chainId.None?
            && 0 in w.chain.escrows && w.chain.escrows[0].status == Locked && SameTerms(w.chain.escrows[0], w.rows[0])
  {
    var w1 := Next(w0, start);
    var w2 := Next(w1, Submit(0));
    var w3 := Next(w2, Throw(0));
    var w4 := Next(w3, Write(0));
    assert w4.txs[0].call == Deposit(start.payer, start.payee, start.token, start.amount, start.timeoutLedgers, {start.payer});
    PlayOne(w4, Land(0), []);
    PlayOne(w3, Write(0), [Land(0)] + []);
    PlayOne(w2, Throw(0), [Write(0)] + ([Land(0)] + []));
    PlayOne(w1, Submit(0), [Throw(0)] + ([Write(0)] + ([Land(0)] + [])));
    PlayOne(w0, start, [Submit(0)] + ([Throw(0)] + ([Write(0)] + ([Land(0)] + []))));
  }
}
