/**
 Exactly when the escrows table misses something that happened on the chain. Rows imply the chain
 (`EscrowService`); here is the converse: what a submitted transaction did is in its row unless the
 call that waited for it gave up.
 */
module EscrowTracking {
  import opened Option
  import opened EscrowContract
  import opened EscrowAccounting
  import opened EscrowHistory
  import opened EscrowService

  /** The transaction a call waits for or is about to record. */
  function TxOf(task: Task): Option<nat> {
    match task
    case DepositWait(_, x) => Some(x)
    case DepositRead(_, x, _) => Some(x)
    case DepositWrite(_, x, _, _) => Some(x)
    case FinalWait(_, _, x) => Some(x)
    case FinalWrite(_, _, x) => Some(x)
    case _ => None
  }

  predicate Carried(w: World, x: nat) {
    exists t :: 0 <= t < |w.tasks| && TxOf(w.tasks[t]) == Some(x)
  }

  /** The row names the transaction as its deposit, or as what released or refunded it. */
  predicate Recorded(w: World, x: nat) {
    && x < |w.txs| && w.txs[x].row < |w.rows|
    && (if w.txs[x].call.Deposit? then w.rows[w.txs[x].row].depositTx else w.rows[w.txs[x].row].finalTx) == Some(x)
  }

  /** The call that carries `x` throws or crashes. */
  predicate GivesUp(w: World, s: Step, x: nat) {
    (s.Throw? || s.Crash?) && s.task < |w.tasks| && TxOf(w.tasks[s.task]) == Some(x)
  }

  predicate GivenUp(w: World, steps: seq<Step>, x: nat)
    decreases |steps|
  {
    steps != [] && (GivesUp(w, steps[0], x) || GivenUp(Next(w, steps[0]), steps[1..], x))
  }

  // ---------- each transaction has one carrier, then at most one record ----------

  ghost predicate CarriersApart(tasks: seq<Task>) {
    forall s, t :: 0 <= s < t < |tasks| && TxOf(tasks[s]).Some? ==> TxOf(tasks[s]) != TxOf(tasks[t])
  }

  ghost predicate RecordsDone(w: World) {
    forall t :: 0 <= t < |w.tasks| && TxOf(w.tasks[t]).Some? ==> !Recorded(w, TxOf(w.tasks[t]).value)
  }

  /** One escrow is finalised by one transaction. */
  ghost predicate FinalsApart(txs: seq<Tx>) {
    forall x, y :: 0 <= x < y < |txs| && Finalised(txs[x]) && Finalised(txs[y]) ==> txs[x].call.id != txs[y].call.id
  }

  predicate Finalised(tx: Tx) { (tx.call.Release? || tx.call.Refund?) && tx.result == Some(Completed) }

  /** Given up, or carried, or recorded. */
  ghost predicate Accounted(w: World, x: nat, gaveUp: bool) {
    gaveUp <==> x < |w.txs| && !Carried(w, x) && !Recorded(w, x)
  }

  ghost predicate Books(w: World, x: nat, gaveUp: bool) {
    CarriersApart(w.tasks) && RecordsDone(w) && FinalsApart(w.txs) && Accounted(w, x, gaveUp)
  }

  ghost predicate Tracked(w: World, x: nat, gaveUp: bool) {
    Inv(w) && Books(w, x, gaveUp)
  }

  lemma CarriedExists(w: World, t: nat)
    requires Inv(w) && t < |w.tasks| && TxOf(w.tasks[t]).Some?
    ensures TxOf(w.tasks[t]).value < |w.txs|
  {
    assert TaskOk(w, w.tasks[t]);
  }

  // ---------- steps that move one call ----------

  /** A call that keeps its transaction changes nothing. */
  lemma SameCarrier(w: World, t: nat, task: Task, x: nat, gaveUp: bool)
    requires Tracked(w, x, gaveUp) && t < |w.tasks| && TxOf(task) == TxOf(w.tasks[t])
    ensures Books(SetTask(w, t, task), x, gaveUp)
  {
    var w' := SetTask(w, t, task);
    forall s | 0 <= s < |w'.tasks| ensures TxOf(w'.tasks[s]) == TxOf(w.tasks[s]) {}
    SameCarriers(w, w', x);
  }

  lemma SameCarriers(w: World, w': World, x: nat)
    requires |w'.tasks| == |w.tasks| && forall s :: 0 <= s < |w.tasks| ==> TxOf(w'.tasks[s]) == TxOf(w.tasks[s])
    ensures Carried(w', x) == Carried(w, x)
  {
    if Carried(w, x) {
      var s :| 0 <= s < |w.tasks| && TxOf(w.tasks[s]) == Some(x);
      assert TxOf(w'.tasks[s]) == Some(x);
    }
    if Carried(w', x) {
      var s :| 0 <= s < |w'.tasks| && TxOf(w'.tasks[s]) == Some(x);
      assert TxOf(w.tasks[s]) == Some(x);
    }
  }

  /** A call that lets go of its transaction is the only one that carried it. */
  lemma LetGo(w: World, t: nat, task: Task, x: nat)
    requires CarriersApart(w.tasks) && t < |w.tasks| && TxOf(task).None?
    ensures var w' := SetTask(w, t, task);
            CarriersApart(w'.tasks) && (Carried(w', x) <==> Carried(w, x) && TxOf(w.tasks[t]) != Some(x))
  {
    var w' := SetTask(w, t, task);
    if Carried(w, x) && TxOf(w.tasks[t]) != Some(x) {
      var s :| 0 <= s < |w.tasks| && TxOf(w.tasks[s]) == Some(x);
      assert TxOf(w'.tasks[s]) == Some(x);
    }
    if Carried(w', x) {
      var s :| 0 <= s < |w'.tasks| && TxOf(w'.tasks[s]) == Some(x);
      assert s != t && TxOf(w.tasks[s]) == Some(x);
    }
  }

  /** Throwing and crashing give up what the call carried. */
  lemma GiveUpAccounts(w: World, t: nat, task: Task, x: nat, gaveUp: bool)
    requires Tracked(w, x, gaveUp) && t < |w.tasks| && TxOf(task).None?
    ensures Books(SetTask(w, t, task), x, gaveUp || TxOf(w.tasks[t]) == Some(x))
  {
    var w' := SetTask(w, t, task);
    LetGo(w, t, task, x);
    if TxOf(w.tasks[t]) == Some(x) {
      CarriedExists(w, t);
    }
    forall s | 0 <= s < |w'.tasks| && TxOf(w'.tasks[s]).Some? ensures !Recorded(w', TxOf(w'.tasks[s]).value) {
      assert s != t && w'.tasks[s] == w.tasks[s];
    }
  }

  /** A new transaction is carried by the call that submitted it. */
  lemma NewTxAccounts(w: World, t: nat, tx: Tx, task: Task, x: nat, gaveUp: bool)
    requires Tracked(w, x, gaveUp) && t < |w.tasks| && TxOf(w.tasks[t]).None?
    requires tx.result.None? && TxOf(task) == Some(|w.txs|)
    ensures Books(SetTask(w.(txs := w.txs + [tx]), t, task), x, gaveUp)
  {
    var w' := SetTask(w.(txs := w.txs + [tx]), t, task);
    forall s | 0 <= s < |w.tasks| && TxOf(w.tasks[s]).Some? ensures TxOf(w.tasks[s]).value < |w.txs| {
      CarriedExists(w, s);
    }
    NewIsUnrecorded(w, tx);
    OldRecords(w, w', t, x);
    NewCarrier(w, w', t, x);
  }

  lemma SubmitAccounts(w: World, t: nat, x: nat, gaveUp: bool)
    requires Tracked(w, x, gaveUp) && t < |w.tasks|
    ensures Books(SubmitTask(w, t), x, gaveUp)
  {
    assert TaskOk(w, w.tasks[t]);
    var w' := SubmitTask(w, t);
    if |w'.txs| == |w.txs| {
      assert w' == SetTask(w, t, w'.tasks[t]);
      SameCarrier(w, t, w'.tasks[t], x, gaveUp);
    } else {
      assert w' == SetTask(w.(txs := w.txs + [w'.txs[|w.txs|]]), t, w'.tasks[t]);
      NewTxAccounts(w, t, w'.txs[|w.txs|], w'.tasks[t], x, gaveUp);
    }
  }

  lemma NewIsUnrecorded(w: World, tx: Tx)
    requires Inv(w)
    ensures !Recorded(w.(txs := w.txs + [tx]), |w.txs|)
  {
    if tx.row < |w.rows| {
      assert RowOk(w, tx.row, w.rows[tx.row]);
    }
  }

  lemma OldRecords(w: World, w': World, t: nat, x: nat)
    requires t < |w.tasks| && w'.rows == w.rows && w.txs <= w'.txs
    ensures x < |w.txs| ==> Recorded(w', x) == Recorded(w, x)
  {
  }

  lemma NewCarrier(w: World, w': World, t: nat, x: nat)
    requires t < |w.tasks| && TxOf(w.tasks[t]).None?
    requires |w'.tasks| == |w.tasks| && TxOf(w'.tasks[t]) == Some(|w.txs|)
    requires forall s :: 0 <= s < |w.tasks| && s != t ==> w'.tasks[s] == w.tasks[s]
    ensures Carried(w', x) <==> Carried(w, x) || x == |w.txs|
  {
    if Carried(w, x) {
      var s :| 0 <= s < |w.tasks| && TxOf(w.tasks[s]) == Some(x);
      assert TxOf(w'.tasks[s]) == Some(x);
    }
    if Carried(w', x) {
      var s :| 0 <= s < |w'.tasks| && TxOf(w'.tasks[s]) == Some(x);
      assert s != t ==> TxOf(w.tasks[s]) == Some(x);
    }
  }

  // ---------- the write of a row ----------

  /** Before a final status is written, the row records no release or refund. */
  lemma NoEarlierFinal(w: World, t: nat, x: nat)
    requires Inv(w) && RecordsDone(w) && FinalsApart(w.txs) && t < |w.tasks| && w.tasks[t].FinalWrite?
    requires x < |w.txs| && !w.txs[x].call.Deposit? && w.txs[x].row == w.tasks[t].row
    ensures !Recorded(w, x)
  {
    var r, y := w.tasks[t].row, w.tasks[t].tx;
    assert TaskOk(w, w.tasks[t]) && RowOk(w, r, w.rows[r]);
    assert TxOk(w, w.txs[x]) && TxOk(w, w.txs[y]);
    assert Finalised(w.txs[y]) && TxOf(w.tasks[t]) == Some(y);
    assert Finalised(w.txs[x]) && x != y ==> w.txs[x].call.id != w.txs[y].call.id;
  }

  /** A write changes what is recorded of the carried transaction alone. */
  lemma WriteRecords(w: World, t: nat, x: nat)
    requires Inv(w) && RecordsDone(w) && FinalsApart(w.txs) && t < |w.tasks| && x < |w.txs|
    ensures Recorded(WriteTask(w, t), x) <==> Recorded(w, x) || (TxOf(w.tasks[t]) == Some(x) && WritesRow(w.tasks[t]))
  {
    assert TaskOk(w, w.tasks[t]) && TxOk(w, w.txs[x]);
    assert RowOk(w, w.txs[x].row, w.rows[w.txs[x].row]);
    match w.tasks[t] {
      case DepositWrite(r, y, _, _) =>
        assert TxOf(w.tasks[t]) == Some(y);
      case FinalWrite(r, _, y) =>
        assert TxOf(w.tasks[t]) == Some(y);
        if !w.txs[x].call.Deposit? && w.txs[x].row == r {
          NoEarlierFinal(w, t, x);
        }
      case _ =>
    }
  }

  predicate WritesRow(task: Task) { task.DepositWrite? || task.FinalWrite? }

  lemma WriteAccounts(w: World, t: nat, x: nat, gaveUp: bool)
    requires Tracked(w, x, gaveUp) && t < |w.tasks|
    ensures Books(WriteTask(w, t), x, gaveUp)
  {
    var w' := WriteTask(w, t);
    assert TaskOk(w, w.tasks[t]);
    if WritesRow(w.tasks[t]) || w.tasks[t].DepositFail? {
      LetGo(w, t, Ended, x);
      assert w'.tasks == SetTask(w, t, Ended).tasks && w'.txs == w.txs;
      forall s | 0 <= s < |w'.tasks| && TxOf(w'.tasks[s]).Some? ensures !Recorded(w', TxOf(w'.tasks[s]).value) {
        assert s != t && w'.tasks[s] == w.tasks[s];
        CarriedExists(w, s);
        WriteRecords(w, t, TxOf(w.tasks[s]).value);
      }
      if x < |w.txs| {
        WriteRecords(w, t, x);
      }
      assert Carried(w', x) <==> Carried(SetTask(w, t, Ended), x);
    }
  }

  // ---------- the chain ----------

  lemma LandApartFinals(w: World, x: nat)
    requires Inv(w) && FinalsApart(w.txs) && x < |w.txs|
    ensures FinalsApart(LandTx(w, x).txs)
  {
    var w' := LandTx(w, x);
    assert TxOk(w, w.txs[x]);
    forall y | 0 <= y < |w.txs| && y != x && Finalised(w'.txs[y]) && Finalised(w'.txs[x])
      ensures w'.txs[y].call.id != w'.txs[x].call.id
    {
      assert TxOk(w, w.txs[y]) && w'.txs[y] == w.txs[y];
    }
  }

  // ---------- every step ----------

  lemma ThrowAccounts(w: World, t: nat, x: nat, gaveUp: bool)
    requires Tracked(w, x, gaveUp) && t < |w.tasks|
    ensures Books(ThrowTask(w, t), x, gaveUp || TxOf(w.tasks[t]) == Some(x))
  {
    GiveUpAccounts(w, t, ThrowTask(w, t).tasks[t], x, gaveUp);
  }

  lemma GivingUpAccounts(w: World, s: Step, x: nat, gaveUp: bool)
    requires Tracked(w, x, gaveUp) && (s.Throw? || s.Crash?) && s.task < |w.tasks|
    ensures Books(Next(w, s), x, gaveUp || GivesUp(w, s, x))
  {
    if s.Throw? {
      ThrowAccounts(w, s.task, x, gaveUp);
    } else {
      GiveUpAccounts(w, s.task, Ended, x, gaveUp);
    }
  }

  lemma MovingAccounts(w: World, s: Step, x: nat, gaveUp: bool)
    requires Tracked(w, x, gaveUp) && (s.Poll? || s.Read? || s.Write?) && s.task < |w.tasks|
    ensures Books(Next(w, s), x, gaveUp)
  {
    if s.Poll? {
      PollAccounts(w, s.task, x, gaveUp);
    } else if s.Read? {
      ReadAccounts(w, s.task, x, gaveUp);
    } else {
      WriteAccounts(w, s.task, x, gaveUp);
    }
  }

  lemma NextAccounts(w: World, s: Step, x: nat, gaveUp: bool)
    requires Tracked(w, x, gaveUp)
    ensures Books(Next(w, s), x, gaveUp || GivesUp(w, s, x))
  {
    if s.Submit? {
      if s.task < |w.tasks| {
        SubmitAccounts(w, s.task, x, gaveUp);
      }
    } else if s.Land? {
      if s.tx < |w.txs| {
        LandAccounts(w, s.tx, x, gaveUp);
      }
    } else if s.StartDeposit? || s.StartFinal? || s.External? {
      StartAccounts(w, s, x, gaveUp);
    } else if s.task < |w.tasks| {
      if s.Throw? || s.Crash? {
        GivingUpAccounts(w, s, x, gaveUp);
      } else {
        MovingAccounts(w, s, x, gaveUp);
      }
    }
  }

  lemma PollAccounts(w: World, t: nat, x: nat, gaveUp: bool)
    requires Tracked(w, x, gaveUp) && t < |w.tasks|
    ensures Books(PollTask(w, t), x, gaveUp)
  {
    SameCarrier(w, t, PollTask(w, t).tasks[t], x, gaveUp);
  }

  lemma ReadAccounts(w: World, t: nat, x: nat, gaveUp: bool)
    requires Tracked(w, x, gaveUp) && t < |w.tasks|
    ensures Books(ReadTask(w, t), x, gaveUp)
  {
    assert TaskOk(w, w.tasks[t]);
    if w.tasks[t].DepositRead? {
      assert TxOk(w, w.txs[w.tasks[t].tx]);
    }
    SameCarrier(w, t, ReadTask(w, t).tasks[t], x, gaveUp);
  }

  lemma LandAccounts(w: World, y: nat, x: nat, gaveUp: bool)
    requires Tracked(w, x, gaveUp) && y < |w.txs|
    ensures Books(LandTx(w, y), x, gaveUp)
  {
    var w' := LandTx(w, y);
    LandApartFinals(w, y);
    assert forall z: nat :: Recorded(w', z) == Recorded(w, z);
    SameCarriers(w, w', x);
  }

  predicate Spawns(tasks: seq<Task>, tasks': seq<Task>) {
    tasks' == tasks || (|tasks'| > 0 && tasks'[..|tasks'| - 1] == tasks && TxOf(tasks'[|tasks|]).None?)
  }

  lemma SpawnCarried(w: World, w': World, x: nat)
    requires CarriersApart(w.tasks) && Spawns(w.tasks, w'.tasks)
    ensures CarriersApart(w'.tasks) && Carried(w', x) == Carried(w, x)
  {
    forall t | 0 <= t < |w.tasks| ensures w'.tasks[t] == w.tasks[t] {}
    if Carried(w, x) {
      var t :| 0 <= t < |w.tasks| && TxOf(w.tasks[t]) == Some(x);
      assert TxOf(w'.tasks[t]) == Some(x);
    }
    if Carried(w', x) {
      var t :| 0 <= t < |w'.tasks| && TxOf(w'.tasks[t]) == Some(x);
      assert t < |w.tasks| && TxOf(w.tasks[t]) == Some(x);
    }
  }

  lemma SpawnRecorded(w: World, w': World, z: nat)
    requires Inv(w) && w'.txs == w.txs && w.rows <= w'.rows
    ensures Recorded(w', z) == Recorded(w, z)
  {
    if z < |w.txs| {
      assert TxOk(w, w.txs[z]);
    }
  }

  /** New calls carry nothing, and new rows record nothing. */
  lemma SpawnAccounts(w: World, w': World, x: nat, gaveUp: bool)
    requires Tracked(w, x, gaveUp) && w'.txs == w.txs && w.rows <= w'.rows && Spawns(w.tasks, w'.tasks)
    ensures Books(w', x, gaveUp)
  {
    SpawnCarried(w, w', x);
    SpawnRecorded(w, w', x);
    forall t | 0 <= t < |w'.tasks| && TxOf(w'.tasks[t]).Some? ensures !Recorded(w', TxOf(w'.tasks[t]).value) {
      assert t < |w.tasks| && w'.tasks[t] == w.tasks[t];
      SpawnRecorded(w, w', TxOf(w.tasks[t]).value);
    }
  }

  lemma StartAccounts(w: World, s: Step, x: nat, gaveUp: bool)
    requires Tracked(w, x, gaveUp) && (s.StartDeposit? || s.StartFinal? || s.External?)
    ensures Books(Next(w, s), x, gaveUp)
  {
    SpawnAccounts(w, Next(w, s), x, gaveUp);
  }

  lemma {:induction false} PlayAccounts(w: World, steps: seq<Step>, x: nat, gaveUp: bool)
    requires Tracked(w, x, gaveUp)
    ensures Tracked(Play(w, steps), x, gaveUp || GivenUp(w, steps, x))
    decreases |steps|
  {
    if steps != [] {
      NextKeeps(w, steps[0]);
      NextAccounts(w, steps[0], x, gaveUp);
      PlayAccounts(Next(w, steps[0]), steps[1..], x, gaveUp || GivesUp(w, steps[0], x));
    }
  }

  lemma StartTracked(w0: World, x: nat)
    requires Start(w0)
    ensures Tracked(w0, x, false)
  {
  }

  // ---------- main results ----------

  /**
   Every transaction a call submitted is recorded in its row, exactly unless the call gave it up:
   once no call carries it any more, it is recorded if and only if no call carrying it threw or crashed.
   */
  lemma RecordedUnlessGivenUp(w0: World, steps: seq<Step>, x: nat)
    requires Start(w0) && x < |Play(w0, steps).txs| && !Carried(Play(w0, steps), x)
    ensures Inv(Play(w0, steps)) && FinalsApart(Play(w0, steps).txs)
    ensures Recorded(Play(w0, steps), x) <==> !GivenUp(w0, steps, x)
  {
    StartTracked(w0, x);
    PlayAccounts(w0, steps, x, false);
  }

  /**
   The converse of the simulation, for deposits: when the deposit that created escrow `id` is no longer
   being waited for, its row names the escrow if and only if the call did not give it up.
   */
  lemma DepositNamedExactly(w0: World, steps: seq<Step>, x: nat, id: U64)
    requires Start(w0) && x < |Play(w0, steps).txs| && !Carried(Play(w0, steps), x)
    requires Play(w0, steps).txs[x].call.Deposit? && Play(w0, steps).txs[x].result == Some(Created(id))
    ensures var w := Play(w0, steps);
            w.txs[x].row < |w.rows| && (w.rows[w.txs[x].row].chainId == Some(id) <==> !GivenUp(w0, steps, x))
  {
    RecordedUnlessGivenUp(w0, steps, x);
    var w := Play(w0, steps);
    assert TxOk(w, w.txs[x]);
    var r := w.txs[x].row;
    assert RowOk(w, r, w.rows[r]);
    if w.rows[r].depositTx.Some? {
      OneDepositPerRow(w, x, w.rows[r].depositTx.value);
    }
  }

  lemma OneDepositPerRow(w: World, x: nat, y: nat)
    requires Inv(w) && x < |w.txs| && y < |w.txs| && w.txs[x].call.Deposit? && w.txs[y].call.Deposit?
    requires w.txs[x].row == w.txs[y].row
    ensures x == y
  {
    assert x < y || y < x || x == y;
  }

  /**
   And for releases and refunds: when the transaction that finalised a row's escrow is no longer being
   waited for, the row says so if and only if the call did not give it up; otherwise it is LOCKED still.
   */
  lemma FinalisationWrittenExactly(w0: World, steps: seq<Step>, x: nat)
    requires Start(w0) && x < |Play(w0, steps).txs| && !Carried(Play(w0, steps), x)
    requires Finalised(Play(w0, steps).txs[x])
    ensures var w := Play(w0, steps);
            && w.txs[x].row < |w.rows|
            && w.rows[w.txs[x].row].status ==
               if GivenUp(w0, steps, x) then LOCKED else if w.txs[x].call.Release? then RELEASED else REFUNDED
  {
    RecordedUnlessGivenUp(w0, steps, x);
    var w := Play(w0, steps);
    assert TxOk(w, w.txs[x]);
    var r := w.txs[x].row;
    assert RowOk(w, r, w.rows[r]);
    if w.rows[r].finalTx.Some? {
      OneFinalPerRow(w, x, w.rows[r].finalTx.value);
    }
  }

  lemma OneFinalPerRow(w: World, x: nat, y: nat)
    requires Inv(w) && FinalsApart(w.txs) && x < |w.txs| && y < |w.txs|
    requires Finalised(w.txs[x]) && Closed(w, y, w.txs[x].row, if w.txs[y].call.Release? then RELEASED else REFUNDED)
    ensures x == y
  {
    assert TxOk(w, w.txs[x]) && TxOk(w, w.txs[y]);
    assert Finalised(w.txs[y]);
  }

  // ---------- rows that are behind ----------

  /** Somebody else releases or refunds escrow `id` in this step. */
  predicate OthersPay(w: World, s: Step, id: nat) {
    s.External? && Finalises(s.call, id) && Exec(w.chain, s.call).1.Completed?
  }

  predicate PaidByOthers(w: World, steps: seq<Step>, id: nat)
    decreases |steps|
  {
    steps != [] && (OthersPay(w, steps[0], id) || PaidByOthers(Next(w, steps[0]), steps[1..], id))
  }

  /** Transaction `x` of the service released or refunded escrow `id`. */
  predicate PaidByService(w: World, x: nat, id: nat) {
    x < |w.txs| && Finalised(w.txs[x]) && w.txs[x].call.id == id
  }

  ghost predicate IsFinal(h: Host, id: nat) { id in h.escrows && h.escrows[id].status != Locked }

  /** A final escrow was paid out by others or by the service, and never by both. */
  ghost predicate Payers(w: World, id: nat, others: bool) {
    && (IsFinal(w.chain, id) <==> others || exists x: nat :: PaidByService(w, x, id))
    && !(others && exists x: nat :: PaidByService(w, x, id))
  }

  lemma ExecFinal(h: Host, c: Call, id: nat)
    requires Valid(h)
    ensures IsFinal(Exec(h, c).0, id) <==> IsFinal(h, id) || (Finalises(c, id) && Exec(h, c).1.Completed?)
    ensures Finalises(c, id) && Exec(h, c).1.Completed? ==> !IsFinal(h, id)
  {
  }

  lemma LandPayers(w: World, x: nat, id: nat, others: bool)
    requires Inv(w) && x < |w.txs| && w.txs[x].result.None? && Payers(w, id, others)
    ensures Payers(LandTx(w, x), id, others)
  {
    var w', call := LandTx(w, x), w.txs[x].call;
    ExecFinal(w.chain, call, id);
    forall y: nat | y != x ensures PaidByService(w', y, id) == PaidByService(w, y, id) {}
    assert !PaidByService(w, x, id);
    assert PaidByService(w', x, id) <==> Finalises(call, id) && Exec(w.chain, call).1.Completed?;
  }

  /** New transactions have no result yet. */
  lemma QuietPayers(w: World, w': World, id: nat, others: bool)
    requires Payers(w, id, others) && w'.chain == w.chain && w.txs <= w'.txs
    requires forall x :: |w.txs| <= x < |w'.txs| ==> w'.txs[x].result.None?
    ensures Payers(w', id, others)
  {
    forall x: nat ensures PaidByService(w', x, id) == PaidByService(w, x, id) {
      assert x < |w.txs| ==> w'.txs[x] == w.txs[x];
    }
  }

  lemma QuietStep(w: World, s: Step)
    requires !s.External? && !(s.Land? && s.tx < |w.txs| && w.txs[s.tx].result.None?)
    ensures var w' := Next(w, s);
            && w'.chain == w.chain && w.txs <= w'.txs
            && forall x :: |w.txs| <= x < |w'.txs| ==> w'.txs[x].result.None?
  {
  }

  lemma ExternalPayers(w: World, c: Call, id: nat, others: bool)
    requires Inv(w) && Payers(w, id, others)
    ensures Payers(w.(chain := Exec(w.chain, c).0), id, others || OthersPay(w, External(c), id))
  {
    var w' := w.(chain := Exec(w.chain, c).0);
    ExecFinal(w.chain, c, id);
    forall x: nat ensures PaidByService(w', x, id) == PaidByService(w, x, id) {}
  }

  lemma LoudStep(w: World, s: Step)
    ensures s.External? ==> Next(w, s) == w.(chain := Exec(w.chain, s.call).0)
    ensures s.Land? && s.tx < |w.txs| ==> Next(w, s) == LandTx(w, s.tx)
  {
  }

  lemma NextPayers(w: World, s: Step, id: nat, others: bool)
    requires Inv(w) && Payers(w, id, others)
    ensures Payers(Next(w, s), id, others || OthersPay(w, s, id))
  {
    LoudStep(w, s);
    if s.External? {
      assert s == External(s.call);
      ExternalPayers(w, s.call, id, others);
    } else if s.Land? && s.tx < |w.txs| && w.txs[s.tx].result.None? {
      LandPayers(w, s.tx, id, others);
    } else {
      QuietStep(w, s);
      QuietPayers(w, Next(w, s), id, others);
    }
  }

  lemma {:induction false} PlayPayers(w: World, steps: seq<Step>, id: nat, others: bool)
    requires Inv(w) && Payers(w, id, others)
    ensures Payers(Play(w, steps), id, others || PaidByOthers(w, steps, id))
    decreases |steps|
  {
    if steps != [] {
      NextKeeps(w, steps[0]);
      NextPayers(w, steps[0], id, others);
      PlayPayers(Next(w, steps[0]), steps[1..], id, others || OthersPay(w, steps[0], id));
    }
  }

  lemma OneRowPerEscrow(w: World, r: nat, q: nat)
    requires Inv(w) && r < |w.rows| && q < |w.rows| && w.rows[r].chainId.Some? && w.rows[q].chainId == w.rows[r].chainId
    ensures r == q
  {
    assert RowOk(w, r, w.rows[r]) && RowOk(w, q, w.rows[q]);
    var x, y := w.rows[r].depositTx.value, w.rows[q].depositTx.value;
    assert x < y || x == y || y < x;
  }

  /** The service's payout of a row's escrow is in the row exactly if the row is final. */
  lemma PayoutRecorded(w: World, r: nat, id: U64, x: nat)
    requires Inv(w) && FinalsApart(w.txs) && r < |w.rows| && w.rows[r].chainId == Some(id) && PaidByService(w, x, id)
    ensures Recorded(w, x) <==> w.rows[r].status != LOCKED
  {
    assert TxOk(w, w.txs[x]);
    OneRowPerEscrow(w, w.txs[x].row, r);
    assert RowOk(w, r, w.rows[r]);
    if w.rows[r].finalTx.Some? {
      OneFinalPerRow(w, x, w.rows[r].finalTx.value);
    }
  }

  /** A final row was made so by the service. */
  lemma FinalRowIsService(w: World, r: nat, id: U64)
    requires Inv(w) && r < |w.rows| && w.rows[r].chainId == Some(id) && w.rows[r].status != LOCKED
    ensures exists x: nat :: PaidByService(w, x, id)
  {
    assert RowOk(w, r, w.rows[r]);
    var x := w.rows[r].finalTx.value;
    assert TxOk(w, w.txs[x]);
    assert PaidByService(w, x, id);
  }

  /** Transaction `x` paid the escrow out, and the call that should write that back still carries it or gave it up. */
  predicate Unreported(w0: World, steps: seq<Step>, x: nat, id: nat) {
    PaidByService(Play(w0, steps), x, id) && (Carried(Play(w0, steps), x) || GivenUp(w0, steps, x))
  }

  /**
   A LOCKED row's escrow is no longer Locked exactly when somebody else had it released or refunded, or
   a call of the service did and has not got round to writing that back, or gave up on it.
   */
  lemma RowIsBehindExactly(w0: World, steps: seq<Step>, r: nat, id: U64)
    requires Start(w0) && r < |Play(w0, steps).rows| && Play(w0, steps).rows[r].chainId == Some(id)
    ensures var w := Play(w0, steps);
            && id in w.chain.escrows
            && (w.rows[r].status == LOCKED && w.chain.escrows[id].status != Locked
                <==> PaidByOthers(w0, steps, id) || exists x: nat :: Unreported(w0, steps, x, id))
  {
    StartTracked(w0, 0);
    PlayAccounts(w0, steps, 0, false);
    PlayPayers(w0, steps, id, false);
    var w := Play(w0, steps);
    assert RowOk(w, r, w.rows[r]);
    forall x: nat | PaidByService(w, x, id)
      ensures Unreported(w0, steps, x, id) <==> w.rows[r].status == LOCKED
    {
      StartTracked(w0, x);
      PlayAccounts(w0, steps, x, false);
      PayoutRecorded(w, r, id, x);
    }
    if w.rows[r].status != LOCKED {
      FinalRowIsService(w, r, id);
    }
  }
}
