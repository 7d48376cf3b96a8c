/**
 The payment engine inside the service: an ordinary send submits a bounded number of transactions, each
 loaded after the one before it is dead, so that one idempotency key never pays twice.
 */
module PaymentEngine {
  import opened Option
  import opened StellarLedger
  import opened Multisig
  import opened PaymentsService

  /** Built from the ledger as it was: its number was the next one then, and its window opened then. */
  predicate Built(l: Ledger, tx: Tx) {
    tx.source in l.accounts && tx.seqNum <= l.accounts[tx.source].seqNum + 1 && tx.maxTime <= l.closeTime + DEFAULT_TIMEOUT
  }

  predicate EngineTask(task: Task) { task.Inserted? || task.Engine? || task.EngineSent? || task.EngineDone? }

  ghost predicate AllDead(l: Ledger, txs: seq<Tx>) {
    forall k :: 0 <= k < |txs| ==> Dead(l, txs[k])
  }

  predicate IsPathTx(tx: Tx) { |tx.ops| == 1 && tx.ops[0].PathPayment? }

  /** A path payment is submitted once. */
  predicate PathOnce(i: Input, past: seq<Tx>) {
    if IsPath(i) then past == [] else forall k :: 0 <= k < |past| ==> !IsPathTx(past[k])
  }

  /** The most transactions any ordinary send builds. */
  function Limit(c: Config): nat { if c.attempts == 0 then 1 else c.attempts }

  ghost predicate EngineOk(c: Config, w: World, task: Task) {
    && (EngineTask(task) ==> task.row < |w.rows| && task.row !in w.stored)
    && match task
       case Inserted(r, i) => r !in w.sent
       case Engine(r, i, past) =>
         SentFor(w, r) == past && |past| < Attempts(c, i) && PathOnce(i, past) && AllDead(w.ledger, past)
       case EngineSent(r, i, past, tx) =>
         && SentFor(w, r) == past + [tx] && |past| < Attempts(c, i) && PathOnce(i, past) && AllDead(w.ledger, past)
         && (IsPathTx(tx) <==> IsPath(i))
         && tx.source == i.source && Built(w.ledger, tx)
         && |tx.ops| == 1 && !tx.ops[0].SetOptions? && Envelope(tx, {tx.source}) in w.network
       case EngineDone(r, _, ok) => ok ==> SentFor(w, r) != [] && w.ledger.Succeeded(SentFor(w, r)[|SentFor(w, r)| - 1])
       case _ => true
  }

  /** Of what was built for a row, all but the last is dead. */
  ghost predicate ListOk(c: Config, l: Ledger, txs: seq<Tx>) {
    && 0 < |txs| <= Limit(c) && AllDead(l, txs[..|txs| - 1])
    && forall k :: 0 <= k < |txs| && IsPathTx(txs[k]) ==> |txs| == 1
  }

  ghost predicate SentOk(c: Config, w: World, r: nat) {
    r < |w.rows| && r !in w.stored && r in w.sent && ListOk(c, w.ledger, w.sent[r])
  }

  /** An engine step moves one engine call. */
  lemma EngineTouches(c: Config, w: World, s: Step)
    requires EngineKind(s) && s.task < |w.tasks|
    ensures var w' := EngineStep(c, w, s);
            && w'.rows == w.rows && w'.stored == w.stored && w'.ledger == w.ledger && |w'.tasks| == |w.tasks|
            && (forall t :: 0 <= t < |w.tasks| && t != s.task ==> w'.tasks[t] == w.tasks[t])
            && (w'.tasks[s.task] == w.tasks[s.task] || (EngineTask(w.tasks[s.task]) && EngineTask(w'.tasks[s.task])))
  {
  }

  predicate SetupTask(task: Task) {
    || task.HvLook? || task.HvConfigure? || task.HvConfirm? || task.HvMark? || task.HvBuild? || task.HvInsert?
    || task.Returned?
  }

  /** A step of a high-value send moves one such call, and may add one row that awaits its signature. */
  lemma SetupTouches(c: Config, w: World, s: Step)
    requires SetupKind(s) && s.task < |w.tasks| && c.admin.Some?
    ensures var w' := SetupStep(c, w, s);
            && w.rows <= w'.rows && w'.ledger == w.ledger && |w'.tasks| == |w.tasks|
            && (forall t :: 0 <= t < |w.tasks| && t != s.task ==> w'.tasks[t] == w.tasks[t])
            && (w'.tasks[s.task] == w.tasks[s.task] || (SetupTask(w.tasks[s.task]) && SetupTask(w'.tasks[s.task])))
            && (forall r :: r in w.stored && r != |w.rows| ==> r in w'.stored && w'.stored[r] == w.stored[r])
            && (forall r :: r in w'.stored && r !in w.stored ==>
                              r == |w.rows| && |w'.rows| == |w.rows| + 1 && w'.rows[r].status == PENDING_SIGNATURE)
  {
  }

  ghost predicate EnginesApart(tasks: seq<Task>) {
    forall s, t :: 0 <= s < t < |tasks| && EngineTask(tasks[s]) && EngineTask(tasks[t]) ==> tasks[s].row != tasks[t].row
  }

  ghost predicate EnginesOk(c: Config, w: World) {
    && Sequenced(w.ledger) && EnginesApart(w.tasks)
    && (forall r :: r in w.stored ==> r < |w.rows|)
    && (forall r :: r in w.sent ==> SentOk(c, w, r))
    && (forall t :: 0 <= t < |w.tasks| ==> EngineOk(c, w, w.tasks[t]))
  }

  // ---------- every step keeps it ----------

  /** What a step may do that neither moves the ledger nor the engine. */
  ghost predicate Aside(w: World, w': World) {
    && w'.ledger == w.ledger && w'.sent == w.sent && w.network <= w'.network && |w.rows| <= |w'.rows|
    && (forall r :: r in w'.stored ==> r < |w'.rows| && (r in w.stored || |w.rows| <= r))
    && forall t :: 0 <= t < |w'.tasks| ==> (t < |w.tasks| && w'.tasks[t] == w.tasks[t]) || !EngineTask(w'.tasks[t])
  }

  lemma AsideKeeps(c: Config, w: World, w': World)
    requires EnginesOk(c, w) && Aside(w, w')
    ensures EnginesOk(c, w')
  {
    forall t | 0 <= t < |w'.tasks| ensures EngineOk(c, w', w'.tasks[t]) {
      if t < |w.tasks| {
        assert EngineOk(c, w, w.tasks[t]);
      }
    }
    forall r | r in w'.sent ensures SentOk(c, w', r) {
      assert SentOk(c, w, r);
    }
  }

  lemma LedgerMoves(c: Config, w: World, l: Ledger)
    requires EnginesOk(c, w) && Later(w.ledger, l)
    ensures EnginesOk(c, w.(ledger := l))
  {
    var w' := w.(ledger := l);
    forall t | 0 <= t < |w'.tasks| ensures EngineOk(c, w', w'.tasks[t]) {
      assert EngineOk(c, w, w.tasks[t]);
    }
    forall r | r in w'.sent ensures SentOk(c, w', r) {
      assert SentOk(c, w, r);
    }
  }

  lemma SendEngines(c: Config, w: World, i: Input)
    requires EnginesOk(c, w)
    ensures EnginesOk(c, SendStep(c, w, i))
  {
    var w' := SendStep(c, w, i);
    if |w'.rows| == |w.rows| {
      AsideKeeps(c, w, w');
    } else {
      forall t | 0 <= t < |w'.tasks| ensures EngineOk(c, w', w'.tasks[t]) {
        if t < |w.tasks| {
          assert EngineOk(c, w, w.tasks[t]);
        } else {
          assert |w.rows| in w.sent ==> SentOk(c, w, |w.rows|);
        }
      }
      forall r | r in w'.sent ensures SentOk(c, w', r) {
        assert SentOk(c, w, r);
      }
      forall s | 0 <= s < |w.tasks| && EngineTask(w.tasks[s]) ensures w.tasks[s].row < |w.rows| {
        assert EngineOk(c, w, w.tasks[s]);
      }
    }
  }

  lemma OutsideEngines(c: Config, w: World, s: Step)
    requires EnginesOk(c, w) && OutsideKind(s)
    ensures EnginesOk(c, OutsideStep(w, s))
  {
    if s.Land? {
      if s.envelope in w.network {
        ApplyLater(w.ledger, s.envelope, s.succeeded);
        LedgerMoves(c, w, Apply(w.ledger, s.envelope, s.succeeded));
      }
    } else if s.Pass? {
      TickLater(w.ledger, s.seconds);
      LedgerMoves(c, w, Tick(w.ledger, s.seconds));
    } else {
      AsideKeeps(c, w, OutsideStep(w, s));
    }
  }

  /** One engine call moves; nobody else works on its row. */
  lemma EngineMoves(c: Config, w: World, w': World, t: nat)
    requires EnginesOk(c, w) && t < |w.tasks| && EngineTask(w.tasks[t])
    requires w'.ledger == w.ledger && w'.rows == w.rows && w'.stored == w.stored && w.network <= w'.network
    requires |w'.tasks| == |w.tasks| && forall s :: 0 <= s < |w.tasks| && s != t ==> w'.tasks[s] == w.tasks[s]
    requires EngineTask(w'.tasks[t]) && w'.tasks[t].row == w.tasks[t].row && EngineOk(c, w', w'.tasks[t])
    requires forall r :: r != w.tasks[t].row ==> SentFor(w', r) == SentFor(w, r) && (r in w'.sent <==> r in w.sent)
    requires w.tasks[t].row in w'.sent ==> SentOk(c, w', w.tasks[t].row)
    ensures EnginesOk(c, w')
  {
    forall s | 0 <= s < |w'.tasks| ensures EngineOk(c, w', w'.tasks[s]) {
      if s != t {
        assert EngineOk(c, w, w.tasks[s]);
        assert EngineTask(w.tasks[s]) ==> w.tasks[s].row != w.tasks[t].row;
      }
    }
    forall r | r in w'.sent ensures SentOk(c, w', r) {
      if r != w.tasks[t].row {
        assert SentOk(c, w, r) && SentFor(w', r) == SentFor(w, r);
      }
    }
  }

  /** A submission that was answered with `tx_bad_seq` was too late already. */
  lemma BadSequenceIsDead(l: Ledger, tx: Tx)
    requires Built(l, tx) && Answers(l, tx, BadSequence)
    ensures Dead(l, tx)
  {
  }

  lemma ListGrows(c: Config, l: Ledger, i: Input, past: seq<Tx>, tx: Tx)
    requires |past| < Attempts(c, i) && PathOnce(i, past) && AllDead(l, past) && (IsPathTx(tx) <==> IsPath(i))
    ensures ListOk(c, l, past + [tx])
  {
    assert (past + [tx])[..|past + [tx]| - 1] == past;
  }

  lemma SubmittedIs(c: Config, w: World, s: Step)
    requires s.EngineSubmit? && s.task < |w.tasks| && w.tasks[s.task].Engine?
    requires w.tasks[s.task].input.source in w.ledger.accounts
    ensures var task := w.tasks[s.task];
            var op := OrdinaryOp(task.input, s.sendAmount, s.destAmount);
            var tx := BuildTx(w.ledger, task.input.source, [op], task.input.memo, DEFAULT_TIMEOUT);
            && EngineStep(c, w, s) == SetTask(w, s.task, EngineSent(task.row, task.input, task.past, tx)).(
                 network := w.network + {Envelope(tx, {tx.source})}, sent := w.sent[task.row := SentFor(w, task.row) + [tx]])
            && (IsPathTx(tx) <==> IsPath(task.input)) && !op.SetOptions? && Built(w.ledger, tx)
  {
  }

  lemma SubmittedKeeps(c: Config, w: World, t: nat, r: nat, i: Input, past: seq<Tx>, tx: Tx)
    requires EnginesOk(c, w) && t < |w.tasks| && w.tasks[t] == Engine(r, i, past)
    requires tx.source == i.source && Built(w.ledger, tx) && |tx.ops| == 1 && !tx.ops[0].SetOptions?
    requires IsPathTx(tx) <==> IsPath(i)
    ensures EnginesOk(c, SetTask(w, t, EngineSent(r, i, past, tx)).(
                           network := w.network + {Envelope(tx, {tx.source})}, sent := w.sent[r := past + [tx]]))
  {
    assert EngineOk(c, w, w.tasks[t]);
    ListGrows(c, w.ledger, i, past, tx);
    EngineMoves(c, w, SetTask(w, t, EngineSent(r, i, past, tx)).(
                        network := w.network + {Envelope(tx, {tx.source})}, sent := w.sent[r := past + [tx]]), t);
  }

  lemma SubmitEngines(c: Config, w: World, s: Step)
    requires EnginesOk(c, w) && s.EngineSubmit? && s.task < |w.tasks|
    ensures EnginesOk(c, EngineStep(c, w, s))
  {
    if w.tasks[s.task].Engine? && w.tasks[s.task].input.source in w.ledger.accounts {
      var Engine(r, i, past) := w.tasks[s.task];
      assert EngineOk(c, w, w.tasks[s.task]);
      SubmittedIs(c, w, s);
      SubmittedKeeps(c, w, s.task, r, i, past,
                     BuildTx(w.ledger, i.source, [OrdinaryOp(i, s.sendAmount, s.destAmount)], i.memo, DEFAULT_TIMEOUT));
    }
  }

  /** The engine call gives up, or hears that its transaction was applied. */
  lemma DoneKeeps(c: Config, w: World, t: nat, ok: bool)
    requires EnginesOk(c, w) && t < |w.tasks| && (w.tasks[t].Engine? || w.tasks[t].EngineSent?)
    requires ok ==> w.tasks[t].EngineSent? && w.ledger.Succeeded(w.tasks[t].tx)
    ensures EnginesOk(c, SetTask(w, t, EngineDone(w.tasks[t].row, w.tasks[t].input, ok)))
  {
    var r := w.tasks[t].row;
    assert EngineOk(c, w, w.tasks[t]);
    assert r in w.sent ==> SentOk(c, w, r);
    if ok {
      assert SentFor(w, r)[|SentFor(w, r)| - 1] == w.tasks[t].tx;
    }
    EngineMoves(c, w, SetTask(w, t, EngineDone(r, w.tasks[t].input, ok)), t);
  }

  /** The engine call hears `tx_bad_seq` and tries again. */
  lemma RetryKeeps(c: Config, w: World, t: nat)
    requires EnginesOk(c, w) && t < |w.tasks| && w.tasks[t].EngineSent? && Answers(w.ledger, w.tasks[t].tx, BadSequence)
    requires |w.tasks[t].past| + 1 < Attempts(c, w.tasks[t].input)
    ensures EnginesOk(c, SetTask(w, t, Engine(w.tasks[t].row, w.tasks[t].input, w.tasks[t].past + [w.tasks[t].tx])))
  {
    var EngineSent(r, i, past, tx) := w.tasks[t];
    assert EngineOk(c, w, w.tasks[t]);
    assert SentOk(c, w, r);
    BadSequenceIsDead(w.ledger, tx);
    EngineMoves(c, w, SetTask(w, t, Engine(r, i, past + [tx])), t);
  }

  lemma ReplyEngines(c: Config, w: World, s: Step)
    requires EnginesOk(c, w) && s.EngineReply? && s.task < |w.tasks|
    ensures EnginesOk(c, EngineStep(c, w, s))
  {
    var t, task := s.task, w.tasks[s.task];
    if task.Engine? && s.reply.Failure? {
      DoneKeeps(c, w, t, false);
    } else if task.EngineSent? && Answers(w.ledger, task.tx, s.reply) {
      if s.reply.BadSequence? && |task.past| + 1 < Attempts(c, task.input) {
        RetryKeeps(c, w, t);
      } else {
        DoneKeeps(c, w, t, s.reply.Applied?);
      }
    }
  }

  lemma CallEngines(c: Config, w: World, s: Step)
    requires EnginesOk(c, w) && s.CallEngine? && s.task < |w.tasks|
    ensures EnginesOk(c, EngineStep(c, w, s))
  {
    assert EngineOk(c, w, w.tasks[s.task]);
    if w.tasks[s.task].Inserted? {
      EngineMoves(c, w, EngineStep(c, w, s), s.task);
    }
  }

  lemma SetupAside(c: Config, w: World, s: Step)
    requires EnginesOk(c, w) && SetupKind(s) && s.task < |w.tasks| && c.admin.Some?
    ensures Aside(w, SetupStep(c, w, s))
  {
  }

  lemma AdminAside(c: Config, w: World, s: Step)
    requires EnginesOk(c, w) && AdminKind(s) && s.task < |w.tasks| && c.admin.Some?
    ensures Aside(w, AdminStep(c, w, s))
  {
  }

  lemma WriteAside(c: Config, w: World, t: nat, verdict: Status)
    requires EnginesOk(c, w) && t < |w.tasks|
    ensures Aside(w, WriteStep(w, t, verdict))
  {
    WriteTouches(w, t, verdict);
    NextRowsGrow(c, w, Write(t, verdict));
  }

  lemma ReadAside(c: Config, w: World, s: Step)
    requires EnginesOk(c, w) && ReadKind(s)
    ensures Aside(w, ReadStep(w, s))
  {
  }

  lemma NextEngines(c: Config, w: World, s: Step)
    requires EnginesOk(c, w)
    ensures EnginesOk(c, Next(c, w, s))
  {
    if s.Send? {
      SendEngines(c, w, s.input);
    } else if ReadKind(s) {
      ReadAside(c, w, s);
      AsideKeeps(c, w, ReadStep(w, s));
    } else if OutsideKind(s) {
      OutsideEngines(c, w, s);
    } else if s.task < |w.tasks| {
      if s.Write? {
        WriteAside(c, w, s.task, s.verdict);
        AsideKeeps(c, w, WriteStep(w, s.task, s.verdict));
      } else if s.EngineSubmit? {
        SubmitEngines(c, w, s);
      } else if s.EngineReply? {
        ReplyEngines(c, w, s);
      } else if s.CallEngine? {
        CallEngines(c, w, s);
      } else if c.admin.Some? {
        if AdminKind(s) {
          AdminAside(c, w, s);
          AsideKeeps(c, w, AdminStep(c, w, s));
        } else {
          SetupAside(c, w, s);
          AsideKeeps(c, w, SetupStep(c, w, s));
        }
      }
    }
  }

  lemma {:induction false} PlayEngines(c: Config, w: World, steps: seq<Step>)
    requires EnginesOk(c, w)
    ensures EnginesOk(c, Play(c, w, steps))
    decreases |steps|
  {
    if steps != [] {
      NextEngines(c, w, steps[0]);
      PlayEngines(c, Next(c, w, steps[0]), steps[1..]);
    }
  }

  // ---------- one payment per key ----------

  /** Every transaction that stands for a row: what the engine built for it, or the one it was stored with. */
  function TxsOf(w: World, r: nat): seq<Tx> {
    if r in w.stored then [w.stored[r]] else SentFor(w, r)
  }

  /** Only the last transaction built for a row can be on the ledger. */
  lemma AppliedIsLast(c: Config, w: World, r: nat, i: nat)
    requires EnginesOk(c, w) && i < |w.ledger.applied| && w.ledger.applied[i].envelope.tx in TxsOf(w, r)
    ensures w.ledger.applied[i].envelope.tx == TxsOf(w, r)[|TxsOf(w, r)| - 1]
  {
    var tx, txs := w.ledger.applied[i].envelope.tx, TxsOf(w, r);
    assert w.ledger.Has(tx);
    if r !in w.stored {
      assert SentOk(c, w, r);
      forall k | 0 <= k < |txs| - 1 ensures txs[k] != tx {
        assert txs[..|txs| - 1][k] == txs[k];
      }
    }
  }

  /**
   One idempotency key pays at most once, over every run: among all the transactions built for the rows
   of a key, at most one is ever applied.
   */
  lemma OnePaymentPerKey(c: Config, w0: World, steps: seq<Step>, r: nat, q: nat, i: nat, j: nat)
    requires Start(w0)
    requires var w := Play(c, w0, steps);
             && r < |w.rows| && q < |w.rows| && w.rows[r].key == w.rows[q].key
             && i < |w.ledger.applied| && j < |w.ledger.applied|
             && w.ledger.applied[i].envelope.tx in TxsOf(w, r) && w.ledger.applied[j].envelope.tx in TxsOf(w, q)
    ensures i == j
  {
    PlayEngines(c, w0, steps);
    PlayKeysOk(c, w0, steps);
    var w := Play(c, w0, steps);
    assert r == q;
    AppliedIsLast(c, w, r, i);
    AppliedIsLast(c, w, r, j);
    AppliedOnce(w.ledger, i, j);
  }

  /** And no more transactions are built for a key than the bound, one if it is a path payment. */
  lemma BoundedAttempts(c: Config, w0: World, steps: seq<Step>, r: nat)
    requires Start(w0)
    ensures var txs := TxsOf(Play(c, w0, steps), r);
            |txs| <= Limit(c) && forall k :: 0 <= k < |txs| && IsPathTx(txs[k]) ==> |txs| == 1
  {
    PlayEngines(c, w0, steps);
    var w := Play(c, w0, steps);
    assert r !in w.stored && r in w.sent ==> SentOk(c, w, r);
  }
}
