/**
 When a closed row of the payments service is final. A call still at work may overwrite its status, but
 only with a status it can truthfully come to: SUCCESS needs a transaction that the ledger has applied
 or still can apply.
 */
module PaymentFinality {
  import opened Option
  import opened StellarLedger
  import opened Multisig
  import opened PaymentsService
  import opened PaymentGate
  import opened PaymentEngine
  import opened PaymentApproval

  /** The ledger has applied the transaction with success, or still can. */
  predicate Possible(l: Ledger, tx: Tx) {
    l.Succeeded(tx) || (!l.Has(tx) && InTime(l, tx) && NextInLine(l, tx))
  }

  /** The answer can still be `tx_bad_seq`, now or later, with an attempt left. */
  predicate Retriable(c: Config, l: Ledger, i: Input, past: seq<Tx>, tx: Tx) {
    InTime(l, tx) && !l.Has(tx) && |past| + 1 < Attempts(c, i)
  }

  /**
   Call `task` can still write status `s` to row `r`. What reconciliation finds is up to Horizon's
   records and the clock, so it can come to any verdict; a stream match has found its payment.
   */
  predicate CanWrite(c: Config, l: Ledger, task: Task, r: nat, s: Status) {
    match task
    case Inserted(q, i) => q == r && (s == FAILED || (s == SUCCESS && i.source in l.accounts))
    case Engine(q, i, _) => q == r && (s == FAILED || (s == SUCCESS && i.source in l.accounts))
    case EngineSent(q, i, past, tx) =>
      q == r && (s == FAILED || (s == SUCCESS && (Possible(l, tx) || Retriable(c, l, i, past, tx))))
    case EngineDone(q, _, ok) => q == r && s == if ok then SUCCESS else FAILED
    case Approving(q, e) => q == r && (s == FAILED || (s == SUCCESS && Possible(l, e.tx)))
    case CoSigned(q, tx) => q == r && (s == FAILED || (s == SUCCESS && Possible(l, tx)))
    case ApproveWrite(q, ok) => q == r && s == if ok then SUCCESS else FAILED
    case Rejecting(q) => q == r && s == FAILED
    case Reconciling(q) => q == r && (s == SUCCESS || s == FAILED || s == NEEDS_REVIEW)
    case Matching(q) => q == r && s == SUCCESS
    case _ => false
  }

  /** No live call can write row `r` another status than it has. */
  ghost predicate Unopposed(c: Config, w: World, r: nat)
    requires r < |w.rows|
  {
    forall t, s :: 0 <= t < |w.tasks| && CanWrite(c, w.ledger, w.tasks[t], r, s) ==> s == w.rows[r].status
  }

  // ---------- possibilities only shrink ----------

  lemma PossibleShrinks(l: Ledger, l': Ledger, tx: Tx)
    requires Later(l, l') && Built(l, tx) && Possible(l', tx)
    ensures Possible(l, tx)
  {
    if !l.Succeeded(tx) {
      assert !l.Has(tx);
      assert !Hopeless(l, tx);
    }
  }

  /** Every call of `w'` that can write to row `r` could already write that in `w`. */
  ghost predicate NoNewWriters(c: Config, w: World, w': World, r: nat) {
    forall t, s :: 0 <= t < |w'.tasks| && CanWrite(c, w'.ledger, w'.tasks[t], r, s) ==>
                     t < |w.tasks| && CanWrite(c, w.ledger, w.tasks[t], r, s)
  }

  lemma TaskShrinks(c: Config, w: World, l': Ledger, t: nat, r: nat, s: Status)
    requires Known(c, w) && Later(w.ledger, l') && t < |w.tasks| && CanWrite(c, l', w.tasks[t], r, s)
    ensures CanWrite(c, w.ledger, w.tasks[t], r, s)
  {
    assert EngineOk(c, w, w.tasks[t]) && TaskStoredOk(w, w.tasks[t]);
    match w.tasks[t] {
      case EngineSent(_, _, _, tx) =>
        if Possible(l', tx) {
          PossibleShrinks(w.ledger, l', tx);
        }
      case Approving(q, e) =>
        assert RowStoredOk(w, q);
        if Possible(l', e.tx) {
          PossibleShrinks(w.ledger, l', e.tx);
        }
      case CoSigned(q, tx) =>
        assert RowStoredOk(w, q);
        if Possible(l', tx) {
          PossibleShrinks(w.ledger, l', tx);
        }
      case _ =>
    }
  }

  lemma LaterNoNewWriters(c: Config, w: World, l': Ledger, r: nat)
    requires Known(c, w) && Later(w.ledger, l')
    ensures NoNewWriters(c, w, w.(ledger := l'), r)
  {
    forall t, v | 0 <= t < |w.tasks| && CanWrite(c, l', w.tasks[t], r, v) ensures CanWrite(c, w.ledger, w.tasks[t], r, v) {
      TaskShrinks(c, w, l', t, r, v);
    }
  }

  lemma OutsideNoNewWriters(c: Config, w: World, s: Step, r: nat)
    requires Known(c, w) && OutsideKind(s)
    ensures NoNewWriters(c, w, OutsideStep(w, s), r)
  {
    if s.Land? || s.Pass? {
      NextLater(c, w, s);
      LaterNoNewWriters(c, w, Next(c, w, s).ledger, r);
      assert OutsideStep(w, s) == w.(ledger := Next(c, w, s).ledger);
    }
  }

  /** An engine call comes to no status that it could not come to before. */
  lemma EngineTaskShrinks(c: Config, w: World, s: Step, r: nat, v: Status)
    requires EngineKind(s) && s.task < |w.tasks|
    requires var w' := EngineStep(c, w, s); |w'.tasks| == |w.tasks| && CanWrite(c, w'.ledger, w'.tasks[s.task], r, v)
    ensures CanWrite(c, w.ledger, w.tasks[s.task], r, v)
  {
    if s.EngineReply? {
      if w.tasks[s.task].EngineSent? && s.reply.BadSequence? {
        assert Answers(w.ledger, w.tasks[s.task].tx, s.reply) || EngineStep(c, w, s) == w;
      }
    } else if s.EngineSubmit? {
      assert EngineStep(c, w, s).ledger == w.ledger;
    }
  }

  lemma EngineNoNewWriters(c: Config, w: World, s: Step, r: nat)
    requires EngineKind(s) && s.task < |w.tasks|
    ensures NoNewWriters(c, w, EngineStep(c, w, s), r)
  {
    var w' := EngineStep(c, w, s);
    EngineTouches(c, w, s);
    forall t, v | 0 <= t < |w'.tasks| && CanWrite(c, w'.ledger, w'.tasks[t], r, v)
      ensures CanWrite(c, w.ledger, w.tasks[t], r, v)
    {
      if t == s.task {
        EngineTaskShrinks(c, w, s, r, v);
      }
    }
  }

  lemma SetupNoNewWriters(c: Config, w: World, s: Step, r: nat)
    requires c.admin.Some? && SetupKind(s) && s.task < |w.tasks|
    ensures NoNewWriters(c, w, SetupStep(c, w, s), r)
  {
    SetupTouches(c, w, s);
  }

  lemma AdminNoNewWriters(c: Config, w: World, s: Step, r: nat)
    requires c.admin.Some? && AdminKind(s) && s.task < |w.tasks|
    ensures NoNewWriters(c, w, AdminStep(c, w, s), r)
  {
  }

  lemma WriteNoNewWriters(c: Config, w: World, t: nat, verdict: Status, r: nat)
    requires t < |w.tasks|
    ensures NoNewWriters(c, w, WriteStep(w, t, verdict), r)
  {
    WriteTouches(w, t, verdict);
  }

  /** Only an open row finds new writers. */
  lemma StartNoNewWriters(c: Config, w: World, s: Step, r: nat)
    requires r < |w.rows| && !Open(w.rows[r].status) && (s.Send? || ReadKind(s))
    ensures NoNewWriters(c, w, Next(c, w, s), r)
  {
  }

  lemma NextNoNewWriters(c: Config, w: World, s: Step, r: nat)
    requires Known(c, w) && r < |w.rows| && !Open(w.rows[r].status)
    ensures NoNewWriters(c, w, Next(c, w, s), r)
  {
    if s.Send? || ReadKind(s) {
      StartNoNewWriters(c, w, s, r);
    } else if OutsideKind(s) {
      OutsideNoNewWriters(c, w, s, r);
    } else if s.task < |w.tasks| {
      if s.Write? {
        WriteNoNewWriters(c, w, s.task, s.verdict, r);
      } else if EngineKind(s) {
        EngineNoNewWriters(c, w, s, r);
      } else if c.admin.Some? {
        if AdminKind(s) {
          AdminNoNewWriters(c, w, s, r);
        } else {
          SetupNoNewWriters(c, w, s, r);
        }
      }
    }
  }

  lemma WritesWhatItCan(c: Config, w: World, t: nat, verdict: Status, r: nat)
    requires t < |w.tasks| && r < |w.rows| && w.rows[r].envelope.None?
    ensures var w' := WriteStep(w, t, verdict);
            && |w'.rows| == |w.rows|
            && w'.rows[r] == w.rows[r].(status := w'.rows[r].status)
            && (w'.rows[r] != w.rows[r] ==> CanWrite(c, w.ledger, w.tasks[t], r, w'.rows[r].status))
  {
  }

  lemma UnopposedStays(c: Config, w: World, step: Step, r: nat)
    requires Known(c, w) && r < |w.rows| && !Open(w.rows[r].status) && Unopposed(c, w, r)
    ensures r < |Next(c, w, step).rows| && Next(c, w, step).rows[r] == w.rows[r]
    ensures Unopposed(c, Next(c, w, step), r)
  {
    if step.Write? && step.task < |w.tasks| {
      WritesWhatItCan(c, w, step.task, step.verdict, r);
    } else if !step.Send? && !step.Insert? && !step.Write? {
      FewStepsTouchRows(c, w, step);
    }
    NextNoNewWriters(c, w, step, r);
  }

  lemma {:induction false} UnopposedIsFinal(c: Config, w: World, r: nat, more: seq<Step>)
    requires Known(c, w) && r < |w.rows| && !Open(w.rows[r].status) && Unopposed(c, w, r)
    ensures r < |Play(c, w, more).rows| && Play(c, w, more).rows[r] == w.rows[r]
    decreases |more|
  {
    if more != [] {
      NextKnown(c, w, more[0]);
      UnopposedStays(c, w, more[0], r);
      UnopposedIsFinal(c, Next(c, w, more[0]), r, more[1..]);
    }
  }

  // ---------- what is possible happens in some continuation ----------

  ghost predicate Writes(c: Config, w: World, more: seq<Step>, r: nat, s: Status) {
    r < |Play(c, w, more).rows| && Play(c, w, more).rows[r].status == s
  }

  predicate AboutToWrite(task: Task) {
    task.EngineDone? || task.ApproveWrite? || task.Rejecting? || task.Reconciling? || task.Matching?
  }

  lemma WritesNow(c: Config, w: World, t: nat, r: nat, s: Status) returns (more: seq<Step>)
    requires r < |w.rows| && t < |w.tasks| && AboutToWrite(w.tasks[t]) && CanWrite(c, w.ledger, w.tasks[t], r, s)
    ensures Writes(c, w, more, r, s)
  {
    PlayOne(c, w, Write(t, s), []);
    more := [Write(t, s)] + [];
  }

  lemma After(c: Config, w: World, step: Step, rest: seq<Step>, r: nat, s: Status) returns (more: seq<Step>)
    requires Writes(c, Next(c, w, step), rest, r, s)
    ensures Writes(c, w, more, r, s)
  {
    PlayOne(c, w, step, rest);
    more := [step] + rest;
  }

  lemma FailureReaches(c: Config, w: World, t: nat, step: Step)
    requires t < |w.tasks|
    requires (w.tasks[t].Engine? || w.tasks[t].EngineSent?) && step == EngineReply(t, Failure)
    ensures var w' := Next(c, w, step);
            w'.rows == w.rows && w'.ledger == w.ledger && |w'.tasks| == |w.tasks|
            && w'.tasks[t] == EngineDone(w.tasks[t].row, w.tasks[t].input, false)
  {
  }

  lemma NoAnswerReaches(c: Config, w: World, t: nat)
    requires t < |w.tasks| && c.admin.Some? && (w.tasks[t].Approving? || w.tasks[t].CoSigned?)
    ensures var w' := Next(c, w, CoSignReply(t, false));
            w'.rows == w.rows && |w'.tasks| == |w.tasks| && w'.tasks[t] == ApproveWrite(w.tasks[t].row, false)
  {
  }

  lemma CallReaches(c: Config, w: World, t: nat)
    requires t < |w.tasks| && w.tasks[t].Inserted?
    ensures var w' := Next(c, w, CallEngine(t));
            w'.rows == w.rows && w'.ledger == w.ledger && |w'.tasks| == |w.tasks|
            && w'.tasks[t] == Engine(w.tasks[t].row, w.tasks[t].input, [])
  {
  }

  lemma AdminKnown(c: Config, w: World, t: nat)
    requires Known(c, w) && t < |w.tasks| && (w.tasks[t].Approving? || w.tasks[t].CoSigned?)
    ensures c.admin.Some? && w.tasks[t].row in w.stored && Built(w.ledger, w.stored[w.tasks[t].row])
  {
    assert TaskStoredOk(w, w.tasks[t]);
    assert RowStoredOk(w, w.tasks[t].row);
  }

  lemma CanFail(c: Config, w: World, t: nat, r: nat) returns (more: seq<Step>)
    requires Known(c, w) && r < |w.rows| && t < |w.tasks| && !AboutToWrite(w.tasks[t])
    requires CanWrite(c, w.ledger, w.tasks[t], r, FAILED)
    ensures Writes(c, w, more, r, FAILED)
    decreases if w.tasks[t].Inserted? then 1 else 0
  {
    if w.tasks[t].Inserted? {
      CallReaches(c, w, t);
      NextKnown(c, w, CallEngine(t));
      var rest := CanFail(c, Next(c, w, CallEngine(t)), t, r);
      more := After(c, w, CallEngine(t), rest, r, FAILED);
    } else if w.tasks[t].Engine? || w.tasks[t].EngineSent? {
      FailureReaches(c, w, t, EngineReply(t, Failure));
      var rest := WritesNow(c, Next(c, w, EngineReply(t, Failure)), t, r, FAILED);
      more := After(c, w, EngineReply(t, Failure), rest, r, FAILED);
    } else {
      AdminKnown(c, w, t);
      NoAnswerReaches(c, w, t);
      var rest := WritesNow(c, Next(c, w, CoSignReply(t, false)), t, r, FAILED);
      more := After(c, w, CoSignReply(t, false), rest, r, FAILED);
    }
  }

  // ---------- the engine can succeed ----------

  lemma HeardWrites(c: Config, w: World, t: nat, r: nat) returns (more: seq<Step>)
    requires r < |w.rows| && t < |w.tasks| && w.tasks[t].EngineSent? && w.tasks[t].row == r && w.ledger.Succeeded(w.tasks[t].tx)
    ensures Writes(c, w, more, r, SUCCESS)
  {
    AppliedWrites(c, w, t, r, w.tasks[t].input, w.tasks[t].past, w.tasks[t].tx);
    PlayTwo(c, w, EngineReply(t, Applied), Write(t, SUCCESS), []);
    more := [EngineReply(t, Applied), Write(t, SUCCESS)] + [];
  }

  lemma SentAccepted(c: Config, w: World, t: nat)
    requires Known(c, w) && t < |w.tasks| && w.tasks[t].EngineSent?
    requires var tx := w.tasks[t].tx; InTime(w.ledger, tx) && NextInLine(w.ledger, tx)
    ensures var e := Envelope(w.tasks[t].tx, {w.tasks[t].tx.source}); e in w.network && Accepts(w.ledger, e)
  {
    var tx := w.tasks[t].tx;
    assert EngineOk(c, w, w.tasks[t]);
    assert c.admin.Some? ==> TaskGateOk(c, w, w.tasks[t]);
    KnownOptions(c, w, tx.source);
    OrdinaryAuthorised(c, w.ledger.accounts[tx.source].options, Envelope(tx, {tx.source}));
  }

  lemma SentSucceeds(c: Config, w: World, t: nat, r: nat) returns (more: seq<Step>)
    requires Known(c, w) && r < |w.rows| && t < |w.tasks| && w.tasks[t].EngineSent? && w.tasks[t].row == r
    requires Possible(w.ledger, w.tasks[t].tx)
    ensures Writes(c, w, more, r, SUCCESS)
  {
    var tx := w.tasks[t].tx;
    if w.ledger.Succeeded(tx) {
      more := HeardWrites(c, w, t, r);
    } else {
      SentAccepted(c, w, t);
      var land := Land(Envelope(tx, {tx.source}), true);
      assert Next(c, w, land).ledger.applied[|w.ledger.applied|] == Entry(Envelope(tx, {tx.source}), true);
      var rest := HeardWrites(c, Next(c, w, land), t, r);
      more := After(c, w, land, rest, r, SUCCESS);
    }
  }

  lemma SubmitReaches(c: Config, w: World, t: nat)
    requires Sequenced(w.ledger) && t < |w.tasks| && w.tasks[t].Engine? && w.tasks[t].input.source in w.ledger.accounts
    ensures var w' := Next(c, w, EngineSubmit(t, 0, 0));
            w'.rows == w.rows && |w'.tasks| == |w.tasks|
            && w'.tasks[t].EngineSent? && w'.tasks[t].row == w.tasks[t].row && Possible(w'.ledger, w'.tasks[t].tx)
  {
    var w' := Next(c, w, EngineSubmit(t, 0, 0));
    assert w'.ledger == w.ledger && w'.tasks[t].EngineSent?;
    NewNumberIsUnused(w.ledger, w'.tasks[t].tx);
  }

  lemma EngineSucceeds(c: Config, w: World, t: nat, r: nat) returns (more: seq<Step>)
    requires Known(c, w) && r < |w.rows| && t < |w.tasks| && w.tasks[t].Engine? && w.tasks[t].row == r
    requires w.tasks[t].input.source in w.ledger.accounts
    ensures Writes(c, w, more, r, SUCCESS)
  {
    SubmitReaches(c, w, t);
    NextKnown(c, w, EngineSubmit(t, 0, 0));
    var rest := SentSucceeds(c, Next(c, w, EngineSubmit(t, 0, 0)), t, r);
    more := After(c, w, EngineSubmit(t, 0, 0), rest, r, SUCCESS);
  }

  lemma InsertedSucceeds(c: Config, w: World, t: nat, r: nat) returns (more: seq<Step>)
    requires Known(c, w) && r < |w.rows| && t < |w.tasks| && w.tasks[t].Inserted? && w.tasks[t].row == r
    requires w.tasks[t].input.source in w.ledger.accounts
    ensures Writes(c, w, more, r, SUCCESS)
  {
    CallReaches(c, w, t);
    NextKnown(c, w, CallEngine(t));
    var rest := EngineSucceeds(c, Next(c, w, CallEngine(t)), t, r);
    more := After(c, w, CallEngine(t), rest, r, SUCCESS);
  }

  lemma RetryReaches(c: Config, w: World, t: nat)
    requires t < |w.tasks| && w.tasks[t].EngineSent? && Answers(w.ledger, w.tasks[t].tx, BadSequence)
    requires |w.tasks[t].past| + 1 < Attempts(c, w.tasks[t].input)
    ensures var w' := Next(c, w, EngineReply(t, BadSequence));
            w'.rows == w.rows && w'.ledger == w.ledger && |w'.tasks| == |w.tasks|
            && w'.tasks[t].Engine? && w'.tasks[t].row == w.tasks[t].row && w'.tasks[t].input == w.tasks[t].input
  {
  }

  lemma RetrySucceeds(c: Config, w: World, t: nat, r: nat) returns (more: seq<Step>)
    requires Known(c, w) && r < |w.rows| && t < |w.tasks| && w.tasks[t].EngineSent? && w.tasks[t].row == r
    requires Retriable(c, w.ledger, w.tasks[t].input, w.tasks[t].past, w.tasks[t].tx) && !Possible(w.ledger, w.tasks[t].tx)
    ensures Writes(c, w, more, r, SUCCESS)
  {
    assert EngineOk(c, w, w.tasks[t]);
    RetryReaches(c, w, t);
    NextKnown(c, w, EngineReply(t, BadSequence));
    var rest := EngineSucceeds(c, Next(c, w, EngineReply(t, BadSequence)), t, r);
    more := After(c, w, EngineReply(t, BadSequence), rest, r, SUCCESS);
  }

  // ---------- an approval can succeed ----------

  lemma HeardApproval(c: Config, w: World, t: nat, r: nat) returns (more: seq<Step>)
    requires c.admin.Some? && r < |w.rows| && t < |w.tasks| && w.tasks[t].CoSigned? && w.tasks[t].row == r
    requires w.ledger.Succeeded(w.tasks[t].tx)
    ensures Writes(c, w, more, r, SUCCESS)
  {
    var w' := Next(c, w, CoSignReply(t, true));
    assert w' == SetTask(w, t, ApproveWrite(r, true));
    var rest := WritesNow(c, w', t, r, SUCCESS);
    more := After(c, w, CoSignReply(t, true), rest, r, SUCCESS);
  }

  lemma CoSignedCanLand(c: Config, w: World, t: nat)
    requires c.admin.Some? && GateOk(c, w) && t < |w.tasks| && w.tasks[t].CoSigned?
    requires var tx := w.tasks[t].tx; InTime(w.ledger, tx) && NextInLine(w.ledger, tx)
    ensures var e := Envelope(w.tasks[t].tx, {w.tasks[t].tx.source, c.admin.value}); e in w.network && Accepts(w.ledger, e)
  {
    assert TaskGateOk(c, w, w.tasks[t]);
    var tx, a := w.tasks[t].tx, c.admin.value;
    var e := Envelope(tx, {tx.source, a});
    HighValueNeedsBoth(w.ledger.accounts[tx.source].options, e, a, tx.ops[0].destination, tx.ops[0].amount);
  }

  lemma CoSignedSucceeds(c: Config, w: World, t: nat, r: nat) returns (more: seq<Step>)
    requires Known(c, w) && r < |w.rows| && t < |w.tasks| && w.tasks[t].CoSigned? && w.tasks[t].row == r
    requires Possible(w.ledger, w.tasks[t].tx)
    ensures Writes(c, w, more, r, SUCCESS)
  {
    AdminKnown(c, w, t);
    var tx := w.tasks[t].tx;
    if w.ledger.Succeeded(tx) {
      more := HeardApproval(c, w, t, r);
    } else {
      CoSignedCanLand(c, w, t);
      var e := Envelope(tx, {tx.source, c.admin.value});
      assert Next(c, w, Land(e, true)).ledger.applied[|w.ledger.applied|] == Entry(e, true);
      var rest := HeardApproval(c, Next(c, w, Land(e, true)), t, r);
      more := After(c, w, Land(e, true), rest, r, SUCCESS);
    }
  }

  lemma ApprovingSucceeds(c: Config, w: World, t: nat, r: nat) returns (more: seq<Step>)
    requires Known(c, w) && r < |w.rows| && t < |w.tasks| && w.tasks[t].Approving? && w.tasks[t].row == r
    requires Possible(w.ledger, w.tasks[t].envelope.tx)
    ensures Writes(c, w, more, r, SUCCESS)
  {
    AdminKnown(c, w, t);
    var w' := Next(c, w, CoSign(t));
    assert w'.rows == w.rows && w'.ledger == w.ledger && w'.tasks == w.tasks[t := CoSigned(r, w.tasks[t].envelope.tx)];
    NextKnown(c, w, CoSign(t));
    var rest := CoSignedSucceeds(c, w', t, r);
    more := After(c, w, CoSign(t), rest, r, SUCCESS);
  }

  lemma CanSucceed(c: Config, w: World, t: nat, r: nat) returns (more: seq<Step>)
    requires Known(c, w) && r < |w.rows| && t < |w.tasks| && !AboutToWrite(w.tasks[t])
    requires CanWrite(c, w.ledger, w.tasks[t], r, SUCCESS)
    ensures Writes(c, w, more, r, SUCCESS)
  {
    if w.tasks[t].Inserted? {
      more := InsertedSucceeds(c, w, t, r);
    } else if w.tasks[t].Engine? {
      more := EngineSucceeds(c, w, t, r);
    } else if w.tasks[t].EngineSent? {
      if Possible(w.ledger, w.tasks[t].tx) {
        more := SentSucceeds(c, w, t, r);
      } else {
        more := RetrySucceeds(c, w, t, r);
      }
    } else if w.tasks[t].Approving? {
      more := ApprovingSucceeds(c, w, t, r);
    } else {
      more := CoSignedSucceeds(c, w, t, r);
    }
  }

  lemma WriterWrites(c: Config, w: World, t: nat, r: nat, s: Status) returns (more: seq<Step>)
    requires Known(c, w) && r < |w.rows| && t < |w.tasks| && CanWrite(c, w.ledger, w.tasks[t], r, s)
    ensures Writes(c, w, more, r, s)
  {
    if AboutToWrite(w.tasks[t]) {
      more := WritesNow(c, w, t, r, s);
    } else if s == SUCCESS {
      more := CanSucceed(c, w, t, r);
    } else {
      more := CanFail(c, w, t, r);
    }
  }

  /**
   In a reachable state a closed row keeps its value under every continuation exactly when no live call
   can truthfully come to another status.
   */
  lemma ClosedRowIsFinalExactly(c: Config, w0: World, steps: seq<Step>, r: nat)
    requires Start(w0) && r < |Play(c, w0, steps).rows| && !Open(Play(c, w0, steps).rows[r].status)
    ensures var w := Play(c, w0, steps);
            (forall more :: r < |Play(c, w, more).rows| && Play(c, w, more).rows[r] == w.rows[r]) <==> Unopposed(c, w, r)
  {
    Reachable(c, w0, steps);
    var w := Play(c, w0, steps);
    if Unopposed(c, w, r) {
      forall more ensures r < |Play(c, w, more).rows| && Play(c, w, more).rows[r] == w.rows[r] {
        UnopposedIsFinal(c, w, r, more);
      }
    } else {
      var t, s :| 0 <= t < |w.tasks| && CanWrite(c, w.ledger, w.tasks[t], r, s) && s != w.rows[r].status;
      var more := WriterWrites(c, w, t, r, s);
      assert Play(c, w, more).rows[r] != w.rows[r];
    }
  }
}
