/**
 Nothing is paid that was not asked for: whatever the interleaving, every transaction of the service, on
 the network, in the table or on the ledger, carries out a send of the run.
 */
module PaymentRequests {
  import opened Option
  import opened StellarLedger
  import opened Multisig
  import opened PaymentsService
  import opened PaymentEngine

  function Asks(steps: seq<Step>): set<Input> { set s | s in steps && s.Send? :: s.input }

  /** The transaction pays what the send asks for. */
  ghost predicate Pays(c: Config, i: Input, tx: Tx) {
    && SchemaValid(i) && tx.source == i.source && CarriesMemo(tx, i.memo)
    && if IsHighValue(c, i) then CarriesOutHighValue(tx.ops, i)
       else |tx.ops| == 1 && exists send, dest :: CarriesOut(tx.ops[0], i, send, dest)
  }

  /** Or prepares its account for that: the admin becomes a second signer, and setting options needs both. */
  predicate Prepares(c: Config, i: Input, tx: Tx) {
    && c.admin.Some? && SchemaValid(i) && IsHighValue(c, i) && tx.source == i.source && tx.memo.None?
    && tx.ops == [SetOptions(Some((c.admin.value, 1)), Some(1), Some(1), Some(1), Some(2))]
  }

  ghost predicate TxAsked(c: Config, asked: set<Input>, tx: Tx) {
    exists i :: i in asked && (Pays(c, i, tx) || Prepares(c, i, tx))
  }

  ghost predicate KeyAsked(c: Config, asked: set<Input>, key: string, tx: Tx) {
    exists i :: i in asked && i.key == key && Pays(c, i, tx)
  }

  // ---------- the invariant ----------

  ghost predicate TaskAsked(c: Config, asked: set<Input>, w: World, task: Task) {
    match task
    case Inserted(r, i) => OrdinaryAsked(c, asked, w, r, i)
    case Engine(r, i, _) => OrdinaryAsked(c, asked, w, r, i)
    case EngineSent(r, i, _, _) => OrdinaryAsked(c, asked, w, r, i)
    case HvLook(i) => HighValueAsked(c, asked, i)
    case HvConfigure(i) => HighValueAsked(c, asked, i)
    case HvConfirm(i, _) => HighValueAsked(c, asked, i)
    case HvMark(i) => HighValueAsked(c, asked, i)
    case HvBuild(i) => HighValueAsked(c, asked, i)
    case HvInsert(i, e) => HighValueAsked(c, asked, i) && Pays(c, i, e.tx)
    case Approving(_, e) => TxAsked(c, asked, e.tx)
    case _ => true
  }

  predicate OrdinaryAsked(c: Config, asked: set<Input>, w: World, r: nat, i: Input) {
    i in asked && SchemaValid(i) && !IsHighValue(c, i) && r < |w.rows| && w.rows[r].key == i.key
  }

  predicate HighValueAsked(c: Config, asked: set<Input>, i: Input) {
    i in asked && SchemaValid(i) && IsHighValue(c, i)
  }

  ghost predicate RowAsked(c: Config, asked: set<Input>, row: Row) {
    row.envelope.Some? ==> TxAsked(c, asked, row.envelope.value.tx)
  }

  ghost predicate SentAsked(c: Config, asked: set<Input>, w: World, r: nat, txs: seq<Tx>) {
    r < |w.rows| && forall k :: 0 <= k < |txs| ==> KeyAsked(c, asked, w.rows[r].key, txs[k])
  }

  ghost predicate Asked(c: Config, asked: set<Input>, w: World) {
    && (forall t :: 0 <= t < |w.tasks| ==> TaskAsked(c, asked, w, w.tasks[t]))
    && (forall r :: 0 <= r < |w.rows| ==> RowAsked(c, asked, w.rows[r]))
    && (forall e :: e in w.network ==> TxAsked(c, asked, e.tx))
    && (forall k :: 0 <= k < |w.ledger.applied| ==> TxAsked(c, asked, w.ledger.applied[k].envelope.tx))
    && (forall r :: r in w.sent ==> SentAsked(c, asked, w, r, w.sent[r]))
    && (forall r :: r in w.stored ==> SentAsked(c, asked, w, r, [w.stored[r]]))
  }

  // ---------- every step keeps it ----------

  lemma MoreAsked(c: Config, asked: set<Input>, more: set<Input>, w: World)
    requires Asked(c, asked, w) && asked <= more
    ensures Asked(c, more, w)
  {
    forall tx | TxAsked(c, asked, tx) ensures TxAsked(c, more, tx) {
      var i :| i in asked && (Pays(c, i, tx) || Prepares(c, i, tx));
      assert i in more;
    }
    forall key, tx | KeyAsked(c, asked, key, tx) ensures KeyAsked(c, more, key, tx) {
      var i :| i in asked && i.key == key && Pays(c, i, tx);
      assert i in more;
    }
    forall t | 0 <= t < |w.tasks| ensures TaskAsked(c, more, w, w.tasks[t]) {
      assert TaskAsked(c, asked, w, w.tasks[t]);
    }
    forall r | 0 <= r < |w.rows| ensures RowAsked(c, more, w.rows[r]) {
      assert RowAsked(c, asked, w.rows[r]);
    }
    forall r | r in w.sent ensures SentAsked(c, more, w, r, w.sent[r]) {
      assert SentAsked(c, asked, w, r, w.sent[r]);
    }
    forall r | r in w.stored ensures SentAsked(c, more, w, r, [w.stored[r]]) {
      assert SentAsked(c, asked, w, r, [w.stored[r]]);
    }
  }

  /** A step has to account for what it adds. */
  lemma AskedFrame(c: Config, asked: set<Input>, w: World, w': World)
    requires Asked(c, asked, w) && w'.ledger.applied == w.ledger.applied && RowsGrow(w, w')
    requires forall t :: 0 <= t < |w'.tasks| ==>
                           (t < |w.tasks| && w'.tasks[t] == w.tasks[t]) || TaskAsked(c, asked, w', w'.tasks[t])
    requires forall r :: 0 <= r < |w'.rows| ==>
                           || w'.rows[r].envelope.None? || RowAsked(c, asked, w'.rows[r])
                           || (r < |w.rows| && w'.rows[r].envelope == w.rows[r].envelope)
    requires forall e :: e in w'.network ==> e in w.network || TxAsked(c, asked, e.tx)
    requires forall r :: r in w'.sent ==> (r in w.sent && w'.sent[r] == w.sent[r]) || SentAsked(c, asked, w', r, w'.sent[r])
    requires forall r :: r in w'.stored ==>
                           (r in w.stored && w'.stored[r] == w.stored[r]) || SentAsked(c, asked, w', r, [w'.stored[r]])
    ensures Asked(c, asked, w')
  {
    forall t | 0 <= t < |w'.tasks| ensures TaskAsked(c, asked, w', w'.tasks[t]) {
      if t < |w.tasks| && w'.tasks[t] == w.tasks[t] {
        assert TaskAsked(c, asked, w, w.tasks[t]);
      }
    }
    forall r | 0 <= r < |w'.rows| ensures RowAsked(c, asked, w'.rows[r]) {
      if r < |w.rows| {
        assert RowAsked(c, asked, w.rows[r]);
      }
    }
    forall r | r in w'.sent ensures SentAsked(c, asked, w', r, w'.sent[r]) {
      if r in w.sent {
        assert SentAsked(c, asked, w, r, w.sent[r]);
      }
    }
    forall r | r in w'.stored ensures SentAsked(c, asked, w', r, [w'.stored[r]]) {
      if r in w.stored {
        assert SentAsked(c, asked, w, r, [w.stored[r]]);
      }
    }
  }

  lemma SendAsked(c: Config, asked: set<Input>, w: World, i: Input)
    requires Asked(c, asked, w) && i in asked
    ensures Asked(c, asked, SendStep(c, w, i))
  {
    NextRowsGrow(c, w, Send(i));
    AskedFrame(c, asked, w, SendStep(c, w, i));
  }

  lemma OrdinaryPays(c: Config, l: Ledger, i: Input, send: nat, dest: nat, timeout: nat)
    requires SchemaValid(i) && !IsHighValue(c, i) && i.source in l.accounts
    ensures Pays(c, i, BuildTx(l, i.source, [OrdinaryOp(i, send, dest)], i.memo, timeout))
  {
    assert CarriesOut(BuildTx(l, i.source, [OrdinaryOp(i, send, dest)], i.memo, timeout).ops[0], i, send, dest);
  }

  lemma SubmitAsked(c: Config, asked: set<Input>, w: World, s: Step)
    requires Asked(c, asked, w) && s.EngineSubmit? && s.task < |w.tasks|
    ensures Asked(c, asked, EngineStep(c, w, s))
  {
    var task := w.tasks[s.task];
    if task.Engine? && task.input.source in w.ledger.accounts {
      var i, r := task.input, task.row;
      assert TaskAsked(c, asked, w, task);
      OrdinaryPays(c, w.ledger, i, s.sendAmount, s.destAmount, DEFAULT_TIMEOUT);
      SubmittedIs(c, w, s);
      var w' := EngineStep(c, w, s);
      var tx := w'.tasks[s.task].tx;
      assert Pays(c, i, tx);
      assert TxAsked(c, asked, tx) && KeyAsked(c, asked, w.rows[r].key, tx);
      assert r in w.sent ==> SentAsked(c, asked, w, r, w.sent[r]);
      assert SentAsked(c, asked, w', r, w'.sent[r]);
      AskedFrame(c, asked, w, w');
    }
  }

  lemma ReplyAsked(c: Config, asked: set<Input>, w: World, s: Step)
    requires Asked(c, asked, w) && (s.EngineReply? || s.CallEngine?) && s.task < |w.tasks|
    ensures Asked(c, asked, EngineStep(c, w, s))
  {
    assert TaskAsked(c, asked, w, w.tasks[s.task]);
    AskedFrame(c, asked, w, EngineStep(c, w, s));
  }

  lemma ReadAsked(c: Config, asked: set<Input>, w: World, s: Step)
    requires Asked(c, asked, w) && ReadKind(s)
    ensures Asked(c, asked, ReadStep(w, s))
  {
    if s.row < |w.rows| {
      assert RowAsked(c, asked, w.rows[s.row]);
    }
    AskedFrame(c, asked, w, ReadStep(w, s));
  }

  lemma AdminAsked(c: Config, asked: set<Input>, w: World, s: Step)
    requires Asked(c, asked, w) && AdminKind(s) && s.task < |w.tasks| && c.admin.Some?
    ensures Asked(c, asked, AdminStep(c, w, s))
  {
    assert TaskAsked(c, asked, w, w.tasks[s.task]);
    AskedFrame(c, asked, w, AdminStep(c, w, s));
  }

  lemma WriteAsked(c: Config, asked: set<Input>, w: World, t: nat, verdict: Status)
    requires Asked(c, asked, w) && t < |w.tasks|
    ensures Asked(c, asked, WriteStep(w, t, verdict))
  {
    WriteTouches(w, t, verdict);
    NextRowsGrow(c, w, Write(t, verdict));
    AskedFrame(c, asked, w, WriteStep(w, t, verdict));
  }

  lemma LookAsked(c: Config, asked: set<Input>, w: World, s: Step)
    requires Asked(c, asked, w) && (s.Look? || s.ConfigReturn? || s.Mark?) && s.task < |w.tasks| && c.admin.Some?
    ensures Asked(c, asked, SetupStep(c, w, s))
  {
    assert TaskAsked(c, asked, w, w.tasks[s.task]);
    AskedFrame(c, asked, w, SetupStep(c, w, s));
  }

  lemma ConfigAsked(c: Config, asked: set<Input>, w: World, s: Step)
    requires Asked(c, asked, w) && s.SubmitConfig? && s.task < |w.tasks| && c.admin.Some?
    ensures Asked(c, asked, SetupStep(c, w, s))
  {
    var task := w.tasks[s.task];
    assert TaskAsked(c, asked, w, task);
    if task.HvConfigure? && task.input.source in w.ledger.accounts {
      assert Prepares(c, task.input, BuildTx(w.ledger, task.input.source, ConfigureOps(c.admin.value), None, DEFAULT_TIMEOUT));
    }
    AskedFrame(c, asked, w, SetupStep(c, w, s));
  }

  lemma BuildAsked(c: Config, asked: set<Input>, w: World, s: Step)
    requires Asked(c, asked, w) && s.Build? && s.task < |w.tasks| && c.admin.Some?
    ensures Asked(c, asked, SetupStep(c, w, s))
  {
    assert TaskAsked(c, asked, w, w.tasks[s.task]);
    AskedFrame(c, asked, w, SetupStep(c, w, s));
  }

  lemma InsertAsked(c: Config, asked: set<Input>, w: World, s: Step)
    requires Asked(c, asked, w) && s.Insert? && s.task < |w.tasks| && c.admin.Some?
    ensures Asked(c, asked, SetupStep(c, w, s))
  {
    var task, w' := w.tasks[s.task], SetupStep(c, w, s);
    assert TaskAsked(c, asked, w, task);
    if |w'.rows| > |w.rows| {
      assert TxAsked(c, asked, task.envelope.tx) && KeyAsked(c, asked, task.input.key, task.envelope.tx);
    }
    AskedFrame(c, asked, w, w');
  }

  lemma OutsideAsked(c: Config, asked: set<Input>, w: World, s: Step)
    requires Asked(c, asked, w) && OutsideKind(s)
    ensures Asked(c, asked, OutsideStep(w, s))
  {
    var w' := OutsideStep(w, s);
    if s.Land? {
      if s.envelope in w.network {
        var w1 := w'.(ledger := w'.ledger.(applied := w.ledger.applied));
        AskedFrame(c, asked, w, w1);
        forall t | 0 <= t < |w'.tasks| ensures TaskAsked(c, asked, w', w'.tasks[t]) {
          assert TaskAsked(c, asked, w1, w1.tasks[t]);
        }
        forall r | r in w'.sent ensures SentAsked(c, asked, w', r, w'.sent[r]) {
          assert SentAsked(c, asked, w1, r, w1.sent[r]);
        }
        forall r | r in w'.stored ensures SentAsked(c, asked, w', r, [w'.stored[r]]) {
          assert SentAsked(c, asked, w1, r, [w1.stored[r]]);
        }
      }
    } else {
      if s.Leak? && s.row < |w.rows| {
        assert RowAsked(c, asked, w.rows[s.row]);
      }
      AskedFrame(c, asked, w, w');
    }
  }

  lemma NextAsked(c: Config, asked: set<Input>, w: World, s: Step)
    requires Asked(c, asked, w)
    ensures Asked(c, asked + Asks([s]), Next(c, w, s))
  {
    var more := asked + Asks([s]);
    MoreAsked(c, asked, more, w);
    if s.Send? {
      assert s in [s];
      SendAsked(c, more, w, s.input);
    } else if ReadKind(s) {
      ReadAsked(c, more, w, s);
    } else if OutsideKind(s) {
      OutsideAsked(c, more, w, s);
    } else if s.task < |w.tasks| {
      if s.Write? {
        WriteAsked(c, more, w, s.task, s.verdict);
      } else if s.EngineSubmit? {
        SubmitAsked(c, more, w, s);
      } else if EngineKind(s) {
        ReplyAsked(c, more, w, s);
      } else if c.admin.Some? {
        if AdminKind(s) {
          AdminAsked(c, more, w, s);
        } else if s.SubmitConfig? {
          ConfigAsked(c, more, w, s);
        } else if s.Build? {
          BuildAsked(c, more, w, s);
        } else if s.Insert? {
          InsertAsked(c, more, w, s);
        } else {
          LookAsked(c, more, w, s);
        }
      }
    }
  }

  lemma {:induction false} PlayAsked(c: Config, asked: set<Input>, w: World, steps: seq<Step>)
    requires Asked(c, asked, w)
    ensures Asked(c, asked + Asks(steps), Play(c, w, steps))
    decreases |steps|
  {
    if steps == [] {
      assert asked + Asks(steps) == asked;
    } else {
      NextAsked(c, asked, w, steps[0]);
      PlayAsked(c, asked + Asks([steps[0]]), Next(c, w, steps[0]), steps[1..]);
      assert Asks(steps) == Asks([steps[0]]) + Asks(steps[1..]) by {
        assert steps == [steps[0]] + steps[1..];
      }
      assert asked + Asks([steps[0]]) + Asks(steps[1..]) == asked + Asks(steps);
    }
  }

  // ---------- main results ----------

  lemma RunAsked(c: Config, w0: World, steps: seq<Step>)
    requires Start(w0)
    ensures Asked(c, Asks(steps), Play(c, w0, steps))
  {
    PlayAsked(c, {}, w0, steps);
    assert {} + Asks(steps) == Asks(steps);
  }

  /**
   Every transaction on the ledger comes from an account that asked for it. It carries out one send of the run, with
   its recipient, asset, amount and memo: one payment or path payment if that send is ordinary, the payment and the
   forced threshold if it is high-value; or else it sets up the account of a high-value send.
   */
  lemma NothingUnaskedIsPaid(c: Config, w0: World, steps: seq<Step>, k: nat)
    requires Start(w0) && k < |Play(c, w0, steps).ledger.applied|
    ensures var tx := Play(c, w0, steps).ledger.applied[k].envelope.tx;
            exists i :: Send(i) in steps && (Pays(c, i, tx) || Prepares(c, i, tx))
  {
    RunAsked(c, w0, steps);
    var tx := Play(c, w0, steps).ledger.applied[k].envelope.tx;
    assert TxAsked(c, Asks(steps), tx);
    var i :| i in Asks(steps) && (Pays(c, i, tx) || Prepares(c, i, tx));
    assert Send(i) in steps;
  }

  /** And whatever was built for a row, or stored with it, carries out a send under the row's own key. */
  lemma RowsPayWhatTheirKeyAsked(c: Config, w0: World, steps: seq<Step>, r: nat, k: nat)
    requires Start(w0) && k < |TxsOf(Play(c, w0, steps), r)|
    ensures var w := Play(c, w0, steps);
            r < |w.rows| && exists i :: Send(i) in steps && i.key == w.rows[r].key && Pays(c, i, TxsOf(w, r)[k])
  {
    RunAsked(c, w0, steps);
    var w := Play(c, w0, steps);
    var txs := TxsOf(w, r);
    assert SentAsked(c, Asks(steps), w, r, txs);
    assert KeyAsked(c, Asks(steps), w.rows[r].key, txs[k]);
    var i :| i in Asks(steps) && i.key == w.rows[r].key && Pays(c, i, txs[k]);
    assert Send(i) in steps;
  }
}
