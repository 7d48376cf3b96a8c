/**
 What becomes of a row that awaits its signature. Its envelope reserves a sequence number and is valid
 for thirty seconds, so an approval pays exactly as long as neither has passed; and a row created with
 an envelope is SUCCESS only if its payment is on the ledger.
 */
module PaymentApproval {
  import opened Option
  import opened StellarLedger
  import opened Multisig
  import opened PaymentsService
  import opened PaymentGate
  import opened PaymentEngine

  // ---------- what is known of every reachable state ----------

  /** Without an admin key there is nothing but ordinary sends. */
  ghost predicate Unadministered(c: Config, w: World) {
    && c.admin.None? && w.stored == map[]
    && (forall k :: k in w.ledger.accounts ==> w.ledger.accounts[k].options == FRESH)
    && (forall e :: e in w.network ==> |e.tx.ops| == 1 && !e.tx.ops[0].SetOptions?)
    && (forall r :: 0 <= r < |w.rows| ==> w.rows[r].envelope.None?)
  }

  lemma LandUnadministered(c: Config, w: World, e: Envelope, succeeded: bool)
    requires Unadministered(c, w) && e in w.network
    ensures Unadministered(c, w.(ledger := Apply(w.ledger, e, succeeded)))
  {
    assert e.tx.ops[1..] == [];
    assert ConfigureAll(FRESH, e.tx.ops) == ConfigureAll(FRESH, []);
  }

  lemma EngineUnadministered(c: Config, w: World, s: Step)
    requires Unadministered(c, w) && EngineKind(s) && s.task < |w.tasks|
    ensures Unadministered(c, EngineStep(c, w, s))
  {
  }

  lemma WriteUnadministered(c: Config, w: World, t: nat, verdict: Status)
    requires Unadministered(c, w) && t < |w.tasks|
    ensures Unadministered(c, WriteStep(w, t, verdict))
  {
    WriteTouches(w, t, verdict);
  }

  lemma NextUnadministered(c: Config, w: World, s: Step)
    requires Unadministered(c, w)
    ensures Unadministered(c, Next(c, w, s))
  {
    if s.Land? {
      if s.envelope in w.network {
        LandUnadministered(c, w, s.envelope, s.succeeded);
      }
    } else if !s.Send? && !ReadKind(s) && !OutsideKind(s) && s.task < |w.tasks| {
      if s.Write? {
        WriteUnadministered(c, w, s.task, s.verdict);
      } else if EngineKind(s) {
        EngineUnadministered(c, w, s);
      }
    }
  }

  ghost predicate TaskStoredOk(w: World, task: Task) {
    && (Ordinary(task) ==> task.row < |w.rows| && task.row !in w.stored)
    && match task
       case HvInsert(_, e) => Built(w.ledger, e.tx)
       case Approving(r, e) => r in w.stored && w.stored[r] == e.tx
       case CoSigned(r, tx) => r in w.stored && w.stored[r] == tx
       case ApproveWrite(r, ok) => r in w.stored && (ok ==> w.ledger.Succeeded(w.stored[r]))
       case Rejecting(r) => r in w.stored
       case _ => true
  }

  /** A row created with an envelope stands for that transaction, and is SUCCESS only if it succeeded. */
  ghost predicate RowStoredOk(w: World, r: nat) {
    r in w.stored ==>
      && r < |w.rows| && Built(w.ledger, w.stored[r])
      && w.rows[r].status in {PENDING_SIGNATURE, SUCCESS, FAILED}
      && (w.rows[r].status == SUCCESS ==> w.ledger.Succeeded(w.stored[r]))
  }

  ghost predicate StoredOk(w: World) {
    && (forall r :: r in w.stored ==> r < |w.rows| && RowStoredOk(w, r))
    && (forall r :: 0 <= r < |w.rows| && w.rows[r].envelope.Some? ==> r in w.stored && w.stored[r] == w.rows[r].envelope.value.tx)
    && (forall t :: 0 <= t < |w.tasks| ==> TaskStoredOk(w, w.tasks[t]))
  }

  /** A step that leaves ledger and stored transactions alone has to account for the calls it moves. */
  lemma StoredFrame(w: World, w': World)
    requires StoredOk(w) && w'.ledger == w.ledger && w'.stored == w.stored && |w.rows| <= |w'.rows|
    requires forall r :: 0 <= r < |w.rows| ==> w'.rows[r] == w.rows[r]
    requires forall r :: |w.rows| <= r < |w'.rows| ==> w'.rows[r].envelope.None?
    requires forall t :: 0 <= t < |w'.tasks| ==>
                           (t < |w.tasks| && w'.tasks[t] == w.tasks[t]) || TaskStoredOk(w', w'.tasks[t])
    ensures StoredOk(w')
  {
    forall t | 0 <= t < |w'.tasks| ensures TaskStoredOk(w', w'.tasks[t]) {
      if t < |w.tasks| {
        assert TaskStoredOk(w, w.tasks[t]);
      }
    }
    forall r | r in w'.stored ensures RowStoredOk(w', r) {
      assert RowStoredOk(w, r);
    }
  }

  lemma StoredLedger(w: World, l: Ledger)
    requires StoredOk(w) && Later(w.ledger, l)
    ensures StoredOk(w.(ledger := l))
  {
    var w' := w.(ledger := l);
    forall t | 0 <= t < |w'.tasks| ensures TaskStoredOk(w', w'.tasks[t]) {
      assert TaskStoredOk(w, w.tasks[t]);
    }
    forall r | r in w'.stored ensures RowStoredOk(w', r) {
      assert RowStoredOk(w, r);
    }
  }

  lemma SendStored(c: Config, w: World, i: Input)
    requires StoredOk(w)
    ensures StoredOk(SendStep(c, w, i))
  {
    StoredFrame(w, SendStep(c, w, i));
  }

  lemma ReadStored(w: World, s: Step)
    requires StoredOk(w) && ReadKind(s)
    ensures StoredOk(ReadStep(w, s))
  {
    assert s.row in w.stored ==> RowStoredOk(w, s.row);
    StoredFrame(w, ReadStep(w, s));
  }

  lemma OutsideStored(w: World, s: Step)
    requires StoredOk(w) && OutsideKind(s) && Sequenced(w.ledger)
    ensures StoredOk(OutsideStep(w, s))
  {
    if s.Land? {
      if s.envelope in w.network {
        ApplyLater(w.ledger, s.envelope, s.succeeded);
        StoredLedger(w, Apply(w.ledger, s.envelope, s.succeeded));
      }
    } else if s.Pass? {
      TickLater(w.ledger, s.seconds);
      StoredLedger(w, Tick(w.ledger, s.seconds));
    } else {
      StoredFrame(w, OutsideStep(w, s));
    }
  }

  lemma EngineStored(c: Config, w: World, s: Step)
    requires StoredOk(w) && EngineKind(s) && s.task < |w.tasks|
    ensures StoredOk(EngineStep(c, w, s))
  {
    assert TaskStoredOk(w, w.tasks[s.task]);
    StoredFrame(w, EngineStep(c, w, s));
  }

  lemma AdminStored(c: Config, w: World, s: Step)
    requires StoredOk(w) && AdminKind(s) && s.task < |w.tasks| && c.admin.Some?
    ensures StoredOk(AdminStep(c, w, s))
  {
    assert TaskStoredOk(w, w.tasks[s.task]);
    StoredFrame(w, AdminStep(c, w, s));
  }

  lemma InsertStored(c: Config, w: World, s: Step)
    requires StoredOk(w) && s.Insert? && s.task < |w.tasks| && c.admin.Some?
    ensures StoredOk(SetupStep(c, w, s))
  {
    var w' := SetupStep(c, w, s);
    assert TaskStoredOk(w, w.tasks[s.task]);
    if |w'.rows| == |w.rows| {
      StoredFrame(w, w');
    } else {
      forall t | 0 <= t < |w'.tasks| ensures TaskStoredOk(w', w'.tasks[t]) {
        assert TaskStoredOk(w, w.tasks[t]);
      }
      forall r | r in w'.stored ensures RowStoredOk(w', r) {
        assert r != |w.rows| ==> RowStoredOk(w, r);
      }
    }
  }

  lemma BuildStored(c: Config, w: World, s: Step)
    requires s.Build? && s.task < |w.tasks| && c.admin.Some?
    ensures var w' := SetupStep(c, w, s);
            && w'.rows == w.rows && w'.stored == w.stored
            && (w'.tasks[s.task] == w.tasks[s.task] || TaskStoredOk(w', w'.tasks[s.task]))
  {
  }

  lemma LookStored(c: Config, w: World, s: Step)
    requires SetupKind(s) && !s.Build? && !s.Insert? && s.task < |w.tasks| && c.admin.Some?
    ensures var w' := SetupStep(c, w, s);
            && w'.rows == w.rows && w'.stored == w.stored
            && (w'.tasks[s.task] == w.tasks[s.task] || TaskStoredOk(w', w'.tasks[s.task]))
  {
  }

  lemma SetupStored(c: Config, w: World, s: Step)
    requires StoredOk(w) && SetupKind(s) && !s.Insert? && s.task < |w.tasks| && c.admin.Some?
    ensures StoredOk(SetupStep(c, w, s))
  {
    SetupTouches(c, w, s);
    if s.Build? {
      BuildStored(c, w, s);
    } else {
      LookStored(c, w, s);
    }
    StoredFrame(w, SetupStep(c, w, s));
  }

  /** What a write does to the row of a stored transaction. */
  lemma WriteStoredRow(w: World, t: nat, verdict: Status, r: nat)
    requires StoredOk(w) && t < |w.tasks| && r in w.stored
    ensures RowStoredOk(WriteStep(w, t, verdict), r)
  {
    assert TaskStoredOk(w, w.tasks[t]) && RowStoredOk(w, r);
  }

  lemma WriteStored(w: World, t: nat, verdict: Status)
    requires StoredOk(w) && t < |w.tasks|
    ensures StoredOk(WriteStep(w, t, verdict))
  {
    var w' := WriteStep(w, t, verdict);
    WriteTouches(w, t, verdict);
    forall r | r in w'.stored ensures RowStoredOk(w', r) {
      WriteStoredRow(w, t, verdict, r);
    }
    forall s | 0 <= s < |w'.tasks| ensures TaskStoredOk(w', w'.tasks[s]) {
      assert TaskStoredOk(w, w.tasks[s]);
    }
  }

  lemma NextStored(c: Config, w: World, s: Step)
    requires StoredOk(w) && Sequenced(w.ledger)
    ensures StoredOk(Next(c, w, s))
  {
    if s.Send? {
      SendStored(c, w, s.input);
    } else if ReadKind(s) {
      ReadStored(w, s);
    } else if OutsideKind(s) {
      OutsideStored(w, s);
    } else if s.task < |w.tasks| {
      if s.Write? {
        WriteStored(w, s.task, s.verdict);
      } else if EngineKind(s) {
        EngineStored(c, w, s);
      } else if c.admin.Some? {
        if AdminKind(s) {
          AdminStored(c, w, s);
        } else if s.Insert? {
          InsertStored(c, w, s);
        } else {
          SetupStored(c, w, s);
        }
      }
    }
  }

  ghost predicate Known(c: Config, w: World) {
    && EnginesOk(c, w) && KeysOk(w) && StatusOk(w) && StoredOk(w)
    && if c.admin.Some? then GateOk(c, w) else Unadministered(c, w)
  }

  lemma NextKnown(c: Config, w: World, s: Step)
    requires Known(c, w)
    ensures Known(c, Next(c, w, s))
  {
    NextEngines(c, w, s);
    NextKeysOk(c, w, s);
    NextStatusOk(c, w, s);
    NextStored(c, w, s);
    if c.admin.Some? {
      NextGateOk(c, w, s);
    } else {
      NextUnadministered(c, w, s);
    }
  }

  lemma {:induction false} PlayKnown(c: Config, w: World, steps: seq<Step>)
    requires Known(c, w)
    ensures Known(c, Play(c, w, steps))
    decreases |steps|
  {
    if steps != [] {
      NextKnown(c, w, steps[0]);
      PlayKnown(c, Next(c, w, steps[0]), steps[1..]);
    }
  }

  lemma Reachable(c: Config, w0: World, steps: seq<Step>)
    requires Start(w0)
    ensures Known(c, Play(c, w0, steps))
  {
    PlayKnown(c, w0, steps);
  }

  // ---------- who may sign ----------

  /** A customer's options are as the network gives them or as the service configures them. */
  predicate CustomerOk(c: Config, o: Options) {
    o == FRESH || (c.admin.Some? && Configured(o, c.admin.value))
  }

  lemma KnownOptions(c: Config, w: World, k: Key)
    requires Known(c, w) && k in w.ledger.accounts
    ensures CustomerOk(c, w.ledger.accounts[k].options)
  {
  }

  /** Its own signature is enough for an ordinary operation. */
  lemma OrdinaryAuthorised(c: Config, o: Options, e: Envelope)
    requires CustomerOk(c, o) && e.signers == {e.tx.source} && Some(e.tx.source) != c.admin
    requires |e.tx.ops| == 1 && !e.tx.ops[0].SetOptions?
    ensures Authorised(o, e)
  {
    if o == FRESH {
      assert Weight(o, e.tx.source, e.signers) == 1;
    } else {
      OrdinaryNeedsOne(o, e, c.admin.value);
    }
  }

  // ---------- a send that nothing disturbs ----------

  function OrdinaryEnvelope(l: Ledger, i: Input, send: nat, dest: nat): Envelope
    requires i.source in l.accounts
  {
    Envelope(BuildTx(l, i.source, [OrdinaryOp(i, send, dest)], i.memo, DEFAULT_TIMEOUT), {i.source})
  }

  lemma OrdinaryAsAsked(l: Ledger, i: Input, send: nat, dest: nat)
    requires i.source in l.accounts
    ensures PaysAsAsked(l, i, send, dest, OrdinaryEnvelope(l, i, send, dest))
  {
  }

  lemma SendCalls(c: Config, w: World, i: Input)
    requires SchemaValid(i) && Some(i.source) != c.admin && !IsHighValue(c, i) && FindKey(w.rows, i.key).None?
    ensures Next(c, Next(c, w, Send(i)), CallEngine(|w.tasks|)) ==
            w.(rows := w.rows + [Row(i.key, i.source, None, PENDING)], tasks := w.tasks + [Engine(|w.rows|, i, [])],
               engineCalls := w.engineCalls + [i.key])
  {
    var w1 := Next(c, w, Send(i));
    assert w1.tasks == w.tasks + [Inserted(|w.rows|, i)];
    assert w1.tasks[|w.tasks| := Engine(|w.rows|, i, [])] == w.tasks + [Engine(|w.rows|, i, [])];
  }

  /** Submitting from an account of the ledger and landing applies the payment. */
  lemma SubmitLands(c: Config, w: World, t: nat, r: nat, i: Input, past: seq<Tx>, send: nat, dest: nat)
    requires Sequenced(w.ledger) && t < |w.tasks| && w.tasks[t] == Engine(r, i, past)
    requires i.source in w.ledger.accounts && CustomerOk(c, w.ledger.accounts[i.source].options) && Some(i.source) != c.admin
    ensures var e := OrdinaryEnvelope(w.ledger, i, send, dest);
            var w' := Next(c, Next(c, w, EngineSubmit(t, send, dest)), Land(e, true));
            && w'.rows == w.rows && w'.engineCalls == w.engineCalls && w'.ledger.Succeeded(e.tx)
            && w'.tasks == w.tasks[t := EngineSent(r, i, past, e.tx)]
            && Accepts(w.ledger, e) && w'.ledger == Apply(w.ledger, e, true)
  {
    var e := OrdinaryEnvelope(w.ledger, i, send, dest);
    OrdinaryAuthorised(c, w.ledger.accounts[i.source].options, e);
    var w1 := Next(c, w, EngineSubmit(t, send, dest));
    assert w1.ledger == w.ledger && e in w1.network && w1.tasks == w.tasks[t := EngineSent(r, i, past, e.tx)];
    var w2 := Next(c, w1, Land(e, true));
    assert w2.ledger == Apply(w.ledger, e, true);
    assert w2.ledger.applied[|w.ledger.applied|] == Entry(e, true);
  }

  lemma AppliedWrites(c: Config, w: World, t: nat, r: nat, i: Input, past: seq<Tx>, tx: Tx)
    requires t < |w.tasks| && w.tasks[t] == EngineSent(r, i, past, tx) && w.ledger.Succeeded(tx) && r < |w.rows|
    ensures var w' := Next(c, Next(c, w, EngineReply(t, Applied)), Write(t, SUCCESS));
            && w'.ledger == w.ledger && w'.engineCalls == w.engineCalls && |w'.tasks| == |w.tasks|
            && w'.rows == w.rows[r := w.rows[r].(status := SUCCESS)]
            && w'.tasks[t] == Returned(i.key, r)
  {
    var w1 := Next(c, w, EngineReply(t, Applied));
    assert w1 == SetTask(w, t, EngineDone(r, i, true));
  }

  /**
   Undisturbed, an ordinary send under a new key from an account of the ledger calls the engine once,
   puts exactly the payment it asks for on the ledger, and returns its SUCCESS row.
   */
  lemma UndisturbedSendPays(c: Config, w0: World, steps: seq<Step>, i: Input, send: nat, dest: nat)
    requires Start(w0) && SchemaValid(i) && !IsHighValue(c, i) && Some(i.source) != c.admin
    requires FindKey(Play(c, w0, steps).rows, i.key).None? && i.source in Play(c, w0, steps).ledger.accounts
    ensures var w := Play(c, w0, steps);
            var t, e := |w.tasks|, OrdinaryEnvelope(w.ledger, i, send, dest);
            var w' := Play(c, w, [Send(i), CallEngine(t)] + ([EngineSubmit(t, send, dest), Land(e, true)]
                                 + ([EngineReply(t, Applied), Write(t, SUCCESS)] + [])));
            && w'.rows == w.rows + [Row(i.key, i.source, None, SUCCESS)]
            && w'.engineCalls == w.engineCalls + [i.key]
            && w'.ledger.applied == w.ledger.applied + [Entry(e, true)] && PaysAsAsked(w.ledger, i, send, dest, e)
            && t < |w'.tasks| && w'.tasks[t] == Returned(i.key, |w.rows|)
  {
    Reachable(c, w0, steps);
    var w := Play(c, w0, steps);
    var t, r, e := |w.tasks|, |w.rows|, OrdinaryEnvelope(w.ledger, i, send, dest);
    KnownOptions(c, w, i.source);
    OrdinaryAsAsked(w.ledger, i, send, dest);
    SendCalls(c, w, i);
    var w2 := Next(c, Next(c, w, Send(i)), CallEngine(t));
    SubmitLands(c, w2, t, r, i, [], send, dest);
    var w4 := Next(c, Next(c, w2, EngineSubmit(t, send, dest)), Land(e, true));
    AppliedWrites(c, w4, t, r, i, [], e.tx);
    PlayTwo(c, w4, EngineReply(t, Applied), Write(t, SUCCESS), []);
    PlayTwo(c, w2, EngineSubmit(t, send, dest), Land(e, true), [EngineReply(t, Applied), Write(t, SUCCESS)] + []);
    PlayTwo(c, w, Send(i), CallEngine(t),
            [EngineSubmit(t, send, dest), Land(e, true)] + ([EngineReply(t, Applied), Write(t, SUCCESS)] + []));
  }

  // ---------- a high-value send that nothing disturbs ----------

  lemma HighValueLooks(c: Config, w: World, i: Input)
    requires SchemaValid(i) && IsHighValue(c, i) && Some(i.source) != c.admin && FindKey(w.rows, i.key).None?
    ensures Next(c, Next(c, w, Send(i)), Look(|w.tasks|, i.source in w.flagged)) ==
            w.(tasks := w.tasks + [if i.source in w.flagged then HvBuild(i) else HvConfigure(i)])
  {
    var w1 := Next(c, w, Send(i));
    assert w1 == w.(tasks := w.tasks + [HvLook(i)]);
  }

  lemma LooksKnown(c: Config, w: World, i: Input)
    requires Known(c, w)
    ensures Known(c, Next(c, Next(c, w, Send(i)), Look(|w.tasks|, i.source in w.flagged)))
  {
    NextKnown(c, w, Send(i));
    NextKnown(c, Next(c, w, Send(i)), Look(|w.tasks|, i.source in w.flagged));
  }

  /**
   Undisturbed, a high-value send under a new key leaves a row that awaits its signature, with the
   envelope just built: its number is the account's next one and its window has just opened. It needs an
   account whose flag is set, or one that can still be configured.
   */
  lemma UndisturbedHighValueSend(c: Config, w0: World, steps: seq<Step>, i: Input) returns (more: seq<Step>)
    requires Start(w0) && SchemaValid(i) && IsHighValue(c, i) && Some(i.source) != c.admin
    requires FindKey(Play(c, w0, steps).rows, i.key).None? && i.source in Play(c, w0, steps).ledger.accounts
    requires i.source in Play(c, w0, steps).flagged || Configurable(c, Play(c, w0, steps).ledger, i.source)
    ensures var w := Play(c, w0, steps);
            var w' := Play(c, w, more);
            && i.source in w'.ledger.accounts
            && w'.rows == w.rows + [Row(i.key, i.source, Some(HighValueEnvelope(w'.ledger, i)), PENDING_SIGNATURE)]
            && WaitsAsAsked(w'.ledger, i, HighValueEnvelope(w'.ledger, i))
  {
    Reachable(c, w0, steps);
    var w := Play(c, w0, steps);
    var t := |w.tasks|;
    var look := Look(t, i.source in w.flagged);
    HighValueLooks(c, w, i);
    var w2 := Next(c, Next(c, w, Send(i)), look);
    if i.source in w.flagged {
      BuiltStores(c, w2, t);
      var rest := [Build(t), Insert(t)] + [];
      PlayTwo(c, w2, Build(t), Insert(t), []);
      PlayTwo(c, w, Send(i), look, rest);
      more := [Send(i), look] + rest;
    } else {
      LooksKnown(c, w, i);
      var e, w4 := ConfigurationLands(c, w2, t);
      var rest := [ConfigReturn(t), Mark(t)] + ([Build(t), Insert(t)] + []);
      ConfirmedStores(c, w4, t);
      PlayTwo(c, w2, SubmitConfig(t), Land(e, true), rest);
      PlayTwo(c, w, Send(i), look, [SubmitConfig(t), Land(e, true)] + rest);
      more := [Send(i), look] + ([SubmitConfig(t), Land(e, true)] + rest);
    }
  }

  // ---------- approving ----------

  lemma AwaitingKnown(c: Config, w: World, r: nat)
    requires Known(c, w) && r < |w.rows| && w.rows[r].envelope.Some?
    ensures c.admin.Some? && w.rows[r].status == PENDING_SIGNATURE
    ensures var e := w.rows[r].envelope.value;
            PartSigned(w, c.admin.value, e) && r in w.stored && w.stored[r] == e.tx && Built(w.ledger, e.tx)
  {
    assert c.admin.Some? ==> RowGateOk(w, c.admin.value, r, w.rows[r]);
    assert RowStoredOk(w, r);
  }

  /** The co-signed envelope of a waiting row is acceptable exactly while its number is next and its window open. */
  lemma CoSignedAccepted(c: Config, w: World, r: nat)
    requires Known(c, w) && r < |w.rows| && w.rows[r].envelope.Some?
    ensures c.admin.Some?
    ensures var e := w.rows[r].envelope.value;
            && (Accepts(w.ledger, WithAdmin(c, e)) <==> NextInLine(w.ledger, e.tx) && InTime(w.ledger, e.tx))
            && !Accepts(w.ledger, e)
  {
    AwaitingKnown(c, w, r);
    var e, a := w.rows[r].envelope.value, c.admin.value;
    var o := w.ledger.accounts[e.tx.source].options;
    HighValueNeedsBoth(o, WithAdmin(c, e), a, e.tx.ops[0].destination, e.tx.ops[0].amount);
    HighValueNeedsBoth(o, e, a, e.tx.ops[0].destination, e.tx.ops[0].amount);
    assert a in {e.tx.source, a} && a !in e.signers;
    assert e.signers + {a} == {e.tx.source, a};
  }

  /** Approving row `r` as call `t`. */
  function ApproveRun(r: nat, t: nat, signed: Envelope): seq<Step> {
    [Approve(r), CoSign(t)] + ([Land(signed, true), CoSignReply(t, true)] + ([Write(t, SUCCESS)] + []))
  }

  lemma ApproveSigns(c: Config, w: World, r: nat)
    requires c.admin.Some? && r < |w.rows| && w.rows[r].status == PENDING_SIGNATURE && w.rows[r].envelope.Some?
    ensures var e := w.rows[r].envelope.value;
            Next(c, Next(c, w, Approve(r)), CoSign(|w.tasks|)) ==
            w.(tasks := w.tasks + [CoSigned(r, e.tx)], approvals := w.approvals + {r}, network := w.network + {WithAdmin(c, e)})
  {
    var w1 := Next(c, w, Approve(r));
    assert w1 == w.(tasks := w.tasks + [Approving(r, w.rows[r].envelope.value)], approvals := w.approvals + {r});
  }

  lemma SignedLands(c: Config, w: World, t: nat, r: nat, signed: Envelope)
    requires c.admin.Some? && t < |w.tasks| && w.tasks[t] == CoSigned(r, signed.tx) && signed in w.network
    requires Accepts(w.ledger, signed) && r < |w.rows|
    ensures Next(c, Next(c, w, Land(signed, true)), CoSignReply(t, true)) ==
            SetTask(w.(ledger := Apply(w.ledger, signed, true)), t, ApproveWrite(r, true))
  {
    var w1 := Next(c, w, Land(signed, true));
    assert w1 == w.(ledger := Apply(w.ledger, signed, true));
    assert w1.ledger.applied[|w.ledger.applied|] == Entry(signed, true);
    assert w1.ledger.Succeeded(signed.tx);
  }

  lemma ApprovalWrites(c: Config, w: World, t: nat, r: nat, ok: bool)
    requires t < |w.tasks| && w.tasks[t] == ApproveWrite(r, ok) && r < |w.rows|
    ensures var w' := Next(c, w, Write(t, if ok then SUCCESS else FAILED));
            && w'.rows == w.rows[r := w.rows[r].(status := if ok then SUCCESS else FAILED, envelope := None)]
            && w'.ledger == w.ledger && w'.tasks == w.tasks[t := Ended] && w'.network == w.network && w'.stored == w.stored
  {
  }

  /**
   In every reachable state, approving a row that awaits its signature pays it, with the account's
   options left as they were, as long as its number is next and its window open; and the stored envelope
   by itself is never accepted.
   */
  lemma ApprovalPays(c: Config, w0: World, steps: seq<Step>, r: nat)
    requires Start(w0) && r < |Play(c, w0, steps).rows| && Play(c, w0, steps).rows[r].envelope.Some?
    ensures c.admin.Some?
    ensures var w := Play(c, w0, steps);
            var e := w.rows[r].envelope.value;
            var signed := WithAdmin(c, e);
            var w' := Play(c, w, ApproveRun(r, |w.tasks|, signed));
            && (Accepts(w.ledger, signed) <==> NextInLine(w.ledger, e.tx) && InTime(w.ledger, e.tx))
            && !Accepts(w.ledger, e)
            && (Accepts(w.ledger, signed) ==>
                  && w'.ledger.applied == w.ledger.applied + [Entry(signed, true)]
                  && e.tx.source in w'.ledger.accounts
                  && w'.ledger.accounts[e.tx.source].options == w.ledger.accounts[e.tx.source].options
                  && w'.rows == w.rows[r := w.rows[r].(status := SUCCESS, envelope := None)])
  {
    Reachable(c, w0, steps);
    var w := Play(c, w0, steps);
    var t, e := |w.tasks|, w.rows[r].envelope.value;
    AwaitingKnown(c, w, r);
    CoSignedAccepted(c, w, r);
    if Accepts(w.ledger, WithAdmin(c, e)) {
      ApprovalRuns(c, w, r);
      HighValueIsNoOp(w.ledger.accounts[e.tx.source].options, c.admin.value, e.tx.ops[0].destination, e.tx.ops[0].amount);
    }
  }

  lemma ApprovalRuns(c: Config, w: World, r: nat)
    requires c.admin.Some? && r < |w.rows| && w.rows[r].status == PENDING_SIGNATURE && w.rows[r].envelope.Some?
    requires Accepts(w.ledger, WithAdmin(c, w.rows[r].envelope.value))
    ensures var signed := WithAdmin(c, w.rows[r].envelope.value);
            var w' := Play(c, w, ApproveRun(r, |w.tasks|, signed));
            && w'.ledger == Apply(w.ledger, signed, true)
            && w'.rows == w.rows[r := w.rows[r].(status := SUCCESS, envelope := None)]
  {
    var t, signed := |w.tasks|, WithAdmin(c, w.rows[r].envelope.value);
    ApproveSigns(c, w, r);
    var w2 := Next(c, Next(c, w, Approve(r)), CoSign(t));
    SignedLands(c, w2, t, r, signed);
    var w4 := Next(c, Next(c, w2, Land(signed, true)), CoSignReply(t, true));
    ApprovalWrites(c, w4, t, r, true);
    PlayOne(c, w4, Write(t, SUCCESS), []);
    PlayTwo(c, w2, Land(signed, true), CoSignReply(t, true), [Write(t, SUCCESS)] + []);
    PlayTwo(c, w, Approve(r), CoSign(t), [Land(signed, true), CoSignReply(t, true)] + ([Write(t, SUCCESS)] + []));
  }

  lemma {:induction false} HopelessForEver(c: Config, w: World, more: seq<Step>, tx: Tx)
    requires EnginesOk(c, w) && Hopeless(w.ledger, tx)
    ensures Hopeless(Play(c, w, more).ledger, tx)
    decreases |more|
  {
    if more != [] {
      NextEngines(c, w, more[0]);
      NextLater(c, w, more[0]);
      HopelessForEver(c, Next(c, w, more[0]), more[1..], tx);
    }
  }

  lemma NextLater(c: Config, w: World, s: Step)
    requires Sequenced(w.ledger)
    ensures Later(w.ledger, Next(c, w, s).ledger)
  {
    TickLater(w.ledger, 0);
    if s.Land? && s.envelope in w.network {
      ApplyLater(w.ledger, s.envelope, s.succeeded);
    } else if s.Pass? {
      TickLater(w.ledger, s.seconds);
    } else {
      assert Next(c, w, s).ledger == w.ledger;
    }
  }

  ghost predicate PaidAfter(c: Config, w: World, more: seq<Step>, tx: Tx) { Play(c, w, more).ledger.Has(tx) }

  /**
   Exactly when the payment of a waiting row can still reach the ledger, in any continuation: it is there
   already, or its sequence number is the account's next one and its window has not closed.
   */
  lemma PayableExactly(c: Config, w0: World, steps: seq<Step>, r: nat)
    requires Start(w0) && r < |Play(c, w0, steps).rows| && Play(c, w0, steps).rows[r].envelope.Some?
    ensures var w := Play(c, w0, steps);
            var tx := w.rows[r].envelope.value.tx;
            (exists more :: PaidAfter(c, w, more, tx)) <==>
            w.ledger.Has(tx) || (NextInLine(w.ledger, tx) && InTime(w.ledger, tx))
  {
    Reachable(c, w0, steps);
    var w := Play(c, w0, steps);
    var tx := w.rows[r].envelope.value.tx;
    AwaitingKnown(c, w, r);
    if w.ledger.Has(tx) {
      assert PaidAfter(c, w, [], tx);
    } else if NextInLine(w.ledger, tx) && InTime(w.ledger, tx) {
      ApprovalPays(c, w0, steps, r);
      var run := ApproveRun(r, |w.tasks|, WithAdmin(c, w.rows[r].envelope.value));
      assert Play(c, w, run).ledger.applied[|w.ledger.applied|].envelope.tx == tx;
      assert PaidAfter(c, w, run, tx);
    } else {
      forall more ensures !PaidAfter(c, w, more, tx) {
        HopelessForEver(c, w, more, tx);
      }
    }
  }

  // ---------- how an approval fails ----------

  lemma NoAnswer(c: Config, w: World, t: nat, r: nat, tx: Tx)
    requires c.admin.Some? && t < |w.tasks| && w.tasks[t] == CoSigned(r, tx)
    ensures Next(c, w, CoSignReply(t, false)) == SetTask(w, t, ApproveWrite(r, false))
  {
  }

  lemma ApprovalHearsNothing(c: Config, w: World, r: nat)
    requires c.admin.Some? && r < |w.rows| && w.rows[r].status == PENDING_SIGNATURE && w.rows[r].envelope.Some?
    ensures var t := |w.tasks|;
            var w' := Play(c, w, [Approve(r), CoSign(t)] + ([CoSignReply(t, false), Write(t, FAILED)] + []));
            && w'.ledger == w.ledger
            && w'.rows == w.rows[r := w.rows[r].(status := FAILED, envelope := None)]
  {
    var t := |w.tasks|;
    ApproveSigns(c, w, r);
    var w2 := Next(c, Next(c, w, Approve(r)), CoSign(t));
    NoAnswer(c, w2, t, r, w.rows[r].envelope.value.tx);
    var w3 := Next(c, w2, CoSignReply(t, false));
    ApprovalWrites(c, w3, t, r, false);
    PlayTwo(c, w2, CoSignReply(t, false), Write(t, FAILED), []);
    PlayTwo(c, w, Approve(r), CoSign(t), [CoSignReply(t, false), Write(t, FAILED)] + []);
  }

  lemma PassKnown(c: Config, w: World, r: nat, seconds: nat)
    requires Known(c, w)
    ensures Next(c, w, Pass(seconds)) == w.(ledger := Tick(w.ledger, seconds)) && Known(c, Next(c, w, Pass(seconds)))
  {
    NextKnown(c, w, Pass(seconds));
  }

  /**
   Thirty-one seconds after any reachable state, a row that awaits its signature and was not paid can
   never be paid: approving it leaves it FAILED and the ledger as it was.
   */
  lemma LateApprovalFails(c: Config, w0: World, steps: seq<Step>, r: nat, seconds: nat)
    requires Start(w0) && r < |Play(c, w0, steps).rows| && Play(c, w0, steps).rows[r].envelope.Some?
    requires seconds > DEFAULT_TIMEOUT && !Play(c, w0, steps).ledger.Has(Play(c, w0, steps).rows[r].envelope.value.tx)
    ensures var w, t := Play(c, w0, steps), |Play(c, w0, steps).tasks|;
            var late := Next(c, w, Pass(seconds));
            var w' := Play(c, late, [Approve(r), CoSign(t)] + ([CoSignReply(t, false), Write(t, FAILED)] + []));
            && w'.rows == w.rows[r := w.rows[r].(status := FAILED, envelope := None)]
            && w'.ledger.applied == w.ledger.applied
            && forall more :: !PaidAfter(c, late, more, w.rows[r].envelope.value.tx)
  {
    Reachable(c, w0, steps);
    var w := Play(c, w0, steps);
    var tx := w.rows[r].envelope.value.tx;
    AwaitingKnown(c, w, r);
    PassKnown(c, w, r, seconds);
    var late := Next(c, w, Pass(seconds));
    ApprovalHearsNothing(c, late, r);
    TickHopeless(w.ledger, seconds, tx);
    forall more ensures !PaidAfter(c, late, more, tx) {
      HopelessForEver(c, late, more, tx);
    }
  }

  lemma TickHopeless(l: Ledger, seconds: nat, tx: Tx)
    requires !l.Has(tx) && l.closeTime + seconds > tx.maxTime
    ensures Hopeless(Tick(l, seconds), tx)
  {
    assert Tick(l, seconds).Has(tx) == l.Has(tx);
  }

  /**
   One ordinary send of the same account is enough as well: once its payment is applied, the number
   that the envelope of a waiting row reserved has passed, and the row can never be paid.
   */
  lemma OrdinarySendSpoilsEnvelope(c: Config, w0: World, steps: seq<Step>, r: nat, i: Input, send: nat, dest: nat)
    requires Start(w0) && r < |Play(c, w0, steps).rows| && Play(c, w0, steps).rows[r].envelope.Some?
    requires var w := Play(c, w0, steps);
             var tx := w.rows[r].envelope.value.tx;
             !w.ledger.Has(tx) && i.source == tx.source && FindKey(w.rows, i.key).None?
    requires SchemaValid(i) && !IsHighValue(c, i) && Some(i.source) != c.admin
    ensures i.source in Play(c, w0, steps).ledger.accounts
    ensures var w, t := Play(c, w0, steps), |Play(c, w0, steps).tasks|;
            var land := Land(OrdinaryEnvelope(w.ledger, i, send, dest), true);
            var w' := Play(c, w, [Send(i), CallEngine(t)] + ([EngineSubmit(t, send, dest), land] + []));
            && r < |w'.rows| && w'.rows[r] == w.rows[r]
            && forall more :: !PaidAfter(c, w', more, w.rows[r].envelope.value.tx)
  {
    Reachable(c, w0, steps);
    var w := Play(c, w0, steps);
    var t, tx := |w.tasks|, w.rows[r].envelope.value.tx;
    AwaitingKnown(c, w, r);
    var e := OrdinaryEnvelope(w.ledger, i, send, dest);
    var run := [Send(i), CallEngine(t)] + ([EngineSubmit(t, send, dest), Land(e, true)] + []);
    OrdinaryRun(c, w, i, send, dest);
    PlayKnown(c, w, run);
    OtherIsSpoiled(w.ledger, e, tx);
    forall more ensures !PaidAfter(c, Play(c, w, run), more, tx) {
      HopelessForEver(c, Play(c, w, run), more, tx);
    }
  }

  /** An ordinary send up to the moment its payment is applied. */
  lemma OrdinaryRun(c: Config, w: World, i: Input, send: nat, dest: nat)
    requires Known(c, w) && SchemaValid(i) && !IsHighValue(c, i) && Some(i.source) != c.admin
    requires FindKey(w.rows, i.key).None? && i.source in w.ledger.accounts
    ensures var t, e := |w.tasks|, OrdinaryEnvelope(w.ledger, i, send, dest);
            var w' := Play(c, w, [Send(i), CallEngine(t)] + ([EngineSubmit(t, send, dest), Land(e, true)] + []));
            && Accepts(w.ledger, e) && w'.ledger == Apply(w.ledger, e, true)
            && w'.rows == w.rows + [Row(i.key, i.source, None, PENDING)]
  {
    var t, e := |w.tasks|, OrdinaryEnvelope(w.ledger, i, send, dest);
    KnownOptions(c, w, i.source);
    SendCalls(c, w, i);
    var w2 := Next(c, Next(c, w, Send(i)), CallEngine(t));
    SubmitLands(c, w2, t, |w.rows|, i, [], send, dest);
    PlayTwo(c, w2, EngineSubmit(t, send, dest), Land(e, true), []);
    PlayTwo(c, w, Send(i), CallEngine(t), [EngineSubmit(t, send, dest), Land(e, true)] + []);
  }

  /** Applying another transaction of the account passes the number by. */
  lemma OtherIsSpoiled(l: Ledger, e: Envelope, tx: Tx)
    requires Accepts(l, e) && e.tx.source == tx.source && e.tx != tx && Built(l, tx) && !l.Has(tx)
    ensures Hopeless(Apply(l, e, true), tx)
  {
    var l' := Apply(l, e, true);
    forall k | 0 <= k < |l'.applied| ensures l'.applied[k].envelope.tx != tx {
      assert k < |l.applied| ==> l'.applied[k] == l.applied[k];
    }
  }
}
