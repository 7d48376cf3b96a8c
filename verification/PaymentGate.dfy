/**
 The high-value gate over whole runs of the payments service: with an admin key configured, a plain
 native payment above the threshold is on the ledger only if an admin approved its row, and at most
 once. The proof follows every envelope that can ever reach the network.
 */
module PaymentGate {
  import opened Option
  import opened StellarLedger
  import opened Multisig
  import opened PaymentsService

  ghost predicate Ready(l: Ledger, a: Key, k: Key) {
    k in l.accounts && Configured(l.accounts[k].options, a)
  }

  predicate IsHighValueOps(ops: seq<Op>) {
    |ops| == 2 && ops[0].Payment? && ops == HighValueOps(ops[0].destination, ops[0].amount)
  }

  /** An approved row was created with this transaction. */
  ghost predicate Backed(w: World, tx: Tx) {
    exists r :: r in w.stored && w.stored[r] == tx && r in w.approvals
  }

  /** A partially signed high-value envelope of an account that already needs two signatures. */
  ghost predicate PartSigned(w: World, a: Key, e: Envelope) {
    e.tx.source != a && IsHighValueOps(e.tx.ops) && Ready(w.ledger, a, e.tx.source) && e.signers == {e.tx.source}
  }

  predicate Plain(c: Config, e: Envelope) {
    |e.tx.ops| == 1 && !e.tx.ops[0].SetOptions? && !Gated(c, e.tx.ops[0]) && e.signers == {e.tx.source}
  }

  /** The only envelopes that ever reach the network. */
  ghost predicate EnvelopeOk(c: Config, w: World, e: Envelope)
    requires c.admin.Some?
  {
    var a := c.admin.value;
    && e.tx.source != a
    && (|| Plain(c, e)
        || (e.tx.ops == ConfigureOps(a) && e.signers == {e.tx.source})
        || PartSigned(w, a, e)
        || (IsHighValueOps(e.tx.ops) && Ready(w.ledger, a, e.tx.source) && e.signers == {e.tx.source, a} && Backed(w, e.tx)))
  }

  ghost predicate EntryOk(c: Config, w: World, n: Entry)
    requires c.admin.Some?
  {
    && EnvelopeOk(c, w, n.envelope)
    && (IsHighValueOps(n.envelope.tx.ops) ==> c.admin.value in n.envelope.signers)
    && (n.succeeded && n.envelope.tx.ops == ConfigureOps(c.admin.value) ==> Ready(w.ledger, c.admin.value, n.envelope.tx.source))
  }

  ghost predicate TaskGateOk(c: Config, w: World, task: Task)
    requires c.admin.Some?
  {
    var a := c.admin.value;
    match task
    case Inserted(_, i) => SchemaValid(i) && !IsHighValue(c, i) && i.source != a
    case Engine(_, i, _) => SchemaValid(i) && !IsHighValue(c, i) && i.source != a
    case EngineSent(_, i, _, tx) => SchemaValid(i) && !IsHighValue(c, i) && i.source != a && tx.source == i.source
    case HvLook(i) => i.source != a
    case HvConfigure(i) => i.source != a
    case HvConfirm(i, tx) => i.source != a && tx.source == i.source && tx.ops == ConfigureOps(a)
    case HvMark(i) => i.source != a && Ready(w.ledger, a, i.source)
    case HvBuild(i) => i.source != a && Ready(w.ledger, a, i.source)
    case HvInsert(i, e) => PartSigned(w, a, e)
    case Approving(r, e) => PartSigned(w, a, e) && r in w.approvals && r in w.stored && w.stored[r] == e.tx
    case CoSigned(_, tx) =>
      tx.source != a && IsHighValueOps(tx.ops) && Ready(w.ledger, a, tx.source) && Envelope(tx, {tx.source, a}) in w.network
    case _ => true
  }

  ghost predicate RowGateOk(w: World, a: Key, r: nat, row: Row) {
    row.envelope.Some? ==> PartSigned(w, a, row.envelope.value) && r in w.stored && w.stored[r] == row.envelope.value.tx
  }

  ghost predicate LedgerOk(c: Config, w: World)
    requires c.admin.Some?
  {
    && Sequenced(w.ledger)
    && (forall k :: k in w.ledger.accounts ==>
                      w.ledger.accounts[k].options == FRESH || Configured(w.ledger.accounts[k].options, c.admin.value))
    && (forall i :: 0 <= i < |w.ledger.applied| ==> EntryOk(c, w, w.ledger.applied[i]))
  }

  ghost predicate GateOk(c: Config, w: World)
    requires c.admin.Some?
  {
    && LedgerOk(c, w)
    && (forall k :: k in w.flagged ==> Ready(w.ledger, c.admin.value, k))
    && (forall e :: e in w.network ==> EnvelopeOk(c, w, e))
    && (forall r :: r in w.stored ==> r < |w.rows|)
    && (forall r :: 0 <= r < |w.rows| ==> RowGateOk(w, c.admin.value, r, w.rows[r]))
    && (forall t :: 0 <= t < |w.tasks| ==> TaskGateOk(c, w, w.tasks[t]))
  }

  /** Nothing an envelope relies on is ever taken back. */
  ghost predicate Keeps(a: Key, w: World, w': World) {
    && (forall k :: Ready(w.ledger, a, k) ==> Ready(w'.ledger, a, k))
    && (forall r :: r in w.stored ==> r in w'.stored && w'.stored[r] == w.stored[r])
    && w.approvals <= w'.approvals && w.network <= w'.network
  }

  lemma EnvelopeStaysOk(c: Config, w: World, w': World, e: Envelope)
    requires c.admin.Some? && Keeps(c.admin.value, w, w') && EnvelopeOk(c, w, e)
    ensures EnvelopeOk(c, w', e)
  {
    if Backed(w, e.tx) {
      var r :| r in w.stored && w.stored[r] == e.tx && r in w.approvals;
      assert w'.stored[r] == e.tx;
    }
  }

  /**
   A step that leaves the ledger alone has to account for what it adds: envelopes, flags, rows and
   moved calls.
   */
  lemma GateFrame(c: Config, w: World, w': World)
    requires c.admin.Some? && GateOk(c, w) && w'.ledger == w.ledger && Keeps(c.admin.value, w, w')
    requires forall k :: k in w'.flagged && k !in w.flagged ==> Ready(w.ledger, c.admin.value, k)
    requires forall e :: e in w'.network && e !in w.network ==> EnvelopeOk(c, w', e)
    requires forall r :: r in w'.stored ==> r < |w'.rows|
    requires forall r :: 0 <= r < |w'.rows| ==>
                           || RowGateOk(w', c.admin.value, r, w'.rows[r])
                           || (r < |w.rows| && w'.rows[r] == w.rows[r])
    requires forall t :: 0 <= t < |w'.tasks| ==>
                           || TaskGateOk(c, w', w'.tasks[t])
                           || (t < |w.tasks| && w'.tasks[t] == w.tasks[t])
    ensures GateOk(c, w')
  {
    forall e | e in w'.network ensures EnvelopeOk(c, w', e) {
      if e in w.network {
        EnvelopeStaysOk(c, w, w', e);
      }
    }
    forall i | 0 <= i < |w'.ledger.applied| ensures EntryOk(c, w', w'.ledger.applied[i]) {
      assert EntryOk(c, w, w.ledger.applied[i]);
      EnvelopeStaysOk(c, w, w', w.ledger.applied[i].envelope);
    }
    forall r | 0 <= r < |w'.rows| ensures RowGateOk(w', c.admin.value, r, w'.rows[r]) {
      if r < |w.rows| {
        assert RowGateOk(w, c.admin.value, r, w.rows[r]);
      }
    }
    forall t | 0 <= t < |w'.tasks| ensures TaskGateOk(c, w', w'.tasks[t]) {
      if t < |w.tasks| {
        assert TaskGateOk(c, w, w.tasks[t]);
      }
    }
  }

  // ---------- the ledger ----------

  /** What an envelope of the service does to the options of its account. */
  lemma OptionsAfter(c: Config, w: World, e: Envelope, o: Options)
    requires c.admin.Some? && EnvelopeOk(c, w, e)
    requires o == FRESH || Configured(o, c.admin.value)
    ensures var o' := ConfigureAll(o, e.tx.ops);
            && (o' == FRESH || Configured(o', c.admin.value))
            && (Configured(o, c.admin.value) || e.tx.ops == ConfigureOps(c.admin.value) ==> Configured(o', c.admin.value))
  {
    var ops := e.tx.ops;
    if |ops| == 1 {
      assert ops[1..] == [];
    } else {
      assert ops[1..] == [ops[1]];
      assert [ops[1]][1..] == [];
      calc {
        ConfigureAll(o, ops);
        ConfigureAll(Configure(o, ops[0]), [ops[1]]);
        Configure(o, ops[1]);
        o;
      }
    }
  }

  /** A high-value envelope that the ledger accepts carries both signatures. */
  lemma AcceptedIsCoSigned(c: Config, w: World, e: Envelope)
    requires c.admin.Some? && EnvelopeOk(c, w, e) && Accepts(w.ledger, e) && IsHighValueOps(e.tx.ops)
    ensures e.signers == {e.tx.source, c.admin.value} && Backed(w, e.tx)
  {
    var a := c.admin.value;
    assert Ready(w.ledger, a, e.tx.source);
    HighValueNeedsBoth(w.ledger.accounts[e.tx.source].options, e, a, e.tx.ops[0].destination, e.tx.ops[0].amount);
    assert a in e.signers;
    assert a !in {e.tx.source};
  }

  lemma LandKeeps(c: Config, w: World, e: Envelope, succeeded: bool)
    requires c.admin.Some? && GateOk(c, w) && EnvelopeOk(c, w, e)
    ensures var w' := w.(ledger := Apply(w.ledger, e, succeeded));
            Keeps(c.admin.value, w, w') && LedgerOk(c, w')
  {
    var w' := w.(ledger := Apply(w.ledger, e, succeeded));
    ApplyKeeps(w.ledger, e, succeeded);
    if Accepts(w.ledger, e) {
      OptionsAfter(c, w, e, w.ledger.accounts[e.tx.source].options);
      if IsHighValueOps(e.tx.ops) {
        AcceptedIsCoSigned(c, w, e);
      }
      forall i | 0 <= i < |w'.ledger.applied| ensures EntryOk(c, w', w'.ledger.applied[i]) {
        if i < |w.ledger.applied| {
          assert EntryOk(c, w, w.ledger.applied[i]);
          EnvelopeStaysOk(c, w, w', w.ledger.applied[i].envelope);
        } else {
          EnvelopeStaysOk(c, w, w', e);
        }
      }
    }
  }

  lemma LandGateOk(c: Config, w: World, e: Envelope, succeeded: bool)
    requires c.admin.Some? && GateOk(c, w) && EnvelopeOk(c, w, e)
    ensures GateOk(c, w.(ledger := Apply(w.ledger, e, succeeded)))
  {
    var w' := w.(ledger := Apply(w.ledger, e, succeeded));
    LandKeeps(c, w, e, succeeded);
    forall n | n in w'.network ensures EnvelopeOk(c, w', n) {
      EnvelopeStaysOk(c, w, w', n);
    }
    forall r | 0 <= r < |w'.rows| ensures RowGateOk(w', c.admin.value, r, w'.rows[r]) {
      assert RowGateOk(w, c.admin.value, r, w.rows[r]);
    }
    forall t | 0 <= t < |w'.tasks| ensures TaskGateOk(c, w', w'.tasks[t]) {
      assert TaskGateOk(c, w, w.tasks[t]);
    }
  }

  // ---------- the steps ----------

  lemma SendGateOk(c: Config, w: World, i: Input)
    requires c.admin.Some? && GateOk(c, w)
    ensures GateOk(c, SendStep(c, w, i))
  {
    GateFrame(c, w, SendStep(c, w, i));
  }

  lemma EngineGateOk(c: Config, w: World, s: Step)
    requires c.admin.Some? && GateOk(c, w)
    requires EngineKind(s) && s.task < |w.tasks|
    ensures GateOk(c, EngineStep(c, w, s))
  {
    assert TaskGateOk(c, w, w.tasks[s.task]);
    if s.EngineSubmit? && w.tasks[s.task].Engine? {
      GateIsExact(c, w.tasks[s.task].input, s.sendAmount, s.destAmount);
    }
    GateFrame(c, w, EngineStep(c, w, s));
  }

  lemma ConfigReturnIsReady(c: Config, w: World, tx: Tx)
    requires c.admin.Some? && GateOk(c, w) && w.ledger.Succeeded(tx) && tx.ops == ConfigureOps(c.admin.value)
    ensures Ready(w.ledger, c.admin.value, tx.source)
  {
    var i :| 0 <= i < |w.ledger.applied| && w.ledger.applied[i].envelope.tx == tx && w.ledger.applied[i].succeeded;
    assert EntryOk(c, w, w.ledger.applied[i]);
  }

  lemma LookGateOk(c: Config, w: World, s: Step)
    requires c.admin.Some? && GateOk(c, w) && s.Look? && s.task < |w.tasks|
    ensures GateOk(c, SetupStep(c, w, s))
  {
    assert TaskGateOk(c, w, w.tasks[s.task]);
    GateFrame(c, w, SetupStep(c, w, s));
  }

  lemma ConfirmGateOk(c: Config, w: World, s: Step)
    requires c.admin.Some? && GateOk(c, w) && s.ConfigReturn? && s.task < |w.tasks|
    ensures GateOk(c, SetupStep(c, w, s))
  {
    assert TaskGateOk(c, w, w.tasks[s.task]);
    if w.tasks[s.task].HvConfirm? && w.ledger.Succeeded(w.tasks[s.task].tx) {
      ConfigReturnIsReady(c, w, w.tasks[s.task].tx);
    }
    GateFrame(c, w, SetupStep(c, w, s));
  }

  lemma ConfigureGateOk(c: Config, w: World, s: Step)
    requires c.admin.Some? && GateOk(c, w) && s.SubmitConfig? && s.task < |w.tasks|
    ensures GateOk(c, SetupStep(c, w, s))
  {
    assert TaskGateOk(c, w, w.tasks[s.task]);
    GateFrame(c, w, SetupStep(c, w, s));
  }

  lemma BuildGateOk(c: Config, w: World, s: Step)
    requires c.admin.Some? && GateOk(c, w) && (s.Mark? || s.Build?) && s.task < |w.tasks|
    ensures GateOk(c, SetupStep(c, w, s))
  {
    assert TaskGateOk(c, w, w.tasks[s.task]);
    GateFrame(c, w, SetupStep(c, w, s));
  }

  lemma StoreGateOk(c: Config, w: World, s: Step)
    requires c.admin.Some? && GateOk(c, w) && s.Insert? && s.task < |w.tasks|
    ensures GateOk(c, SetupStep(c, w, s))
  {
    assert TaskGateOk(c, w, w.tasks[s.task]);
    GateFrame(c, w, SetupStep(c, w, s));
  }

  lemma ReadGateOk(c: Config, w: World, s: Step)
    requires c.admin.Some? && GateOk(c, w) && ReadKind(s)
    ensures GateOk(c, ReadStep(w, s))
  {
    if s.row < |w.rows| {
      assert RowGateOk(w, c.admin.value, s.row, w.rows[s.row]);
    }
    GateFrame(c, w, ReadStep(w, s));
  }

  lemma AdminGateOk(c: Config, w: World, s: Step)
    requires c.admin.Some? && GateOk(c, w) && AdminKind(s) && s.task < |w.tasks|
    ensures GateOk(c, AdminStep(c, w, s))
  {
    assert TaskGateOk(c, w, w.tasks[s.task]);
    var w' := AdminStep(c, w, s);
    if s.CoSign? && w.tasks[s.task].Approving? {
      var e := w.tasks[s.task].envelope;
      assert w'.stored[w.tasks[s.task].row] == e.tx;
      assert e.signers + {c.admin.value} == {e.tx.source, c.admin.value};
    }
    GateFrame(c, w, w');
  }

  lemma WrittenRowsOk(c: Config, w: World, t: nat, verdict: Status)
    requires c.admin.Some? && GateOk(c, w) && t < |w.tasks|
    ensures var w' := WriteStep(w, t, verdict);
            && w'.ledger == w.ledger && w'.stored == w.stored && |w'.rows| == |w.rows|
            && forall r :: 0 <= r < |w'.rows| ==> RowGateOk(w', c.admin.value, r, w'.rows[r])
  {
    var w' := WriteStep(w, t, verdict);
    forall r | 0 <= r < |w'.rows| ensures RowGateOk(w', c.admin.value, r, w'.rows[r]) {
      assert RowGateOk(w, c.admin.value, r, w.rows[r]);
    }
  }

  lemma WriteGateOk(c: Config, w: World, t: nat, verdict: Status)
    requires c.admin.Some? && GateOk(c, w) && t < |w.tasks|
    ensures GateOk(c, WriteStep(w, t, verdict))
  {
    var w' := WriteStep(w, t, verdict);
    WrittenRowsOk(c, w, t, verdict);
    WriteTouches(w, t, verdict);
    forall s | 0 <= s < |w'.tasks| ensures TaskGateOk(c, w', w'.tasks[s]) || w'.tasks[s] == w.tasks[s] {}
    GateFrame(c, w, w');
  }

  lemma LeakGateOk(c: Config, w: World, r: nat)
    requires c.admin.Some? && GateOk(c, w)
    ensures GateOk(c, OutsideStep(w, Leak(r)))
  {
    if r < |w.rows| {
      assert RowGateOk(w, c.admin.value, r, w.rows[r]);
    }
    GateFrame(c, w, OutsideStep(w, Leak(r)));
  }

  lemma PassGateOk(c: Config, w: World, seconds: nat)
    requires c.admin.Some? && GateOk(c, w)
    ensures GateOk(c, w.(ledger := Tick(w.ledger, seconds)))
  {
    var w' := w.(ledger := Tick(w.ledger, seconds));
    forall e | EnvelopeOk(c, w, e) ensures EnvelopeOk(c, w', e) {
      EnvelopeStaysOk(c, w, w', e);
    }
    forall i | 0 <= i < |w'.ledger.applied| ensures EntryOk(c, w', w'.ledger.applied[i]) {
      assert EntryOk(c, w, w.ledger.applied[i]);
    }
    forall r | 0 <= r < |w'.rows| ensures RowGateOk(w', c.admin.value, r, w'.rows[r]) {
      assert RowGateOk(w, c.admin.value, r, w.rows[r]);
    }
    forall t | 0 <= t < |w'.tasks| ensures TaskGateOk(c, w', w'.tasks[t]) {
      assert TaskGateOk(c, w, w.tasks[t]);
    }
  }

  lemma OutsideGateOk(c: Config, w: World, s: Step)
    requires c.admin.Some? && GateOk(c, w) && OutsideKind(s)
    ensures GateOk(c, OutsideStep(w, s))
  {
    match s {
      case Leak(r) => LeakGateOk(c, w, r);
      case Land(e, succeeded) => if e in w.network { LandGateOk(c, w, e, succeeded); }
      case Pass(seconds) => PassGateOk(c, w, seconds);
      case Crash(_) => GateFrame(c, w, OutsideStep(w, s));
    }
  }

  lemma SetupGateOk(c: Config, w: World, s: Step)
    requires c.admin.Some? && GateOk(c, w) && SetupKind(s) && s.task < |w.tasks|
    ensures GateOk(c, SetupStep(c, w, s))
  {
    if s.Look? {
      LookGateOk(c, w, s);
    } else if s.ConfigReturn? {
      ConfirmGateOk(c, w, s);
    } else if s.SubmitConfig? {
      ConfigureGateOk(c, w, s);
    } else if s.Mark? || s.Build? {
      BuildGateOk(c, w, s);
    } else {
      StoreGateOk(c, w, s);
    }
  }

  lemma NextGateOk(c: Config, w: World, s: Step)
    requires c.admin.Some? && GateOk(c, w)
    ensures GateOk(c, Next(c, w, s))
  {
    if s.Send? {
      SendGateOk(c, w, s.input);
    } else if ReadKind(s) {
      ReadGateOk(c, w, s);
    } else if OutsideKind(s) {
      OutsideGateOk(c, w, s);
    } else if s.task < |w.tasks| {
      if s.Write? {
        WriteGateOk(c, w, s.task, s.verdict);
      } else if EngineKind(s) {
        EngineGateOk(c, w, s);
      } else if AdminKind(s) {
        AdminGateOk(c, w, s);
      } else {
        SetupGateOk(c, w, s);
      }
    }
  }

  lemma {:induction false} PlayGateOk(c: Config, w: World, steps: seq<Step>)
    requires c.admin.Some? && GateOk(c, w)
    ensures GateOk(c, Play(c, w, steps))
    decreases |steps|
  {
    if steps != [] {
      NextGateOk(c, w, steps[0]);
      PlayGateOk(c, Next(c, w, steps[0]), steps[1..]);
    }
  }

  /**
   The gate: whatever the interleaving, and even if the stored envelopes leak, a transaction on the
   ledger that makes a plain native payment above the threshold carries the admin's signature, is the
   one a row was created with, and `approvePendingSignature` ran on that row.
   */
  lemma HighValueGate(c: Config, w0: World, steps: seq<Step>, i: nat, k: nat)
    requires Start(w0) && c.admin.Some?
    requires i < |Play(c, w0, steps).ledger.applied| && k < |Play(c, w0, steps).ledger.applied[i].envelope.tx.ops|
    requires Gated(c, Play(c, w0, steps).ledger.applied[i].envelope.tx.ops[k])
    ensures var w := Play(c, w0, steps);
            var e := w.ledger.applied[i].envelope;
            && c.admin.value in e.signers
            && exists r :: r in w.stored && r < |w.rows| && w.stored[r] == e.tx && r in w.approvals
  {
    PlayGateOk(c, w0, steps);
    var w := Play(c, w0, steps);
    var e := w.ledger.applied[i].envelope;
    assert EntryOk(c, w, w.ledger.applied[i]);
    assert IsHighValueOps(e.tx.ops);
    assert c.admin.value != e.tx.source;
    assert Backed(w, e.tx);
    var r :| r in w.stored && w.stored[r] == e.tx && r in w.approvals;
    assert r < |w.rows|;
  }

  /** A row's high-value payment is on the ledger at most once, even if it is approved many times. */
  lemma ApprovedAtMostOnce(c: Config, w0: World, steps: seq<Step>, r: nat, i: nat, j: nat)
    requires Start(w0) && c.admin.Some?
    requires r in Play(c, w0, steps).stored
    requires i < |Play(c, w0, steps).ledger.applied| && j < |Play(c, w0, steps).ledger.applied|
    requires Play(c, w0, steps).ledger.applied[i].envelope.tx == Play(c, w0, steps).stored[r]
    requires Play(c, w0, steps).ledger.applied[j].envelope.tx == Play(c, w0, steps).stored[r]
    ensures i == j
  {
    PlayGateOk(c, w0, steps);
    AppliedOnce(Play(c, w0, steps).ledger, i, j);
  }

  // ---------- the lost flag ----------

  lemma ConfigurationIsSingleSigned(c: Config, w: World, e: Envelope)
    requires c.admin.Some? && EnvelopeOk(c, w, e) && e.tx.ops == ConfigureOps(c.admin.value)
    ensures e.signers == {e.tx.source} && e.tx.source != c.admin.value
  {
  }

  /** A configuration in flight can only be applied to an account that is not configured yet. */
  lemma ConfigurationNeedsFresh(c: Config, w0: World, steps: seq<Step>, e: Envelope)
    requires Start(w0) && c.admin.Some?
    requires e in Play(c, w0, steps).network && e.tx.ops == ConfigureOps(c.admin.value)
    requires Accepts(Play(c, w0, steps).ledger, e)
    ensures Play(c, w0, steps).ledger.accounts[e.tx.source].options == FRESH
  {
    PlayGateOk(c, w0, steps);
    RefusedOnceReady(c, Play(c, w0, steps), e);
  }

  lemma RefusedOnceReady(c: Config, w: World, e: Envelope)
    requires c.admin.Some? && GateOk(c, w) && EnvelopeOk(c, w, e) && e.tx.ops == ConfigureOps(c.admin.value)
    ensures Ready(w.ledger, c.admin.value, e.tx.source) ==> !Accepts(w.ledger, e)
  {
    ConfigurationIsSingleSigned(c, w, e);
    if Ready(w.ledger, c.admin.value, e.tx.source) {
      ReconfigureRejected(w.ledger.accounts[e.tx.source].options, e, c.admin.value);
    }
  }

  /** The account exists and is not configured yet. */
  ghost predicate Configurable(c: Config, l: Ledger, source: Key)
    requires c.admin.Some?
  {
    source in l.accounts && !Ready(l, c.admin.value, source)
  }

  /** A send that still has to configure an account it cannot, or waits for a configuration that never landed. */
  ghost predicate Barred(c: Config, w: World, t: nat)
    requires c.admin.Some?
  {
    && t < |w.tasks|
    && match w.tasks[t]
       case HvConfigure(i) => !Configurable(c, w.ledger, i.source)
       case HvConfirm(i, tx) => !Configurable(c, w.ledger, tx.source) && tx.ops == ConfigureOps(c.admin.value) && !w.ledger.Has(tx)
       case Ended => true
       case _ => false
  }

  lemma LandBars(c: Config, w: World, e: Envelope, succeeded: bool, t: nat)
    requires c.admin.Some? && GateOk(c, w) && EnvelopeOk(c, w, e) && Barred(c, w, t)
    ensures Barred(c, w.(ledger := Apply(w.ledger, e, succeeded)), t)
  {
    LandKeeps(c, w, e, succeeded);
    if w.tasks[t].HvConfirm? && e.tx == w.tasks[t].tx {
      RefusedOnceReady(c, w, e);
    }
    var l' := Apply(w.ledger, e, succeeded);
    if w.tasks[t].HvConfirm? && Accepts(w.ledger, e) {
      forall k | 0 <= k < |l'.applied| ensures l'.applied[k].envelope.tx != w.tasks[t].tx {
        assert k < |w.ledger.applied| ==> l'.applied[k] == w.ledger.applied[k];
      }
    }
  }

  lemma NewNumberIsUnused(l: Ledger, tx: Tx)
    requires Sequenced(l) && NextInLine(l, tx)
    ensures !l.Has(tx)
  {
  }

  lemma SetupBars(c: Config, w: World, s: Step, t: nat)
    requires c.admin.Some? && GateOk(c, w) && Barred(c, w, t) && SetupKind(s) && s.task < |w.tasks|
    ensures Barred(c, SetupStep(c, w, s), t)
  {
    if s.SubmitConfig? && s.task == t && w.tasks[t].HvConfigure? && w.tasks[t].input.source in w.ledger.accounts {
      NewNumberIsUnused(w.ledger, SetupStep(c, w, s).tasks[t].tx);
    }
  }

  lemma OutsideBars(c: Config, w: World, s: Step, t: nat)
    requires c.admin.Some? && GateOk(c, w) && Barred(c, w, t) && OutsideKind(s)
    ensures Barred(c, OutsideStep(w, s), t)
  {
    if s.Land? && s.envelope in w.network {
      LandBars(c, w, s.envelope, s.succeeded, t);
    }
  }

  lemma EngineBars(c: Config, w: World, s: Step, t: nat)
    requires c.admin.Some? && Barred(c, w, t) && EngineKind(s) && s.task < |w.tasks|
    ensures Barred(c, EngineStep(c, w, s), t)
  {
  }

  lemma AdminBars(c: Config, w: World, s: Step, t: nat)
    requires c.admin.Some? && Barred(c, w, t) && AdminKind(s) && s.task < |w.tasks|
    ensures Barred(c, AdminStep(c, w, s), t)
  {
  }

  lemma WriteBars(c: Config, w: World, s: Step, t: nat)
    requires c.admin.Some? && Barred(c, w, t) && s.Write? && s.task < |w.tasks|
    ensures Barred(c, WriteStep(w, s.task, s.verdict), t)
  {
  }

  lemma StartBars(c: Config, w: World, s: Step, t: nat)
    requires c.admin.Some? && Barred(c, w, t) && (s.Send? || ReadKind(s))
    ensures Barred(c, Next(c, w, s), t)
  {
  }

  lemma NextBars(c: Config, w: World, s: Step, t: nat)
    requires c.admin.Some? && GateOk(c, w) && Barred(c, w, t)
    ensures Barred(c, Next(c, w, s), t)
  {
    if s.Send? || ReadKind(s) {
      StartBars(c, w, s, t);
    } else if OutsideKind(s) {
      OutsideBars(c, w, s, t);
    } else if s.task < |w.tasks| {
      if s.Write? {
        WriteBars(c, w, s, t);
      } else if EngineKind(s) {
        EngineBars(c, w, s, t);
      } else if AdminKind(s) {
        AdminBars(c, w, s, t);
      } else {
        SetupBars(c, w, s, t);
      }
    }
  }

  lemma {:induction false} PlayBars(c: Config, w: World, steps: seq<Step>, t: nat)
    requires c.admin.Some? && GateOk(c, w) && Barred(c, w, t)
    ensures Barred(c, Play(c, w, steps), t)
    decreases |steps|
  {
    if steps != [] {
      NextGateOk(c, w, steps[0]);
      NextBars(c, w, steps[0], t);
      PlayBars(c, Next(c, w, steps[0]), steps[1..], t);
    }
  }

  lemma PlayTwo(c: Config, w: World, s: Step, s': Step, rest: seq<Step>)
    ensures Play(c, w, [s, s'] + rest) == Play(c, Next(c, Next(c, w, s), s'), rest)
  {
    assert ([s, s'] + rest)[1..] == [s'] + rest;
    assert ([s'] + rest)[1..] == rest;
  }

  /** Submitting the configuration of a fresh account and having it applied. */
  lemma ConfigurationLands(c: Config, w: World, t: nat) returns (e: Envelope, w': World)
    requires c.admin.Some? && GateOk(c, w) && t < |w.tasks| && w.tasks[t].HvConfigure?
    requires Configurable(c, w.ledger, w.tasks[t].input.source)
    ensures w' == Next(c, Next(c, w, SubmitConfig(t)), Land(e, true))
    ensures |w'.tasks| == |w.tasks| && w'.tasks[t] == HvConfirm(w.tasks[t].input, e.tx)
    ensures w'.ledger.Succeeded(e.tx) && w.tasks[t].input.source in w'.ledger.accounts && w'.rows == w.rows
  {
    var i, a := w.tasks[t].input, c.admin.value;
    var tx := BuildTx(w.ledger, i.source, ConfigureOps(a), None, DEFAULT_TIMEOUT);
    e := Envelope(tx, {i.source});
    ConfigureWorks(i.source, a, tx.seqNum, tx.maxTime);
    w' := Next(c, Next(c, w, SubmitConfig(t)), Land(e, true));
    assert w'.ledger.applied[|w.ledger.applied|] == Entry(e, true);
  }

  lemma ConfirmedMarks(c: Config, w: World, t: nat)
    requires c.admin.Some? && t < |w.tasks| && w.tasks[t].HvConfirm? && w.ledger.Succeeded(w.tasks[t].tx)
    ensures var i := w.tasks[t].input;
            Next(c, Next(c, w, ConfigReturn(t)), Mark(t)) == SetTask(w, t, HvBuild(i)).(flagged := w.flagged + {i.source})
  {
    var w1 := Next(c, w, ConfigReturn(t));
    assert w1 == SetTask(w, t, HvMark(w.tasks[t].input));
    assert w1.tasks[t := HvBuild(w.tasks[t].input)] == w.tasks[t := HvBuild(w.tasks[t].input)];
  }

  /** The envelope a high-value send stores, from the ledger as it is. */
  function HighValueEnvelope(l: Ledger, i: Input): Envelope
    requires i.source in l.accounts
  {
    Envelope(BuildTx(l, i.source, HighValueOps(i.destination, i.amount), i.memo, DEFAULT_TIMEOUT), {i.source})
  }

  lemma BuiltStores(c: Config, w: World, t: nat)
    requires c.admin.Some? && t < |w.tasks| && w.tasks[t].HvBuild? && w.tasks[t].input.source in w.ledger.accounts
    ensures var i, w' := w.tasks[t].input, Next(c, Next(c, w, Build(t)), Insert(t));
            && |w'.tasks| == |w.tasks| && w'.tasks[t].Returned? && w'.ledger == w.ledger
            && (FindKey(w.rows, i.key).None? ==>
                  w'.rows == w.rows + [Row(i.key, i.source, Some(HighValueEnvelope(w.ledger, i)), PENDING_SIGNATURE)])
  {
    var i := w.tasks[t].input;
    var w1 := Next(c, w, Build(t));
    assert w1 == SetTask(w, t, HvInsert(i, HighValueEnvelope(w.ledger, i)));
  }

  /** From there on nothing can go wrong any more but a crash. */
  lemma ConfirmedStores(c: Config, w: World, t: nat)
    requires c.admin.Some? && t < |w.tasks| && w.tasks[t].HvConfirm? && w.ledger.Succeeded(w.tasks[t].tx)
    requires w.tasks[t].input.source in w.ledger.accounts
    ensures var i, w' := w.tasks[t].input, Play(c, w, [ConfigReturn(t), Mark(t)] + ([Build(t), Insert(t)] + []));
            && |w'.tasks| == |w.tasks| && w'.tasks[t].Returned? && w'.ledger == w.ledger
            && (FindKey(w.rows, i.key).None? ==>
                  w'.rows == w.rows + [Row(i.key, i.source, Some(HighValueEnvelope(w.ledger, i)), PENDING_SIGNATURE)])
  {
    ConfirmedMarks(c, w, t);
    var w2 := SetTask(w, t, HvBuild(w.tasks[t].input)).(flagged := w.flagged + {w.tasks[t].input.source});
    BuiltStores(c, w2, t);
    PlayTwo(c, w2, Build(t), Insert(t), []);
    PlayTwo(c, w, ConfigReturn(t), Mark(t), [Build(t), Insert(t)] + []);
  }

  lemma ConfiguringGoesThrough(c: Config, w: World, t: nat) returns (steps: seq<Step>)
    requires c.admin.Some? && GateOk(c, w) && t < |w.tasks| && w.tasks[t].HvConfigure?
    requires Configurable(c, w.ledger, w.tasks[t].input.source)
    ensures |Play(c, w, steps).tasks| == |w.tasks| && Play(c, w, steps).tasks[t].Returned?
  {
    var e, w' := ConfigurationLands(c, w, t);
    var rest := [ConfigReturn(t), Mark(t)] + ([Build(t), Insert(t)] + []);
    ConfirmedStores(c, w', t);
    PlayTwo(c, w, SubmitConfig(t), Land(e, true), rest);
    steps := [SubmitConfig(t), Land(e, true)] + rest;
  }

  ghost predicate ReturnsAfter(c: Config, w: World, more: seq<Step>, t: nat) {
    t < |Play(c, w, more).tasks| && Play(c, w, more).tasks[t].Returned?
  }

  /**
   A high-value send that found no flag and sets out to configure its account can ever return a row
   exactly if the account exists and is not configured yet. So once an account is configured but its
   flag was lost, no such send of it can succeed any more.
   */
  lemma ConfiguringReturnsExactly(c: Config, w0: World, steps: seq<Step>, t: nat)
    requires Start(w0) && c.admin.Some?
    requires t < |Play(c, w0, steps).tasks| && Play(c, w0, steps).tasks[t].HvConfigure?
    ensures var w := Play(c, w0, steps);
            (exists more :: ReturnsAfter(c, w, more, t)) <==> Configurable(c, w.ledger, w.tasks[t].input.source)
  {
    PlayGateOk(c, w0, steps);
    var w := Play(c, w0, steps);
    if !Configurable(c, w.ledger, w.tasks[t].input.source) {
      forall more ensures !ReturnsAfter(c, w, more, t) {
        PlayBars(c, w, more, t);
      }
    } else {
      var more := ConfiguringGoesThrough(c, w, t);
      assert ReturnsAfter(c, w, more, t);
    }
  }
}
