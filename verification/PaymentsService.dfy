/**
 The payments service over the `transactions` table and the ledger. Sends, approvals, rejections,
 reconciliations and stream matches are tasks whose atomic segments interleave with each other, with
 late or lost submissions and with crashes. The partially signed envelopes kept in the table may also
 be submitted by anybody at any time.
 */
module PaymentsService {
  import opened Option
  import opened StellarLedger
  import opened Multisig

  datatype Status = PENDING | PENDING_SIGNATURE | SUCCESS | FAILED | NEEDS_REVIEW

  /** `admin` is the admin signing key, when one is configured; amounts are in stroops. */
  datatype Config = Config(admin: Option<Key>, threshold: nat, attempts: nat)

  datatype Input = Input(
    key: string, source: Key, destination: Key, amount: nat, memo: Option<string>,
    assetCode: Option<string>, assetIssuer: Option<Key>, receiveCode: Option<string>, receiveIssuer: Option<Key>)

  datatype Row = Row(key: string, source: Key, envelope: Option<Envelope>, status: Status)

  datatype Task =
    | Inserted(row: nat, input: Input)               // the PENDING row exists, the engine has not been called
    | Engine(row: nat, input: Input, past: seq<Tx>)  // about to load and submit; `past` ended in tx_bad_seq
    | EngineSent(row: nat, input: Input, past: seq<Tx>, tx: Tx)
    | EngineDone(row: nat, input: Input, ok: bool)   // about to write its outcome
    | HvLook(input: Input)                           // high-value: about to look the key up
    | HvConfigure(input: Input)
    | HvConfirm(input: Input, tx: Tx)                // multisig configuration submitted
    | HvMark(input: Input)
    | HvBuild(input: Input)
    | HvInsert(input: Input, envelope: Envelope)
    | Approving(row: nat, envelope: Envelope)
    | CoSigned(row: nat, tx: Tx)                     // submitted with both signatures
    | ApproveWrite(row: nat, ok: bool)
    | Rejecting(row: nat)
    | Reconciling(row: nat)
    | Matching(row: nat)
    | Returned(key: string, row: nat)
    | Ended

  /**
   `flagged` are the accounts whose multisig flag is set in the database. The rest is history:
   `stored` the transaction a row was created with, `sent` the ones the engine or the path submission
   has built for a row, `engineCalls` the keys for which either was called, and `approvals` the rows on
   which `approvePendingSignature` ran.
   */
  datatype World = World(
    rows: seq<Row>, flagged: set<Key>, tasks: seq<Task>, ledger: Ledger, network: set<Envelope>,
    stored: map<nat, Tx>, sent: map<nat, seq<Tx>>, engineCalls: seq<string>, approvals: set<nat>)

  /** What an attempt of the engine is answered; `Failure` is any other error or a lost response. */
  datatype Reply = Applied | BadSequence | Failure

  datatype Step =
    | Send(input: Input)
    | CallEngine(task: nat)
    | EngineSubmit(task: nat, sendAmount: nat, destAmount: nat)
    | EngineReply(task: nat, reply: Reply)
    | Look(task: nat, sawFlag: bool)
    | SubmitConfig(task: nat)
    | ConfigReturn(task: nat)
    | Mark(task: nat)
    | Build(task: nat)
    | Insert(task: nat)
    | Approve(row: nat)
    | CoSign(task: nat)
    | CoSignReply(task: nat, ok: bool)
    | Reject(row: nat)
    | Reconcile(row: nat)
    | Match(row: nat)
    | Write(task: nat, verdict: Status)
    | Leak(row: nat)
    | Land(envelope: Envelope, succeeded: bool)
    | Pass(seconds: nat)
    | Crash(task: nat)

  predicate EngineKind(s: Step) { s.CallEngine? || s.EngineSubmit? || s.EngineReply? }

  /** The segments of a high-value send. */
  predicate SetupKind(s: Step) { s.Look? || s.SubmitConfig? || s.ConfigReturn? || s.Mark? || s.Build? || s.Insert? }

  predicate AdminKind(s: Step) { s.CoSign? || s.CoSignReply? }

  predicate ReadKind(s: Step) { s.Approve? || s.Reject? || s.Reconcile? || s.Match? }

  predicate OutsideKind(s: Step) { s.Leak? || s.Land? || s.Pass? || s.Crash? }

  // ---------- the gate ----------

  /** The request schema: codes and issuers come in pairs. */
  predicate SchemaValid(i: Input) {
    (i.assetCode.Some? <==> i.assetIssuer.Some?) && (i.receiveCode.Some? <==> i.receiveIssuer.Some?)
  }

  predicate IsPath(i: Input) { i.receiveCode.Some? && i.receiveIssuer.Some? }

  predicate IsHighValue(c: Config, i: Input) {
    c.admin.Some? && !IsPath(i) && i.assetCode.None? && i.amount > c.threshold
  }

  function AssetOf(code: Option<string>, issuer: Option<Key>): Asset {
    if code.Some? && issuer.Some? then Credit(code.value, issuer.value) else Native
  }

  /** The operation an ordinary send submits; the amounts of a path payment come from its quote. */
  function OrdinaryOp(i: Input, sendAmount: nat, destAmount: nat): Op {
    if IsPath(i) then
      PathPayment(i.destination, AssetOf(i.assetCode, i.assetIssuer), AssetOf(i.receiveCode, i.receiveIssuer), sendAmount, destAmount)
    else Payment(i.destination, AssetOf(i.assetCode, i.assetIssuer), i.amount)
  }

  // ---------- what a send asks for ----------

  /** The asset that a code and an issuer name together; without both it is the native one. */
  predicate Names(code: Option<string>, issuer: Option<Key>, asset: Asset) {
    match asset
    case Native => code.None? || issuer.None?
    case Credit(c, k) => code == Some(c) && issuer == Some(k)
  }

  /**
   The operation pays the recipient what an ordinary send asks for: its amount in its asset, or, if it has
   a receive asset, at most `sendAmount` of the one for at least `destAmount` of the other.
   */
  predicate CarriesOut(op: Op, i: Input, sendAmount: nat, destAmount: nat) {
    match op
    case Payment(destination, asset, amount) =>
      && (i.receiveCode.None? || i.receiveIssuer.None?)
      && destination == i.destination && amount == i.amount && Names(i.assetCode, i.assetIssuer, asset)
    case PathPayment(destination, send, receive, sent, received) =>
      && i.receiveCode.Some? && i.receiveIssuer.Some? && receive == Credit(i.receiveCode.value, i.receiveIssuer.value)
      && destination == i.destination && sent == sendAmount && received == destAmount
      && Names(i.assetCode, i.assetIssuer, send)
    case SetOptions(_, _, _, _, _) => false
  }

  /** The two operations of a high-value send: its payment, and the master weight set to what it is. */
  predicate CarriesOutHighValue(ops: seq<Op>, i: Input) {
    |ops| == 2 && ops[0] == Payment(i.destination, Native, i.amount) && ops[1] == SetOptions(None, Some(1), None, None, None)
  }

  /** Built for the send from ledger `l`, with the next number and a window of thirty seconds, and signed by its account alone. */
  predicate BuiltFor(l: Ledger, i: Input, e: Envelope) {
    && i.source in l.accounts && e.signers == {i.source} && e.tx.source == i.source && CarriesMemo(e.tx, i.memo)
    && e.tx.seqNum == l.accounts[i.source].seqNum + 1 && e.tx.maxTime == l.closeTime + 30
  }

  predicate PaysAsAsked(l: Ledger, i: Input, sendAmount: nat, destAmount: nat, e: Envelope) {
    BuiltFor(l, i, e) && |e.tx.ops| == 1 && CarriesOut(e.tx.ops[0], i, sendAmount, destAmount)
  }

  predicate WaitsAsAsked(l: Ledger, i: Input, e: Envelope) {
    BuiltFor(l, i, e) && CarriesOutHighValue(e.tx.ops, i)
  }

  // ---------- the gate, exactly ----------

  /** A plain native payment above the threshold. */
  predicate Gated(c: Config, op: Op) { op.Payment? && op.asset == Native && op.amount > c.threshold }

  /**
   The gate reads the asset code alone while the operation needs code and issuer, so a native
   payment above the threshold slips past it exactly when a code comes without an issuer. The schema
   refuses that input.
   */
  lemma GateIsExact(c: Config, i: Input, sendAmount: nat, destAmount: nat)
    requires c.admin.Some?
    ensures Gated(c, OrdinaryOp(i, sendAmount, destAmount)) && !IsHighValue(c, i) <==>
            !IsPath(i) && i.amount > c.threshold && i.assetCode.Some? && i.assetIssuer.None?
    ensures SchemaValid(i) ==> (Gated(c, OrdinaryOp(i, sendAmount, destAmount)) <==> IsHighValue(c, i))
  {
  }

  // ---------- the steps ----------

  function FindKey(rows: seq<Row>, key: string): (r: Option<nat>)
    ensures r.Some? ==> r.value < |rows| && rows[r.value].key == key
    ensures r.None? ==> forall k :: 0 <= k < |rows| ==> rows[k].key != key
  {
    if rows == [] then None
    else if rows[|rows| - 1].key == key then Some(|rows| - 1)
    else FindKey(rows[..|rows| - 1], key)
  }

  function SetTask(w: World, t: nat, task: Task): World
    requires t < |w.tasks|
  {
    w.(tasks := w.tasks[t := task])
  }

  function Spawn(w: World, task: Task): World { w.(tasks := w.tasks + [task]) }

  function SetRow(w: World, r: nat, status: Status, clear: bool): World
    requires r < |w.rows|
  {
    w.(rows := w.rows[r := w.rows[r].(status := status, envelope := if clear then None else w.rows[r].envelope)])
  }

  function SendStep(c: Config, w: World, i: Input): World {
    if !SchemaValid(i) || Some(i.source) == c.admin then w    // refused input; customers have their own keys
    else if IsHighValue(c, i) then Spawn(w, HvLook(i))
    else
      var existing := FindKey(w.rows, i.key);
      if existing.Some? then Spawn(w, Returned(i.key, existing.value))
      else Spawn(w.(rows := w.rows + [Row(i.key, i.source, None, PENDING)]), Inserted(|w.rows|, i))
  }

  /** How often an ordinary send may submit: a path payment is submitted once. */
  function Attempts(c: Config, i: Input): nat { if IsPath(i) || c.attempts == 0 then 1 else c.attempts }

  function SentFor(w: World, r: nat): seq<Tx> { if r in w.sent then w.sent[r] else [] }

  /** The answer says what the ledger says, unless it is an error or lost. */
  predicate Answers(l: Ledger, tx: Tx, reply: Reply) {
    match reply
    case Applied => l.Succeeded(tx)
    case BadSequence => InTime(l, tx) && !l.Has(tx) && !NextInLine(l, tx)
    case Failure => true
  }

  function EngineStep(c: Config, w: World, s: Step): World
    requires EngineKind(s) && s.task < |w.tasks|
  {
    match (s, w.tasks[s.task])
    case (CallEngine(t), Inserted(r, i)) => SetTask(w, t, Engine(r, i, [])).(engineCalls := w.engineCalls + [i.key])
    case (EngineSubmit(t, sendAmount, destAmount), Engine(r, i, past)) =>
      if i.source !in w.ledger.accounts then w
      else
        var tx := BuildTx(w.ledger, i.source, [OrdinaryOp(i, sendAmount, destAmount)], i.memo, DEFAULT_TIMEOUT);
        SetTask(w, t, EngineSent(r, i, past, tx)).(
          network := w.network + {Envelope(tx, {i.source})}, sent := w.sent[r := SentFor(w, r) + [tx]])
    case (EngineReply(t, reply), Engine(r, i, _)) => if reply.Failure? then SetTask(w, t, EngineDone(r, i, false)) else w
    case (EngineReply(t, reply), EngineSent(r, i, past, tx)) =>
      if !Answers(w.ledger, tx, reply) then w
      else if reply.BadSequence? && |past| + 1 < Attempts(c, i) then SetTask(w, t, Engine(r, i, past + [tx]))
      else SetTask(w, t, EngineDone(r, i, reply.Applied?))
    case _ => w
  }

  function SetupStep(c: Config, w: World, s: Step): World
    requires SetupKind(s) && s.task < |w.tasks|
    requires c.admin.Some?
  {
    match (s, w.tasks[s.task])
    case (Look(t, sawFlag), HvLook(i)) =>
      var existing := FindKey(w.rows, i.key);
      if existing.Some? then SetTask(w, t, Returned(i.key, existing.value))
      else if sawFlag && i.source in w.flagged then SetTask(w, t, HvBuild(i))
      else SetTask(w, t, HvConfigure(i))
    case (SubmitConfig(t), HvConfigure(i)) =>
      if i.source !in w.ledger.accounts then w
      else
        var tx := BuildTx(w.ledger, i.source, ConfigureOps(c.admin.value), None, DEFAULT_TIMEOUT);
        SetTask(w, t, HvConfirm(i, tx)).(network := w.network + {Envelope(tx, {i.source})})
    case (ConfigReturn(t), HvConfirm(i, tx)) => if w.ledger.Succeeded(tx) then SetTask(w, t, HvMark(i)) else w
    case (Mark(t), HvMark(i)) => SetTask(w, t, HvBuild(i)).(flagged := w.flagged + {i.source})
    case (Build(t), HvBuild(i)) =>
      if i.source !in w.ledger.accounts then w
      else
        var tx := BuildTx(w.ledger, i.source, HighValueOps(i.destination, i.amount), i.memo, DEFAULT_TIMEOUT);
        SetTask(w, t, HvInsert(i, Envelope(tx, {i.source})))
    case (Insert(t), HvInsert(i, e)) =>
      var raced := FindKey(w.rows, i.key);
      if raced.Some? then SetTask(w, t, Returned(i.key, raced.value))
      else
        SetTask(w, t, Returned(i.key, |w.rows|)).(
          rows := w.rows + [Row(i.key, i.source, Some(e), PENDING_SIGNATURE)], stored := w.stored[|w.rows| := e.tx])
    case _ => w
  }

  /** The start of an admin action, a reconciliation or a stream match: it reads the row once. */
  function ReadStep(w: World, s: Step): World
    requires ReadKind(s)
  {
    if s.row >= |w.rows| then w
    else
      var row := w.rows[s.row];
      if s.Approve? then
        if row.status == PENDING_SIGNATURE && row.envelope.Some?
        then Spawn(w, Approving(s.row, row.envelope.value)).(approvals := w.approvals + {s.row})
        else w
      else if s.Reject? then
        if row.status == PENDING_SIGNATURE && row.envelope.Some? then Spawn(w, Rejecting(s.row)) else w
      else if row.status == PENDING then Spawn(w, if s.Reconcile? then Reconciling(s.row) else Matching(s.row))
      else w
  }

  function WithAdmin(c: Config, e: Envelope): Envelope
    requires c.admin.Some?
  {
    Envelope(e.tx, e.signers + {c.admin.value})
  }

  /** Co-signing and submitting, and the answer: a success only if the ledger has it. */
  function AdminStep(c: Config, w: World, s: Step): World
    requires AdminKind(s) && s.task < |w.tasks| && c.admin.Some?
  {
    match (s, w.tasks[s.task])
    case (CoSign(t), Approving(r, e)) => SetTask(w, t, CoSigned(r, e.tx)).(network := w.network + {WithAdmin(c, e)})
    case (CoSignReply(t, ok), Approving(r, _)) => if ok then w else SetTask(w, t, ApproveWrite(r, false))
    case (CoSignReply(t, ok), CoSigned(r, tx)) =>
      if ok && !w.ledger.Succeeded(tx) then w else SetTask(w, t, ApproveWrite(r, ok))
    case _ => w
  }

  function WriteStep(w: World, t: nat, verdict: Status): World
    requires t < |w.tasks|
  {
    match w.tasks[t]
    case EngineDone(r, i, ok) =>
      if r >= |w.rows| then w
      else SetTask(SetRow(w, r, if ok then SUCCESS else FAILED, false), t, if ok then Returned(i.key, r) else Ended)
    case ApproveWrite(r, ok) =>
      if r >= |w.rows| then w else SetTask(SetRow(w, r, if ok then SUCCESS else FAILED, true), t, Ended)
    case Rejecting(r) => if r >= |w.rows| then w else SetTask(SetRow(w, r, FAILED, true), t, Ended)
    case Reconciling(r) =>
      if r >= |w.rows| || verdict !in {SUCCESS, FAILED, NEEDS_REVIEW} then w
      else SetTask(SetRow(w, r, verdict, false), t, Ended)
    case Matching(r) => if r >= |w.rows| then w else SetTask(SetRow(w, r, SUCCESS, false), t, Ended)
    case _ => w
  }

  /** Stored envelopes leak, envelopes on the network land, time passes, a call crashes. */
  function OutsideStep(w: World, s: Step): World
    requires OutsideKind(s)
  {
    match s
    case Leak(r) =>
      if r < |w.rows| && w.rows[r].envelope.Some? then w.(network := w.network + {w.rows[r].envelope.value}) else w
    case Land(e, succeeded) => if e in w.network then w.(ledger := Apply(w.ledger, e, succeeded)) else w
    case Pass(seconds) => w.(ledger := Tick(w.ledger, seconds))
    case Crash(t) => if t < |w.tasks| then SetTask(w, t, Ended) else w
  }

  /** One atomic segment of one task, or one move of the environment; a disabled step does nothing. */
  function Next(c: Config, w: World, s: Step): World {
    if s.Send? then SendStep(c, w, s.input)
    else if ReadKind(s) then ReadStep(w, s)
    else if OutsideKind(s) then OutsideStep(w, s)
    else if s.task >= |w.tasks| then w
    else if s.Write? then WriteStep(w, s.task, s.verdict)
    else if EngineKind(s) then EngineStep(c, w, s)
    else if c.admin.None? then w
    else if AdminKind(s) then AdminStep(c, w, s)
    else SetupStep(c, w, s)
  }

  lemma WriteTouches(w: World, t: nat, verdict: Status)
    requires t < |w.tasks|
    ensures var w' := WriteStep(w, t, verdict);
            && w' == w.(rows := w'.rows, tasks := w'.tasks) && |w'.tasks| == |w.tasks|
            && (w'.tasks[t] == w.tasks[t] || w'.tasks[t].Returned? || w'.tasks[t].Ended?)
            && (forall s :: 0 <= s < |w.tasks| && s != t ==> w'.tasks[s] == w.tasks[s])
            && |w'.rows| == |w.rows|
            && forall r :: 0 <= r < |w.rows| ==> w'.rows[r].envelope == w.rows[r].envelope || w'.rows[r].envelope.None?
  {
  }

  function Play(c: Config, w: World, steps: seq<Step>): World
    decreases |steps|
  {
    if steps == [] then w else Play(c, Next(c, w, steps[0]), steps[1..])
  }

  ghost predicate Start(w: World) {
    && w.rows == [] && w.flagged == {} && w.tasks == [] && w.network == {}
    && w.stored == map[] && w.sent == map[] && w.engineCalls == [] && w.approvals == {}
    && w.ledger.applied == [] && (forall k :: k in w.ledger.accounts ==> w.ledger.accounts[k].options == FRESH)
  }

  // ---------- idempotency ----------

  ghost predicate TaskKeyOk(w: World, task: Task) {
    match task
    case Inserted(r, i) => r < |w.rows| && w.rows[r].key == i.key && i.key !in w.engineCalls
    case Engine(r, i, _) => r < |w.rows| && w.rows[r].key == i.key
    case EngineSent(r, i, _, _) => r < |w.rows| && w.rows[r].key == i.key
    case EngineDone(r, i, _) => r < |w.rows| && w.rows[r].key == i.key
    case Returned(key, r) => r < |w.rows| && w.rows[r].key == key
    case _ => true
  }

  ghost predicate RowsApart(rows: seq<Row>) {
    forall r, q :: 0 <= r < q < |rows| ==> rows[r].key != rows[q].key
  }

  ghost predicate CallsOk(rows: seq<Row>, calls: seq<string>) {
    && (forall m, n :: 0 <= m < n < |calls| ==> calls[m] != calls[n])
    && (forall m :: 0 <= m < |calls| ==> FindKey(rows, calls[m]).Some?)
  }

  ghost predicate InsertedApart(tasks: seq<Task>) {
    forall s, t :: 0 <= s < t < |tasks| && tasks[s].Inserted? && tasks[t].Inserted? ==> tasks[s].row != tasks[t].row
  }

  ghost predicate KeysOk(w: World) {
    && RowsApart(w.rows) && CallsOk(w.rows, w.engineCalls) && InsertedApart(w.tasks)
    && forall t :: 0 <= t < |w.tasks| ==> TaskKeyOk(w, w.tasks[t])
  }

  /** Looking a key up depends only on the keys, and finds what is there. */
  lemma FindKeyFinds(rows: seq<Row>, r: nat)
    requires r < |rows|
    ensures FindKey(rows, rows[r].key).Some?
  {
  }

  /** Rows are only ever added, and keep their keys. */
  ghost predicate RowsGrow(w: World, w': World) {
    |w.rows| <= |w'.rows| && forall r :: 0 <= r < |w.rows| ==> w'.rows[r].key == w.rows[r].key
  }

  lemma CallsStayOk(rows: seq<Row>, rows': seq<Row>, calls: seq<string>)
    requires CallsOk(rows, calls)
    requires |rows| <= |rows'| && forall r :: 0 <= r < |rows| ==> rows'[r].key == rows[r].key
    ensures CallsOk(rows', calls)
  {
    forall m | 0 <= m < |calls| ensures FindKey(rows', calls[m]).Some? {
      FindKeyFinds(rows', FindKey(rows, calls[m]).value);
    }
  }

  lemma FewStepsTouchRows(c: Config, w: World, s: Step)
    requires !s.Send? && !s.Insert? && !s.Write?
    ensures Next(c, w, s).rows == w.rows
  {
  }

  lemma NextRowsGrow(c: Config, w: World, s: Step)
    ensures RowsGrow(w, Next(c, w, s))
  {
    if !s.Send? && !s.Insert? && !s.Write? {
      FewStepsTouchRows(c, w, s);
    }
  }

  ghost predicate MovedKeysOk(w: World, w': World) {
    && w'.engineCalls == w.engineCalls
    && forall t :: 0 <= t < |w'.tasks| ==>
                     || (t < |w.tasks| && w'.tasks[t] == w.tasks[t])
                     || (TaskKeyOk(w', w'.tasks[t]) && !w'.tasks[t].Inserted?)
  }

  /** A step that calls no engine and inserts no ordinary row only has to account for what it moved. */
  lemma KeysFrame(w: World, w': World)
    requires KeysOk(w) && RowsGrow(w, w') && RowsApart(w'.rows)
    requires MovedKeysOk(w, w')
    ensures KeysOk(w')
  {
    CallsStayOk(w.rows, w'.rows, w.engineCalls);
    forall t | 0 <= t < |w'.tasks| ensures TaskKeyOk(w', w'.tasks[t]) {
      if t < |w.tasks| {
        assert TaskKeyOk(w, w.tasks[t]);
      }
    }
  }

  lemma CallEngineKeysOk(c: Config, w: World, t: nat)
    requires KeysOk(w) && t < |w.tasks|
    ensures KeysOk(EngineStep(c, w, CallEngine(t)))
  {
    if w.tasks[t].Inserted? {
      var w' := EngineStep(c, w, CallEngine(t));
      assert TaskKeyOk(w, w.tasks[t]);
      FindKeyFinds(w.rows, w.tasks[t].row);
      forall s | 0 <= s < |w'.tasks| ensures TaskKeyOk(w', w'.tasks[s]) {
        assert TaskKeyOk(w, w.tasks[s]);
      }
    }
  }

  lemma NewKeyIsUncalled(rows: seq<Row>, calls: seq<string>, key: string)
    requires CallsOk(rows, calls) && FindKey(rows, key).None?
    ensures key !in calls
  {
    forall m | 0 <= m < |calls| ensures calls[m] != key {
      assert FindKey(rows, calls[m]).Some?;
    }
  }

  /** A row with a new key, and the call that works on it. */
  lemma InsertKeysOk(w: World, i: Input)
    requires KeysOk(w) && FindKey(w.rows, i.key).None?
    ensures KeysOk(Spawn(w.(rows := w.rows + [Row(i.key, i.source, None, PENDING)]), Inserted(|w.rows|, i)))
  {
    var w' := Spawn(w.(rows := w.rows + [Row(i.key, i.source, None, PENDING)]), Inserted(|w.rows|, i));
    NewKeyIsUncalled(w.rows, w.engineCalls, i.key);
    CallsStayOk(w.rows, w'.rows, w.engineCalls);
    forall t | 0 <= t < |w.tasks| ensures TaskKeyOk(w', w.tasks[t]) && (w.tasks[t].Inserted? ==> w.tasks[t].row < |w.rows|) {
      assert TaskKeyOk(w, w.tasks[t]);
    }
  }

  lemma SendKeysOk(c: Config, w: World, i: Input)
    requires KeysOk(w)
    ensures KeysOk(SendStep(c, w, i))
  {
    var w' := SendStep(c, w, i);
    if |w'.rows| > |w.rows| {
      InsertKeysOk(w, i);
    } else {
      KeysFrame(w, w');
    }
  }

  lemma NextKeysOk(c: Config, w: World, s: Step)
    requires KeysOk(w)
    ensures KeysOk(Next(c, w, s))
  {
    if s.Send? {
      SendKeysOk(c, w, s.input);
    } else if s.CallEngine? {
      if s.task < |w.tasks| {
        CallEngineKeysOk(c, w, s.task);
      }
    } else {
      NextRowsGrow(c, w, s);
      OtherTasksKeyOk(c, w, s);
      OtherRowsApart(c, w, s);
      KeysFrame(w, Next(c, w, s));
    }
  }

  lemma OtherRowsApart(c: Config, w: World, s: Step)
    requires KeysOk(w) && !s.Send?
    ensures RowsApart(Next(c, w, s).rows)
  {
    if !s.Insert? && !s.Write? {
      FewStepsTouchRows(c, w, s);
    }
  }

  lemma HighValueKeysOk(c: Config, w: World, s: Step)
    requires KeysOk(w) && c.admin.Some?
    requires SetupKind(s) && s.task < |w.tasks|
    ensures MovedKeysOk(w, SetupStep(c, w, s))
  {
  }

  lemma WriteKeysOk(w: World, t: nat, verdict: Status)
    requires KeysOk(w) && t < |w.tasks|
    ensures MovedKeysOk(w, WriteStep(w, t, verdict))
  {
    assert TaskKeyOk(w, w.tasks[t]);
  }

  lemma EngineKeysOk(c: Config, w: World, s: Step)
    requires KeysOk(w) && (s.EngineSubmit? || s.EngineReply?) && s.task < |w.tasks|
    ensures MovedKeysOk(w, EngineStep(c, w, s))
  {
    assert TaskKeyOk(w, w.tasks[s.task]);
  }

  lemma AdminKeysOk(c: Config, w: World, s: Step)
    requires AdminKind(s) && s.task < |w.tasks| && c.admin.Some?
    ensures MovedKeysOk(w, AdminStep(c, w, s))
  {
  }

  lemma ReadKeysOk(w: World, s: Step)
    requires ReadKind(s)
    ensures MovedKeysOk(w, ReadStep(w, s))
  {
  }

  lemma OutsideKeysOk(w: World, s: Step)
    requires OutsideKind(s)
    ensures MovedKeysOk(w, OutsideStep(w, s))
  {
  }

  lemma OtherTasksKeyOk(c: Config, w: World, s: Step)
    requires KeysOk(w) && !s.Send? && !s.CallEngine?
    ensures MovedKeysOk(w, Next(c, w, s))
  {
    if ReadKind(s) {
      ReadKeysOk(w, s);
    } else if OutsideKind(s) {
      OutsideKeysOk(w, s);
    } else if s.task < |w.tasks| {
      if s.Write? {
        WriteKeysOk(w, s.task, s.verdict);
      } else if EngineKind(s) {
        EngineKeysOk(c, w, s);
      } else if c.admin.Some? {
        if AdminKind(s) {
          AdminKeysOk(c, w, s);
        } else {
          HighValueKeysOk(c, w, s);
        }
      }
    }
  }

  lemma {:induction false} PlayKeysOk(c: Config, w: World, steps: seq<Step>)
    requires KeysOk(w)
    ensures KeysOk(Play(c, w, steps))
    decreases |steps|
  {
    if steps != [] {
      NextKeysOk(c, w, steps[0]);
      PlayKeysOk(c, Next(c, w, steps[0]), steps[1..]);
    }
  }

  /**
   Over any interleaving, with crashes and with ordinary and high-value sends under one key: a key has
   at most one row, the engine or a path submission is called at most once for it, and all sends that
   return for it return that row.
   */
  lemma IdempotencyKeySafety(c: Config, w0: World, steps: seq<Step>)
    requires Start(w0)
    ensures var w := Play(c, w0, steps);
            && (forall r, q :: 0 <= r < |w.rows| && 0 <= q < |w.rows| && w.rows[r].key == w.rows[q].key ==> r == q)
            && (forall m, n :: 0 <= m < |w.engineCalls| && 0 <= n < |w.engineCalls| && w.engineCalls[m] == w.engineCalls[n] ==> m == n)
            && (forall s, t :: 0 <= s < |w.tasks| && 0 <= t < |w.tasks| && w.tasks[s].Returned? && w.tasks[t].Returned?
                               && w.tasks[s].key == w.tasks[t].key ==>
                                 w.tasks[s].row == w.tasks[t].row < |w.rows| && w.rows[w.tasks[s].row].key == w.tasks[s].key)
  {
    PlayKeysOk(c, w0, steps);
    var w := Play(c, w0, steps);
    forall s, t | 0 <= s < |w.tasks| && 0 <= t < |w.tasks| && w.tasks[s].Returned? && w.tasks[t].Returned?
                  && w.tasks[s].key == w.tasks[t].key
      ensures w.tasks[s].row == w.tasks[t].row < |w.rows| && w.rows[w.tasks[s].row].key == w.tasks[s].key
    {
      assert TaskKeyOk(w, w.tasks[s]) && TaskKeyOk(w, w.tasks[t]);
    }
  }

  // ---------- envelope and status ----------

  predicate Open(s: Status) { s == PENDING || s == PENDING_SIGNATURE }

  /** Tasks that will write a status without clearing the envelope. */
  predicate Ordinary(task: Task) {
    task.Inserted? || task.Engine? || task.EngineSent? || task.EngineDone? || task.Reconciling? || task.Matching?
  }

  ghost predicate TaskStatusOk(w: World, task: Task) {
    Ordinary(task) ==> task.row < |w.rows| && w.rows[task.row].status != PENDING_SIGNATURE
  }

  ghost predicate StatusOk(w: World) {
    && (forall r :: 0 <= r < |w.rows| ==> (w.rows[r].envelope.Some? <==> w.rows[r].status == PENDING_SIGNATURE))
    && (forall t :: 0 <= t < |w.tasks| ==> TaskStatusOk(w, w.tasks[t]))
  }

  /** A row keeps its status or takes a closed one, and never regains an envelope. */
  ghost predicate RowsAdvance(w: World, w': World) {
    && |w.rows| <= |w'.rows|
    && forall r :: 0 <= r < |w.rows| ==>
                     && (w'.rows[r].status == w.rows[r].status || !Open(w'.rows[r].status))
                     && (w.rows[r].envelope.None? ==> w'.rows[r].envelope.None?)
  }

  lemma InsertRowsAdvance(c: Config, w: World, s: Step)
    requires s.Insert? && s.task < |w.tasks| && c.admin.Some?
    ensures RowsAdvance(w, SetupStep(c, w, s))
  {
  }

  lemma WriteRowsAdvance(w: World, t: nat, verdict: Status)
    requires t < |w.tasks|
    ensures RowsAdvance(w, WriteStep(w, t, verdict))
  {
  }

  lemma NextRowsAdvance(c: Config, w: World, s: Step)
    ensures RowsAdvance(w, Next(c, w, s))
  {
    if s.Insert? {
      if s.task < |w.tasks| && c.admin.Some? {
        InsertRowsAdvance(c, w, s);
      }
    } else if s.Write? {
      if s.task < |w.tasks| {
        WriteRowsAdvance(w, s.task, s.verdict);
      }
    } else if !s.Send? {
      FewStepsTouchRows(c, w, s);
    }
  }

  lemma RowsStatusOk(c: Config, w: World, s: Step)
    requires StatusOk(w)
    ensures var rows := Next(c, w, s).rows;
            forall r :: 0 <= r < |rows| ==> (rows[r].envelope.Some? <==> rows[r].status == PENDING_SIGNATURE)
  {
    if s.Write? && s.task < |w.tasks| {
      assert TaskStatusOk(w, w.tasks[s.task]);
    } else if !s.Send? && !s.Insert? && !s.Write? {
      FewStepsTouchRows(c, w, s);
    }
  }

  ghost predicate MovedOk(w: World, w': World) {
    forall t :: 0 <= t < |w'.tasks| ==> (t < |w.tasks| && w'.tasks[t] == w.tasks[t]) || TaskStatusOk(w', w'.tasks[t])
  }

  lemma EngineMovedOk(c: Config, w: World, s: Step)
    requires StatusOk(w) && EngineKind(s) && s.task < |w.tasks|
    ensures MovedOk(w, EngineStep(c, w, s))
  {
    assert TaskStatusOk(w, w.tasks[s.task]);
  }

  lemma HighValueMovedOk(c: Config, w: World, s: Step)
    requires StatusOk(w) && c.admin.Some?
    requires SetupKind(s) && s.task < |w.tasks|
    ensures MovedOk(w, SetupStep(c, w, s))
  {
  }

  lemma SendMovedOk(c: Config, w: World, i: Input)
    ensures MovedOk(w, SendStep(c, w, i))
  {
  }

  lemma ReadMovedOk(w: World, s: Step)
    requires ReadKind(s)
    ensures MovedOk(w, ReadStep(w, s))
  {
  }

  lemma OutsideMovedOk(w: World, s: Step)
    requires OutsideKind(s)
    ensures MovedOk(w, OutsideStep(w, s))
  {
  }

  lemma WriteMovedOk(w: World, t: nat, verdict: Status)
    requires t < |w.tasks|
    ensures MovedOk(w, WriteStep(w, t, verdict))
  {
  }

  lemma AdminMovedOk(c: Config, w: World, s: Step)
    requires AdminKind(s) && s.task < |w.tasks| && c.admin.Some?
    ensures MovedOk(w, AdminStep(c, w, s))
  {
  }

  lemma MovedTasksStatusOk(c: Config, w: World, s: Step)
    requires StatusOk(w)
    ensures MovedOk(w, Next(c, w, s))
  {
    if s.Send? {
      SendMovedOk(c, w, s.input);
    } else if ReadKind(s) {
      ReadMovedOk(w, s);
    } else if OutsideKind(s) {
      OutsideMovedOk(w, s);
    } else if s.task < |w.tasks| {
      if s.Write? {
        WriteMovedOk(w, s.task, s.verdict);
      } else if EngineKind(s) {
        EngineMovedOk(c, w, s);
      } else if c.admin.Some? {
        if AdminKind(s) {
          AdminMovedOk(c, w, s);
        } else {
          HighValueMovedOk(c, w, s);
        }
      }
    }
  }

  lemma NextStatusOk(c: Config, w: World, s: Step)
    requires StatusOk(w)
    ensures StatusOk(Next(c, w, s))
  {
    NextRowsAdvance(c, w, s);
    RowsStatusOk(c, w, s);
    MovedTasksStatusOk(c, w, s);
    StatusFrame(w, Next(c, w, s));
  }

  lemma StatusFrame(w: World, w': World)
    requires StatusOk(w) && RowsAdvance(w, w')
    requires forall r :: 0 <= r < |w'.rows| ==> (w'.rows[r].envelope.Some? <==> w'.rows[r].status == PENDING_SIGNATURE)
    requires MovedOk(w, w')
    ensures StatusOk(w')
  {
    forall t | 0 <= t < |w'.tasks| ensures TaskStatusOk(w', w'.tasks[t]) {
      if t < |w.tasks| {
        assert TaskStatusOk(w, w.tasks[t]);
      }
    }
  }

  lemma {:induction false} PlayStatusOk(c: Config, w: World, steps: seq<Step>)
    requires StatusOk(w)
    ensures StatusOk(Play(c, w, steps)) && RowsAdvance(w, Play(c, w, steps))
    decreases |steps|
  {
    if steps != [] {
      NextStatusOk(c, w, steps[0]);
      NextRowsAdvance(c, w, steps[0]);
      PlayStatusOk(c, Next(c, w, steps[0]), steps[1..]);
    }
  }

  /**
   In every reachable state a row holds an envelope exactly when it awaits a signature; and from any
   reachable state on, a row that left PENDING or PENDING_SIGNATURE never returns to either, nor does
   one of them turn into the other.
   */
  lemma EnvelopeExactlyWhilePending(c: Config, w0: World, steps: seq<Step>, more: seq<Step>, r: nat)
    requires Start(w0) && r < |Play(c, w0, steps).rows|
    ensures var w, w' := Play(c, w0, steps), Play(c, Play(c, w0, steps), more);
            && (w.rows[r].envelope.Some? <==> w.rows[r].status == PENDING_SIGNATURE)
            && r < |w'.rows|
            && (Open(w'.rows[r].status) ==> w'.rows[r].status == w.rows[r].status)
  {
    PlayStatusOk(c, w0, steps);
    PlayStatusOk(c, Play(c, w0, steps), more);
  }

  lemma PlayOne(c: Config, w: World, s: Step, rest: seq<Step>)
    ensures Play(c, w, [s] + rest) == Play(c, Next(c, w, s), rest)
  {
    assert ([s] + rest)[1..] == rest;
  }
}
