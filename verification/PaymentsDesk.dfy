/**
 The payments service in the source's own form: its calls, each run to completion, updating the
 transactions table, the account flags and the ledger in place. Every call logs the segments it goes
 through, so that the history of the desk is a run of `PaymentsService` and everything proved about
 runs holds of it; and a row's status is written at most once after its creation.
 */
module PaymentsDesk {
  import opened Option
  import opened StellarLedger
  import opened Multisig
  import Amounts
  import opened PaymentMatcher
  import opened PaymentsService
  import opened PaymentGate
  import opened Repositories
  import opened Sequences
  import Approval = PaymentApproval
  import Slippage

  /** Which side of a path payment is fixed by the amount asked for. */
  datatype Mode = StrictSend | StrictReceive

  /** The tolerances that the request schema lets through. */
  type Bps = n: nat | n <= 1000

  const DEFAULT_SLIPPAGE_BPS: Bps := 50

  /** `found` is the amount that Horizon's best path has on the other side. */
  datatype Quote = Quote(mode: Mode, found: nat, slippageBps: Option<Bps>)
  {
    function SourceAmount(asked: nat): nat { if mode.StrictSend? then asked else found }

    function DestAmount(asked: nat): nat { if mode.StrictSend? then found else asked }

    function Tolerance(): Bps { if slippageBps.Some? then slippageBps.value else DEFAULT_SLIPPAGE_BPS }

    function SendLimit(asked: nat): nat {
      if mode.StrictSend? then asked else Slippage.IncreaseByBps(found, Tolerance())
    }

    function DestLimit(asked: nat): nat {
      if mode.StrictSend? then Slippage.ReduceByBps(found, Tolerance()) else asked
    }
  }

  /**
   The fixed side is exactly what was asked for. On the other side the recipient gets no less than the quote
   minus the tolerance, to the nearest stroop, or the payer sends no more than the quote plus the
   tolerance, rounded up. Half a per cent is tolerated unless the request says otherwise.
   */
  predicate KeepsQuote(asked: nat, q: Quote, sent: nat, received: nat) {
    var bps: int := if q.slippageBps.Some? then q.slippageBps.value else 50;
    match q.mode
    case StrictSend =>
      sent == asked && -10_000 < 2 * (received * 10_000 - q.found * (10_000 - bps)) <= 10_000
    case StrictReceive =>
      received == asked && q.found * (10_000 + bps) <= sent * 10_000 < q.found * (10_000 + bps) + 10_000
  }

  lemma LimitsKeepQuote(asked: nat, q: Quote)
    ensures KeepsQuote(asked, q, q.SendLimit(asked), q.DestLimit(asked))
  {
    if q.mode.StrictSend? {
      Slippage.ReduceIsNearest(q.found, q.Tolerance(), q.DestLimit(asked));
    } else {
      var n := q.SendLimit(asked);
      Slippage.IncreaseIsLeast(q.found, q.Tolerance(), n);
      if n > 0 {
        Slippage.IncreaseIsLeast(q.found, q.Tolerance(), n - 1);
      }
    }
  }

  /** What becomes of one submission: whether it reaches the ledger, the verdict there, whether the answer arrives. */
  datatype Delivery = Delivery(reaches: bool, succeeded: bool, answered: bool)

  /** What a high-value send meets: the submission of the configuration, and building the envelope. */
  datatype Setup = Setup(configuration: Delivery, buildable: bool)

  // ---------- the segments of the calls ----------

  function LedgerAfter(l: Ledger, e: Envelope, d: Delivery): Ledger {
    if d.reaches then Apply(l, e, d.succeeded) else l
  }

  /** The submission is answered with success: Horizon answers with the recorded result. */
  predicate Answered(l: Ledger, e: Envelope, d: Delivery) {
    d.reaches && d.answered && LedgerAfter(l, e, d).Succeeded(e.tx)
  }

  function Landing(e: Envelope, d: Delivery): seq<Step> {
    if d.reaches then [Land(e, d.succeeded)] else []
  }

  function SendLimit(i: Input, q: Option<Quote>): nat { if q.Some? then q.value.SendLimit(i.amount) else 0 }

  function DestLimit(i: Input, q: Option<Quote>): nat { if q.Some? then q.value.DestLimit(i.amount) else 0 }

  function PaymentOf(l: Ledger, i: Input, q: Option<Quote>): Envelope
    requires i.source in l.accounts
  {
    Envelope(BuildTx(l, i.source, [OrdinaryOp(i, SendLimit(i, q), DestLimit(i, q))], i.memo, DEFAULT_TIMEOUT), {i.source})
  }

  predicate Pays(l: Ledger, i: Input, q: Option<Quote>, d: Delivery) {
    i.source in l.accounts && Answered(l, PaymentOf(l, i, q), d)
  }

  /** The ledger has one more entry: the payment that the send asks for, with success, within the quote of a path payment. */
  ghost predicate PaidAsAsked(l: Ledger, l': Ledger, i: Input, q: Option<Quote>) {
    && l'.applied != []
    && var last := l'.applied[|l'.applied| - 1];
       && l'.applied == l.applied + [last] && last.succeeded && |last.envelope.tx.ops| == 1
       && var op := last.envelope.tx.ops[0];
          if op.PathPayment? then
            && q.Some? && KeepsQuote(i.amount, q.value, op.sendAmount, op.destAmount)
            && PaysAsAsked(l, i, op.sendAmount, op.destAmount, last.envelope)
          else PaysAsAsked(l, i, 0, 0, last.envelope)
  }

  lemma SuccessIsPaid(l: Ledger, i: Input, q: Option<Quote>, d: Delivery)
    requires Sequenced(l) && Pays(l, i, q, d) && (IsPath(i) <==> q.Some?)
    ensures GoesThrough(d) && PaidAsAsked(l, LedgerAfter(l, PaymentOf(l, i, q), d), i, q)
  {
    var e := PaymentOf(l, i, q);
    NewNumberIsUnused(l, e.tx);
    VerdictIsNew(l, e, d.succeeded);
    assert LedgerAfter(l, e, d).applied == l.applied + [Entry(e, true)];
    if q.Some? {
      LimitsKeepQuote(i.amount, q.value);
    }
  }

  /** Delivered, applied and answered. */
  predicate GoesThrough(d: Delivery) { d.reaches && d.succeeded && d.answered }

  /** In every reachable state, an ordinary send from an account of the ledger pays when nothing goes wrong. */
  lemma GoingThroughPays(c: Config, w0: World, steps: seq<Step>, i: Input, q: Option<Quote>, d: Delivery)
    requires Start(w0) && Some(i.source) != c.admin && i.source in Play(c, w0, steps).ledger.accounts && GoesThrough(d)
    ensures Pays(Play(c, w0, steps).ledger, i, q, d)
  {
    var w := Play(c, w0, steps);
    var e := PaymentOf(w.ledger, i, q);
    Approval.Reachable(c, w0, steps);
    Approval.KnownOptions(c, w, i.source);
    Approval.OrdinaryAuthorised(c, w.ledger.accounts[i.source].options, e);
    assert Apply(w.ledger, e, true).applied[|w.ledger.applied|] == Entry(e, true);
  }

  /** What the engine's answer means, in every reachable state. */
  lemma EngineOutcome(c: Config, w0: World, steps: seq<Step>, i: Input, q: Option<Quote>, d: Delivery)
    requires Start(w0) && Some(i.source) != c.admin && (IsPath(i) <==> q.Some?)
    ensures var l := Play(c, w0, steps).ledger;
            && (Pays(l, i, q, d) ==>
                  PaidAsAsked(l, LedgerAfter(l, PaymentOf(l, i, q), d), i, q))
            && (Pays(l, i, q, d) <==> i.source in l.accounts && GoesThrough(d))
  {
    var l := Play(c, w0, steps).ledger;
    Approval.Reachable(c, w0, steps);
    if Pays(l, i, q, d) {
      SuccessIsPaid(l, i, q, d);
    }
    if i.source in l.accounts && GoesThrough(d) {
      GoingThroughPays(c, w0, steps, i, q, d);
    }
  }

  /** The engine or path submission of an ordinary send. */
  function SubmitSegments(l: Ledger, i: Input, q: Option<Quote>, d: Delivery, t: nat): seq<Step> {
    if i.source !in l.accounts then []
    else [EngineSubmit(t, SendLimit(i, q), DestLimit(i, q))] + Landing(PaymentOf(l, i, q), d)
  }

  function EngineSegments(l: Ledger, i: Input, q: Option<Quote>, d: Delivery, t: nat): seq<Step> {
    ([CallEngine(t)] + SubmitSegments(l, i, q, d, t))
    + ([EngineReply(t, if Pays(l, i, q, d) then Applied else Failure)] + [Write(t, if Pays(l, i, q, d) then SUCCESS else FAILED)])
  }

  function ConfigurationOf(c: Config, l: Ledger, source: Key): Envelope
    requires c.admin.Some? && source in l.accounts
  {
    Envelope(BuildTx(l, source, ConfigureOps(c.admin.value), None, DEFAULT_TIMEOUT), {source})
  }

  predicate Configures(c: Config, l: Ledger, source: Key, d: Delivery)
    requires c.admin.Some?
  {
    source in l.accounts && Answered(l, ConfigurationOf(c, l, source), d)
  }

  function ConfigureSegments(c: Config, l: Ledger, source: Key, d: Delivery, t: nat): seq<Step>
    requires c.admin.Some?
  {
    if source !in l.accounts then [Crash(t)]
    else
      var e := ConfigurationOf(c, l, source);
      [SubmitConfig(t)]
      + (Landing(e, d) + if Answered(l, e, d) then [ConfigReturn(t)] + [Mark(t)] else [Crash(t)])
  }

  function BuildSegments(l: Ledger, source: Key, s: Setup, t: nat): seq<Step> {
    if s.buildable && source in l.accounts then [Build(t)] + [Insert(t)] else [Crash(t)]
  }

  /** A high-value send after it has looked its key up. */
  function HighValueSegments(c: Config, w: World, i: Input, wallet: bool, s: Setup, t: nat): seq<Step>
    requires c.admin.Some?
  {
    if FindKey(w.rows, i.key).Some? then []
    else if !wallet then [Crash(t)]
    else if i.source in w.flagged then BuildSegments(w.ledger, i.source, s, t)
    else if !Configures(c, w.ledger, i.source, s.configuration) then ConfigureSegments(c, w.ledger, i.source, s.configuration, t)
    else
      var l := LedgerAfter(w.ledger, ConfigurationOf(c, w.ledger, i.source), s.configuration);
      ConfigureSegments(c, w.ledger, i.source, s.configuration, t) + BuildSegments(l, i.source, s, t)
  }

  /**
   A high-value send leaves a row if the wallet is there, the envelope can be built, and the account is
   known to be configured, or is not and the submission of its configuration goes through.
   */
  ghost predicate StoresRow(c: Config, w: World, i: Input, wallet: bool, s: Setup)
    requires c.admin.Some?
  {
    && wallet && s.buildable && i.source in w.ledger.accounts
    && (i.source in w.flagged || (Configurable(c, w.ledger, i.source) && GoesThrough(s.configuration)))
  }

  /** In every reachable state, configuring succeeds exactly for an account that is not configured, if nothing goes wrong. */
  lemma ConfigurationOutcome(c: Config, w0: World, steps: seq<Step>, source: Key, d: Delivery)
    requires Start(w0) && c.admin.Some? && Some(source) != c.admin
    ensures var l := Play(c, w0, steps).ledger;
            Configures(c, l, source, d) <==> Configurable(c, l, source) && GoesThrough(d)
  {
    Approval.Reachable(c, w0, steps);
    var l := Play(c, w0, steps).ledger;
    if source in l.accounts {
      var e := ConfigurationOf(c, l, source);
      NewNumberIsUnused(l, e.tx);
      VerdictIsNew(l, e, d.succeeded);
      if Configured(l.accounts[source].options, c.admin.value) {
        ReconfigureRejected(l.accounts[source].options, e, c.admin.value);
      } else {
        Approval.KnownOptions(c, Play(c, w0, steps), source);
        ConfigureWorks(source, c.admin.value, e.tx.seqNum, e.tx.maxTime);
      }
    }
  }

  /** A new transaction is on the ledger with success exactly if it was accepted and succeeded. */
  lemma VerdictIsNew(l: Ledger, e: Envelope, succeeded: bool)
    requires !l.Has(e.tx)
    ensures Apply(l, e, succeeded).Succeeded(e.tx) <==> Accepts(l, e) && succeeded
    ensures !l.Succeeded(e.tx)
  {
    var l' := Apply(l, e, succeeded);
    if Accepts(l, e) {
      assert l'.applied[|l.applied|] == Entry(e, succeeded);
      forall k | 0 <= k < |l.applied| ensures l'.applied[k].envelope.tx != e.tx {
        assert l'.applied[k] == l.applied[k];
      }
    }
  }

  function SendSegments(c: Config, w: World, i: Input, q: Option<Quote>, wallet: bool, d: Delivery, s: Setup): seq<Step> {
    var t := |w.tasks|;
    if IsHighValue(c, i) then [Send(i)] + ([Look(t, i.source in w.flagged)] + HighValueSegments(c, w, i, wallet, s, t))
    else if FindKey(w.rows, i.key).Some? then [Send(i)]
    else if !wallet then [Send(i)] + [Crash(t)]
    else [Send(i)] + EngineSegments(w.ledger, i, q, d, t)
  }

  function ApproveSegments(l: Ledger, e: Envelope, d: Delivery, r: nat, t: nat): seq<Step> {
    var ok := Answered(l, e, d);
    (([Approve(r)] + [CoSign(t)]) + Landing(e, d)) + ([CoSignReply(t, ok)] + [Write(t, if ok then SUCCESS else FAILED)])
  }

  // ---------- what the calls leave behind ----------

  /** The columns of a new row that the matchers read. */
  function Terms(i: Input, q: Option<Quote>, now: int): Pending {
    Pending(i.destination, Amounts.Print(if q.Some? then q.value.SourceAmount(i.amount) else i.amount),
            if q.Some? then Some(Amounts.Print(q.value.DestAmount(i.amount))) else None,
            i.assetCode, i.assetIssuer, i.receiveCode, i.receiveIssuer, now)
  }

  /** The columns, one by one: recipient and assets as asked, and the amounts asked for or, of a path payment, quoted. */
  predicate RecordsWhatWasAsked(terms: Pending, i: Input, quote: Option<Quote>, now: int) {
    && terms.destination == i.destination && terms.createdAt == now
    && terms.assetCode == i.assetCode && terms.assetIssuer == i.assetIssuer
    && terms.receiveAssetCode == i.receiveCode && terms.receiveAssetIssuer == i.receiveIssuer
    && (if quote.None? then terms.amount == Amounts.Print(i.amount) && terms.destAmount.None?
        else if quote.value.mode.StrictSend? then
          terms.amount == Amounts.Print(i.amount) && terms.destAmount == Some(Amounts.Print(quote.value.found))
        else terms.amount == Amounts.Print(quote.value.found) && terms.destAmount == Some(Amounts.Print(i.amount)))
  }

  predicate Awaits(rows: seq<Row>, r: nat, status: Status) {
    r < |rows| && rows[r].status == status
  }

  /** The record pays what the row waits for, with its amount as the service writes it. */
  predicate FulfilledBy(r: Record, terms: Pending) {
    Fulfils(r, terms) && r.assetType.Some? && r.amount == Some(ExpectedAmount(terms))
  }

  /** Some record of the page does. */
  ghost predicate Fulfilled(page: Option<seq<Record>>, terms: Pending) {
    page.Some? && exists k :: 0 <= k < |page.value| && FulfilledBy(page.value[k], terms)
  }

  lemma FulfilledPolls(page: Option<seq<Record>>, terms: Pending)
    ensures Fulfilled(page, terms) <==> page.Some? && exists k :: 0 <= k < |page.value| && Polls(page.value[k], terms)
  {
    if page.Some? {
      forall k | 0 <= k < |page.value| ensures Polls(page.value[k], terms) <==> FulfilledBy(page.value[k], terms) {
        AcceptedFulfils(page.value[k], terms);
      }
    }
  }

  lemma OnlyRecordDecides(page: seq<Record>, k: nat, terms: Pending)
    requires k < |page| && forall j :: 0 <= j < |page| && j != k ==> !Fulfils(page[j], terms)
    ensures Fulfilled(Some(page), terms) <==> Polls(page[k], terms)
  {
    AcceptedFulfils(page[k], terms);
    assert Polls(page[k], terms) <==> FulfilledBy(page[k], terms);
  }

  /** The schema leaves no empty asset code. */
  predicate Coded(i: Input) { i.assetCode != Some("") && i.receiveCode != Some("") }

  lemma TermsExpect(i: Input, q: Option<Quote>, now: int)
    requires SchemaValid(i) && Coded(i)
    ensures var terms := Terms(i, q, now);
            && Stored(terms) && Paired(terms)
            && Expected(terms) == if q.Some? then q.value.DestAmount(i.amount) else i.amount
  {
    Amounts.ParsePrint(i.amount);
    QuantizeStroops(i.amount);
    if q.Some? {
      Amounts.ParsePrint(q.value.SourceAmount(i.amount));
      Amounts.ParsePrint(q.value.DestAmount(i.amount));
      QuantizeStroops(q.value.DestAmount(i.amount));
    }
  }

  /**
   A page with the row's own payment, and no other record that fulfils the row, fulfils it exactly if the
   recipient received the amount sent, or for a path payment the amount quoted. So reconciling the row
   makes it SUCCESS exactly then, and otherwise it escalates when its window is over.
   */
  lemma OwnPaymentReconciles(i: Input, q: Option<Quote>, born: int,
                             page: seq<Record>, k: nat, kind: string, received: nat, hash: string, at: int)
    requires SchemaValid(i) && Coded(i) && Matchable(kind) && at >= born
    requires k < |page| && page[k] == RecordOf(Terms(i, q, born), kind, received, hash, at)
    requires forall j :: 0 <= j < |page| && j != k ==> !Fulfils(page[j], Terms(i, q, born))
    ensures Fulfilled(Some(page), Terms(i, q, born)) <==> received == if q.Some? then q.value.DestAmount(i.amount) else i.amount
  {
    TermsExpect(i, q, born);
    OwnRecordExactly(Terms(i, q, born), kind, received, hash, at);
    OnlyRecordDecides(page, k, Terms(i, q, born));
  }

  predicate PendingOf(row: Row, account: Key) { row.source == account && row.status == PENDING }

  /** The PENDING rows of an account, in table order. */
  function PendingRows(rows: seq<Row>, account: Key, n: nat): (found: seq<nat>)
    requires n <= |rows|
    ensures forall j :: 0 <= j < |found| ==> found[j] < n && PendingOf(rows[found[j]], account)
    ensures forall i, j :: 0 <= i < j < |found| ==> found[i] < found[j]
    ensures forall r :: 0 <= r < n && PendingOf(rows[r], account) ==> r in found
  {
    if n == 0 then []
    else PendingRows(rows, account, n - 1) + if PendingOf(rows[n - 1], account) then [n - 1] else []
  }

  /** Row `r` with its final status and no envelope, and every other row as it was. */
  function Settled(rows: seq<Row>, r: nat, status: Status): seq<Row>
    requires r < |rows|
  {
    rows[r := rows[r].(status := status, envelope := None)]
  }

  /** A row in a closed status has been written exactly once since its creation, an open one never. */
  ghost predicate WrittenOnce(repo: TransactionRepository)
    reads repo
  {
    repo.Valid() && forall r :: 0 <= r < |repo.rows| ==> repo.writes[r] == if Open(repo.rows[r].status) then 0 else 1
  }

  /** Rows in a closed status are as they were, and rows keep their keys. */
  twostate predicate ClosedUntouched(repo: TransactionRepository)
    reads repo
  {
    && |old(repo.rows)| <= |repo.rows|
    && forall r :: 0 <= r < |old(repo.rows)| ==>
                     && repo.rows[r].key == old(repo.rows)[r].key
                     && (!Open(old(repo.rows)[r].status) ==> repo.rows[r] == old(repo.rows)[r])
  }

  // ---------- runs ----------

  lemma {:induction false} PlaySnoc(c: Config, w: World, steps: seq<Step>, s: Step)
    ensures Play(c, w, steps + [s]) == Next(c, Play(c, w, steps), s)
    decreases |steps|
  {
    if steps == [] {
      assert Play(c, w, [s]) == Play(c, Next(c, w, s), [s][1..]);
    } else {
      assert (steps + [s])[1..] == steps[1..] + [s];
      PlaySnoc(c, Next(c, w, steps[0]), steps[1..], s);
    }
  }

  /** Without an admin key no row ever awaits its signature. */
  lemma {:induction false} NothingAwaitsWithoutAdmin(c: Config, w: World, steps: seq<Step>)
    requires c.admin.None? && forall r :: 0 <= r < |w.rows| ==> w.rows[r].status != PENDING_SIGNATURE
    ensures forall r :: 0 <= r < |Play(c, w, steps).rows| ==> Play(c, w, steps).rows[r].status != PENDING_SIGNATURE
    decreases |steps|
  {
    if steps != [] {
      NextWithoutAdmin(c, w, steps[0]);
      NothingAwaitsWithoutAdmin(c, Next(c, w, steps[0]), steps[1..]);
    }
  }

  lemma NextWithoutAdmin(c: Config, w: World, s: Step)
    requires c.admin.None? && forall r :: 0 <= r < |w.rows| ==> w.rows[r].status != PENDING_SIGNATURE
    ensures forall r :: 0 <= r < |Next(c, w, s).rows| ==> Next(c, w, s).rows[r].status != PENDING_SIGNATURE
  {
    if !s.Send? && !s.Insert? && !s.Write? {
      FewStepsTouchRows(c, w, s);
    }
  }

  class Desk {
    const config: Config
    const escalation: int
    const accounts: set<Key>      // the accounts table
    const repo: TransactionRepository
    var flagged: set<Key>
    var ledger: Ledger
    ghost var start: World
    ghost var trace: seq<Step>

    ghost function Now(): World
      reads this
    {
      Play(config, start, trace)
    }

    /** The tables and the ledger are where the logged run leads. */
    ghost predicate Valid()
      reads this, repo
    {
      && Start(start) && WrittenOnce(repo)
      && repo.rows == Now().rows && flagged == Now().flagged && ledger == Now().ledger
    }

    constructor (config: Config, escalation: int, accounts: set<Key>, repo: TransactionRepository, ledger: Ledger)
      requires WrittenOnce(repo) && repo.rows == [] && ledger.applied == []
      requires forall k :: k in ledger.accounts ==> ledger.accounts[k].options == FRESH
      ensures Valid() && trace == [] && this.repo == repo && this.config == config
    {
      this.config, this.escalation, this.accounts, this.repo := config, escalation, accounts, repo;
      this.flagged, this.ledger := {}, ledger;
      start, trace := World([], {}, [], ledger, {}, map[], map[], [], {}), [];
    }

    ghost method Log(s: Step)
      modifies this`trace
      ensures trace == old(trace) + [s] && Now() == Next(config, old(Now()), s)
    {
      PlaySnoc(config, start, trace, s);
      trace := trace + [s];
    }

    ghost method LogEngine(s: Step)
      requires EngineKind(s) && s.task < |Now().tasks|
      modifies this`trace
      ensures trace == old(trace) + [s] && Now() == EngineStep(config, old(Now()), s)
    {
      Log(s);
    }

    ghost method LogHighValue(s: Step)
      requires SetupKind(s) && s.task < |Now().tasks|
      requires config.admin.Some?
      modifies this`trace
      ensures trace == old(trace) + [s] && Now() == SetupStep(config, old(Now()), s)
    {
      Log(s);
    }

    ghost method LogRead(s: Step)
      requires ReadKind(s)
      modifies this`trace
      ensures trace == old(trace) + [s] && Now() == ReadStep(old(Now()), s)
    {
      Log(s);
    }

    ghost method LogWrite(t: nat, verdict: Status)
      requires t < |Now().tasks|
      modifies this`trace
      ensures trace == old(trace) + [Write(t, verdict)] && Now() == WriteStep(old(Now()), t, verdict)
    {
      Log(Write(t, verdict));
    }

    ghost method LogAdmin(s: Step)
      requires AdminKind(s) && s.task < |Now().tasks| && config.admin.Some?
      modifies this`trace
      ensures trace == old(trace) + [s] && Now() == AdminStep(config, old(Now()), s)
    {
      Log(s);
    }

    ghost method LogCrash(t: nat)
      requires t < |Now().tasks|
      modifies this`trace
      ensures trace == old(trace) + [Crash(t)] && Now() == SetTask(old(Now()), t, Ended)
    {
      Log(Crash(t));
    }

    ghost method LogSend(i: Input)
      modifies this`trace
      ensures trace == old(trace) + [Send(i)] && Now() == SendStep(config, old(Now()), i)
    {
      Log(Send(i));
    }

    /** An envelope that was handed to the network reaches the ledger, or does not. */
    method Deliver(e: Envelope, d: Delivery) returns (ok: bool)
      requires Valid() && e in Now().network
      modifies this`ledger, this`trace
      ensures Valid() && trace == old(trace) + Landing(e, d)
      ensures Now() == old(Now()).(ledger := LedgerAfter(old(ledger), e, d))
      ensures ok <==> Answered(old(ledger), e, d)
    {
      if d.reaches {
        ledger := Apply(ledger, e, d.succeeded);
        Log(Land(e, d.succeeded));
      }
      ok := d.reaches && d.answered && ledger.Succeeded(e.tx);
    }

    /** Time passes. */
    method Wait(seconds: nat)
      requires Valid()
      modifies this`ledger, this`trace
      ensures Valid() && trace == old(trace) + [Pass(seconds)] && ledger == Tick(old(ledger), seconds)
    {
      ledger := Tick(ledger, seconds);
      Log(Pass(seconds));
    }

    /** An envelope whose call is over reaches the ledger. */
    method LandLate(e: Envelope, succeeded: bool)
      requires Valid() && e in Now().network
      modifies this`ledger, this`trace
      ensures Valid() && trace == old(trace) + [Land(e, succeeded)] && ledger == Apply(old(ledger), e, succeeded)
    {
      ledger := Apply(ledger, e, succeeded);
      Log(Land(e, succeeded));
    }

    // ---------- ordinary sends ----------

    /** `submitPayment` or `submitPathPayment`; nothing else runs meanwhile, so the first attempt is the last. */
    method SubmitOnce(ghost t: nat, ghost r: nat, i: Input, q: Option<Quote>, d: Delivery) returns (ok: bool)
      requires Valid() && t < |Now().tasks| && Now().tasks[t] == Engine(r, i, [])
      modifies this`ledger, this`trace
      ensures Valid() && trace == old(trace) + SubmitSegments(old(ledger), i, q, d, t)
      ensures ok <==> Pays(old(ledger), i, q, d)
      ensures ledger == if i.source in old(ledger).accounts
                        then LedgerAfter(old(ledger), PaymentOf(old(ledger), i, q), d) else old(ledger)
      ensures |Now().tasks| == |old(Now()).tasks|
      ensures Now().tasks[t] == Engine(r, i, [])
              || (Now().tasks[t].EngineSent? && Now().tasks[t].row == r && Now().tasks[t].input == i
                  && (ok ==> ledger.Succeeded(Now().tasks[t].tx)))
      ensures ok ==> Now().tasks[t].EngineSent?
    {
      ghost var before := trace;
      if i.source !in ledger.accounts {
        return false;
      }
      var e := PaymentOf(ledger, i, q);
      LogEngine(EngineSubmit(t, SendLimit(i, q), DestLimit(i, q)));
      ok := Deliver(e, d);
      Joined(before, [EngineSubmit(t, SendLimit(i, q), DestLimit(i, q))], Landing(e, d));
    }

    method WriteOutcome(ghost t: nat, r: nat, ghost i: Input, ok: bool)
      requires Valid() && r < |repo.rows| && repo.rows[r].status == PENDING
      requires t < |Now().tasks| && (Now().tasks[t].Engine? || Now().tasks[t].EngineSent?)
      requires Now().tasks[t].row == r && Now().tasks[t].input == i
      requires ok ==> Now().tasks[t].EngineSent? && ledger.Succeeded(Now().tasks[t].tx)
      modifies this`trace, repo
      ensures Valid()
      ensures trace == old(trace) + ([EngineReply(t, if ok then Applied else Failure)] + [Write(t, if ok then SUCCESS else FAILED)])
      ensures repo.rows == old(repo.rows)[r := old(repo.rows)[r].(status := if ok then SUCCESS else FAILED)]
      ensures repo.details == old(repo.details)
    {
      LogEngine(EngineReply(t, if ok then Applied else Failure));
      var _ := repo.UpdateStatus(r, if ok then SUCCESS else FAILED, false);
      LogWrite(t, if ok then SUCCESS else FAILED);
    }

    /** The `try` block of an ordinary send and its `catch`. */
    method RunEngine(ghost t: nat, r: nat, i: Input, q: Option<Quote>, d: Delivery) returns (ok: bool)
      requires IsPath(i) <==> q.Some?
      requires Valid() && r < |repo.rows| && t < |Now().tasks| && Now().tasks[t] == Inserted(r, i)
      requires repo.rows[r].status == PENDING && Some(i.source) != config.admin
      modifies this, repo
      ensures Valid() && trace == old(trace) + EngineSegments(old(ledger), i, q, d, t)
      ensures ok <==> i.source in old(ledger).accounts && GoesThrough(d)
      ensures ok ==> PaidAsAsked(old(ledger), ledger, i, q)
      ensures i.source !in old(ledger).accounts ==> ledger == old(ledger)
      ensures repo.rows == old(repo.rows)[r := old(repo.rows)[r].(status := if ok then SUCCESS else FAILED)]
      ensures repo.details == old(repo.details)
    {
      EngineOutcome(config, start, trace, i, q, d);
      ghost var before, l := trace, ledger;
      LogEngine(CallEngine(t));
      ok := SubmitOnce(t, r, i, q, d);
      WriteOutcome(t, r, i, ok);
      Joined(before, [CallEngine(t)], SubmitSegments(l, i, q, d, t));
      Joined(before, [CallEngine(t)] + SubmitSegments(l, i, q, d, t),
             [EngineReply(t, if ok then Applied else Failure)] + [Write(t, if ok then SUCCESS else FAILED)]);
    }

    method BeginOrdinary(i: Input, q: Option<Quote>, now: int) returns (r: nat)
      requires Valid() && SchemaValid(i) && Some(i.source) != config.admin && !IsHighValue(config, i)
      requires FindKey(repo.rows, i.key).None?
      modifies this`trace, repo
      ensures Valid() && trace == old(trace) + [Send(i)]
      ensures r == |old(repo.rows)| && repo.rows == old(repo.rows) + [Row(i.key, i.source, None, PENDING)]
      ensures |repo.details| == r + 1 && RecordsWhatWasAsked(repo.details[r], i, q, now)
      ensures Now().tasks == old(Now()).tasks + [Inserted(r, i)]
    {
      var created := repo.Create(i.key, i.source, None, Terms(i, q, now));
      r := created.value;
      LogSend(i);
    }

    /** An ordinary send under a new key. */
    method SendNew(i: Input, now: int, q: Option<Quote>, wallet: bool, d: Delivery) returns (row: Option<nat>)
      requires IsPath(i) <==> q.Some?
      requires Valid() && SchemaValid(i) && Some(i.source) != config.admin && !IsHighValue(config, i)
      requires FindKey(repo.rows, i.key).None?
      modifies this, repo
      ensures Valid()
      ensures var t := |old(Now()).tasks|;
              trace == old(trace) + ([Send(i)] + if wallet then EngineSegments(old(ledger), i, q, d, t) else [Crash(t)])
      ensures row == (if wallet && i.source in old(ledger).accounts && GoesThrough(d) then Some(|old(repo.rows)|) else None)
      ensures repo.rows == old(repo.rows)
                           + [Row(i.key, i.source, None, if !wallet then PENDING else if row.Some? then SUCCESS else FAILED)]
      ensures |repo.details| == |repo.rows| && RecordsWhatWasAsked(repo.details[|old(repo.rows)|], i, q, now)
      ensures row.Some? ==> PaidAsAsked(old(ledger), ledger, i, q)
      ensures !wallet || i.source !in old(ledger).accounts ==> ledger == old(ledger)
    {
      ghost var t, before := |Now().tasks|, trace;
      var r := BeginOrdinary(i, q, now);
      if !wallet {
        LogCrash(t);
        Joined(before, [Send(i)], [Crash(t)]);
        return None;
      }
      var ok := RunEngine(t, r, i, q, d);
      Joined(before, [Send(i)], EngineSegments(old(ledger), i, q, d, t));
      row := if ok then Some(r) else None;
    }

    /** An ordinary send, once its quote is there. */
    method SendOrdinary(i: Input, now: int, q: Option<Quote>, wallet: bool, d: Delivery, s: Setup) returns (row: Option<nat>)
      requires IsPath(i) <==> q.Some?
      requires Valid() && SchemaValid(i) && Some(i.source) != config.admin && !IsHighValue(config, i)
      modifies this, repo
      ensures Valid() && trace == old(trace) + SendSegments(config, old(Now()), i, q, wallet, d, s)
      ensures FindKey(old(repo.rows), i.key).Some? ==>
                row == FindKey(old(repo.rows), i.key) && repo.rows == old(repo.rows) && ledger == old(ledger)
      ensures FindKey(old(repo.rows), i.key).None? ==>
                && row == (if wallet && i.source in old(ledger).accounts && GoesThrough(d) then Some(|old(repo.rows)|) else None)
                && repo.rows == old(repo.rows) + [Row(i.key, i.source, None, if !wallet then PENDING else if row.Some? then SUCCESS else FAILED)]
                && |repo.details| == |repo.rows| && RecordsWhatWasAsked(repo.details[|old(repo.rows)|], i, q, now)
                && (row.Some? ==> PaidAsAsked(old(ledger), ledger, i, q))
                && (!wallet || i.source !in old(ledger).accounts ==> ledger == old(ledger))
    {
      var existing := repo.FindByIdempotencyKey(i.key);
      if existing.Some? {
        LogSend(i);
        return existing;
      }
      row := SendNew(i, now, q, wallet, d);
    }

    // ---------- high-value sends ----------

    /** `markMultisigConfigured`, once the configuration is known to have succeeded. */
    method SetFlag(ghost t: nat, i: Input, ghost tx: Tx)
      requires Valid() && config.admin.Some? && t < |Now().tasks| && Now().tasks[t] == HvConfirm(i, tx) && ledger.Succeeded(tx)
      modifies this`flagged, this`trace
      ensures Valid() && trace == old(trace) + ([ConfigReturn(t)] + [Mark(t)])
      ensures flagged == old(flagged) + {i.source}
      ensures |Now().tasks| == |old(Now()).tasks| && Now().tasks[t] == HvBuild(i)
    {
      ghost var before := trace;
      LogHighValue(ConfigReturn(t));
      flagged := flagged + {i.source};
      LogHighValue(Mark(t));
      Joined(before, [ConfigReturn(t)], [Mark(t)]);
    }

    /** `configureMultisig`, then the flag. */
    method ConfigureAccount(ghost t: nat, i: Input, d: Delivery) returns (ok: bool)
      requires Valid() && config.admin.Some? && t < |Now().tasks| && Now().tasks[t] == HvConfigure(i)
      modifies this
      ensures Valid() && trace == old(trace) + ConfigureSegments(config, old(ledger), i.source, d, t)
      ensures ok <==> Configures(config, old(ledger), i.source, d)
      ensures repo.rows == old(repo.rows) && |Now().tasks| == |old(Now()).tasks|
      ensures ok ==> Now().tasks[t] == HvBuild(i)
      ensures flagged == if ok then old(flagged) + {i.source} else old(flagged)
      ensures ledger == if i.source in old(ledger).accounts
                        then LedgerAfter(old(ledger), ConfigurationOf(config, old(ledger), i.source), d) else old(ledger)
    {
      ghost var before := trace;
      if i.source !in ledger.accounts {
        LogCrash(t);
        return false;
      }
      var e := ConfigurationOf(config, ledger, i.source);
      LogHighValue(SubmitConfig(t));
      ok := Deliver(e, d);
      if ok {
        SetFlag(t, i, e.tx);
      } else {
        LogCrash(t);
      }
      ghost var submit, ending := [SubmitConfig(t)], if ok then [ConfigReturn(t)] + [Mark(t)] else [Crash(t)];
      Joined(before, submit, Landing(e, d));
      Joined(before, submit + Landing(e, d), ending);
      Joined(submit, Landing(e, d), ending);
    }

    /** `buildHighValuePaymentEnvelope`, then the row that awaits the admin. */
    method BuildAndStore(ghost t: nat, i: Input, s: Setup, now: int) returns (row: Option<nat>)
      requires Valid() && config.admin.Some? && t < |Now().tasks| && Now().tasks[t] == HvBuild(i)
      requires FindKey(repo.rows, i.key).None?
      modifies this`trace, repo
      ensures Valid() && trace == old(trace) + BuildSegments(ledger, i.source, s, t)
      ensures row == if s.buildable && i.source in ledger.accounts then Some(|old(repo.rows)|) else None
      ensures row.None? ==> repo.rows == old(repo.rows) && repo.details == old(repo.details)
      ensures row.Some? ==>
                && repo.rows == old(repo.rows)
                                + [Row(i.key, i.source, Some(HighValueEnvelope(ledger, i)), PENDING_SIGNATURE)]
                && repo.details == old(repo.details) + [Terms(i, None, now)]
                && WaitsAsAsked(ledger, i, HighValueEnvelope(ledger, i)) && RecordsWhatWasAsked(Terms(i, None, now), i, None, now)
    {
      ghost var before := trace;
      if !s.buildable || i.source !in ledger.accounts {
        LogCrash(t);
        return None;
      }
      var e := HighValueEnvelope(ledger, i);
      LogHighValue(Build(t));
      row := repo.Create(i.key, i.source, Some(e), Terms(i, None, now));
      LogHighValue(Insert(t));
      Joined(before, [Build(t)], [Insert(t)]);
    }

    /** One more row awaits its signature, with an envelope and columns that say what was asked for. */
    ghost predicate AwaitsAsAsked(rows: seq<Row>, i: Input, now: int)
      reads this, repo
    {
      && |repo.details| == |repo.rows| == |rows| + 1 && repo.rows[..|rows|] == rows
      && var row := repo.rows[|rows|];
         && row.key == i.key && row.source == i.source && row.status == PENDING_SIGNATURE
         && row.envelope.Some? && WaitsAsAsked(ledger, i, row.envelope.value)
         && RecordsWhatWasAsked(repo.details[|rows|], i, None, now)
    }

    method BeginHighValue(i: Input)
      requires Valid() && SchemaValid(i) && Some(i.source) != config.admin && IsHighValue(config, i)
      modifies this`trace
      ensures Valid() && trace == old(trace) + ([Send(i)] + [Look(|old(Now()).tasks|, i.source in flagged)])
      ensures |Now().tasks| == |old(Now()).tasks| + 1
      ensures FindKey(repo.rows, i.key).None? ==>
                Now().tasks[|old(Now()).tasks|] == if i.source in flagged then HvBuild(i) else HvConfigure(i)
    {
      ghost var t, before := |Now().tasks|, trace;
      LogSend(i);
      LogHighValue(Look(t, i.source in flagged));
      Joined(before, [Send(i)], [Look(t, i.source in flagged)]);
    }

    /** A high-value send under a new key, after it has looked the key and the flag up. */
    method PrepareAndStore(ghost w: World, ghost t: nat, i: Input, now: int, wallet: bool, s: Setup) returns (row: Option<nat>)
      requires Valid() && config.admin.Some? && w.rows == repo.rows && w.flagged == flagged && w.ledger == ledger
      requires FindKey(repo.rows, i.key).None? && t < |Now().tasks|
      requires Now().tasks[t] == if i.source in flagged then HvBuild(i) else HvConfigure(i)
      requires Configures(config, ledger, i.source, s.configuration) <==>
               Configurable(config, ledger, i.source) && GoesThrough(s.configuration)
      modifies this, repo
      ensures Valid() && trace == old(trace) + HighValueSegments(config, w, i, wallet, s, t)
      ensures row == (if StoresRow(config, w, i, wallet, s) then Some(|old(repo.rows)|) else None)
      ensures row.None? ==> repo.rows == old(repo.rows)
      ensures row.Some? ==> AwaitsAsAsked(old(repo.rows), i, now)
    {
      ghost var before := trace;
      if !wallet {
        LogCrash(t);
        return None;
      }
      if i.source !in flagged {
        var ok := ConfigureAccount(t, i, s.configuration);
        if !ok {
          return None;
        }
        ghost var l := ledger;
        row := BuildAndStore(t, i, s, now);
        Joined(before, ConfigureSegments(config, w.ledger, i.source, s.configuration, t), BuildSegments(l, i.source, s, t));
      } else {
        row := BuildAndStore(t, i, s, now);
      }
    }

    method SendHighValuePayment(i: Input, now: int, wallet: bool, d: Delivery, s: Setup) returns (row: Option<nat>)
      requires Valid() && SchemaValid(i) && Some(i.source) != config.admin && IsHighValue(config, i)
      modifies this, repo
      ensures Valid() && trace == old(trace) + SendSegments(config, old(Now()), i, None, wallet, d, s)
      ensures FindKey(old(repo.rows), i.key).Some? ==> row == FindKey(old(repo.rows), i.key) && repo.rows == old(repo.rows)
      ensures FindKey(old(repo.rows), i.key).None? ==>
                && row == (if StoresRow(config, old(Now()), i, wallet, s) then Some(|old(repo.rows)|) else None)
                && (row.None? ==> repo.rows == old(repo.rows))
                && (row.Some? ==> AwaitsAsAsked(old(repo.rows), i, now))
    {
      ghost var w, t, before := Now(), |Now().tasks|, trace;
      ghost var opening, rest := [Send(i)] + [Look(t, i.source in w.flagged)], HighValueSegments(config, w, i, wallet, s, t);
      ConfigurationOutcome(config, start, trace, i.source, s.configuration);
      BeginHighValue(i);
      row := repo.FindByIdempotencyKey(i.key);
      if row.None? {
        row := PrepareAndStore(w, t, i, now, wallet, s);
      }
      Joined([Send(i)], [Look(t, i.source in w.flagged)], rest);
      Joined(before, opening, rest);
    }

    /**
     `sendPayment`; no row means that it threw. A path payment whose quote cannot be resolved throws
     before the key is looked up. Otherwise a known key changes nothing, a high-value payment is left
     awaiting its signature, and any other payment goes to the engine. The row is SUCCESS exactly if the
     call returns, and then the ledger has one more entry, the payment that was asked for: to that
     recipient, in that asset and amount, or within those limits of the quote. The row is PENDING still if
     the wallet could not be resolved, and FAILED otherwise.
     */
    method SendPayment(i: Input, now: int, quote: Option<Quote>, wallet: bool, d: Delivery, s: Setup) returns (row: Option<nat>)
      requires Valid() && SchemaValid(i) && Some(i.source) != config.admin
      modifies this, repo
      ensures Valid() && ClosedUntouched(repo)
      ensures IsPath(i) && quote.None? ==> row.None? && trace == old(trace) && repo.rows == old(repo.rows) && ledger == old(ledger)
      ensures !(IsPath(i) && quote.None?) ==>
                var q := if IsPath(i) then quote else None;
                var n := |old(repo.rows)|;
                && trace == old(trace) + SendSegments(config, old(Now()), i, q, wallet, d, s)
                && (FindKey(old(repo.rows), i.key).Some? ==> row == FindKey(old(repo.rows), i.key) && repo.rows == old(repo.rows))
                && (FindKey(old(repo.rows), i.key).None? && !IsHighValue(config, i) ==>
                      && repo.rows == old(repo.rows)
                                      + [Row(i.key, i.source, None, if !wallet then PENDING else if row.Some? then SUCCESS else FAILED)]
                      && |repo.details| == |repo.rows| && RecordsWhatWasAsked(repo.details[n], i, q, now)
                      && row == (if wallet && i.source in old(ledger).accounts && GoesThrough(d) then Some(n) else None)
                      && (row.Some? ==> PaidAsAsked(old(ledger), ledger, i, q))
                      && (!wallet || i.source !in old(ledger).accounts ==> ledger == old(ledger)))
                && (FindKey(old(repo.rows), i.key).None? && IsHighValue(config, i) ==>
                      && row == (if StoresRow(config, old(Now()), i, wallet, s) then Some(n) else None)
                      && (row.None? ==> repo.rows == old(repo.rows))
                      && (row.Some? ==> AwaitsAsAsked(old(repo.rows), i, now)))
    {
      if IsPath(i) && quote.None? {
        return None;
      }
      if IsHighValue(config, i) {
        row := SendHighValuePayment(i, now, wallet, d, s);
      } else {
        row := SendOrdinary(i, now, if IsPath(i) then quote else None, wallet, d, s);
      }
    }

    /** The one write of an open row's status. */
    method CloseRow(ghost t: nat, r: nat, status: Status, clearPendingEnvelope: bool)
      requires Valid() && t < |Now().tasks| && !Open(status)
      requires Awaits(repo.rows, r, if clearPendingEnvelope then PENDING_SIGNATURE else PENDING)
      requires WriteStep(Now(), t, status) == SetTask(SetRow(Now(), r, status, clearPendingEnvelope), t, Ended)
      modifies this`trace, repo
      ensures Valid() && trace == old(trace) + [Write(t, status)]
      ensures repo.rows == Settled(old(repo.rows), r, status) && repo.details == old(repo.details)
    {
      var _ := repo.UpdateStatus(r, status, clearPendingEnvelope);
      LogWrite(t, status);
    }

    // ---------- the admin ----------

    /** `coSignAndSubmitEnvelope` for the envelope of a row that awaits its signature. */
    method CoSignAndSubmit(ghost t: nat, r: nat, e: Envelope, d: Delivery) returns (ok: bool)
      requires Valid() && config.admin.Some? && t == |Now().tasks| && Awaits(repo.rows, r, PENDING_SIGNATURE)
      requires repo.rows[r].envelope.Some? && e == WithAdmin(config, repo.rows[r].envelope.value)
      modifies this`ledger, this`trace
      ensures Valid() && trace == old(trace) + ([Approve(r)] + [CoSign(t)] + Landing(e, d))
      ensures ok == Answered(old(ledger), e, d) && ledger == LedgerAfter(old(ledger), e, d)
      ensures t < |Now().tasks| && Now().tasks[t] == CoSigned(r, e.tx)
    {
      ghost var before := trace;
      LogRead(Approve(r));
      LogAdmin(CoSign(t));
      ok := Deliver(e, d);
      Joined(before, [Approve(r)], [CoSign(t)]);
      Joined(before, [Approve(r)] + [CoSign(t)], Landing(e, d));
    }

    /** The answer to a submission, and the one write that follows it. */
    method HearAndClose(ghost t: nat, r: nat, ghost tx: Tx, ok: bool)
      requires Valid() && config.admin.Some? && t < |Now().tasks| && Now().tasks[t] == CoSigned(r, tx)
      requires Awaits(repo.rows, r, PENDING_SIGNATURE) && (ok ==> ledger.Succeeded(tx))
      modifies this`trace, repo
      ensures Valid() && trace == old(trace) + ([CoSignReply(t, ok)] + [Write(t, if ok then SUCCESS else FAILED)])
      ensures repo.rows == Settled(old(repo.rows), r, if ok then SUCCESS else FAILED) && repo.details == old(repo.details)
    {
      ghost var before := trace;
      LogAdmin(CoSignReply(t, ok));
      CloseRow(t, r, if ok then SUCCESS else FAILED, true);
      Joined(before, [CoSignReply(t, ok)], [Write(t, if ok then SUCCESS else FAILED)]);
    }

    /**
     `approvePendingSignature`; false when it throws. The row turns SUCCESS, with its payment on the
     ledger, exactly if Horizon answers so, and FAILED otherwise.
     */
    method ApprovePendingSignature(r: nat, d: Delivery) returns (approved: bool)
      requires Valid()
      modifies this, repo
      ensures Valid() && ClosedUntouched(repo)
      ensures !Awaits(old(repo.rows), r, PENDING_SIGNATURE) ==>
                !approved && trace == old(trace) && repo.rows == old(repo.rows) && ledger == old(ledger)
      ensures Awaits(old(repo.rows), r, PENDING_SIGNATURE) ==>
                && config.admin.Some? && old(repo.rows)[r].envelope.Some?
                && var stored := old(repo.rows)[r].envelope.value;
                var e := Envelope(stored.tx, stored.signers + {config.admin.value});
                && trace == old(trace) + ApproveSegments(old(ledger), e, d, r, |old(Now()).tasks|)
                && ledger == (if d.reaches then Apply(old(ledger), e, d.succeeded) else old(ledger))
                && (approved <==> d.reaches && d.answered && ledger.Succeeded(e.tx))
                && repo.rows == Settled(old(repo.rows), r, if approved then SUCCESS else FAILED)
    {
      if config.admin.None? {
        NothingAwaitsWithoutAdmin(config, start, trace);
      }
      if !Awaits(repo.rows, r, PENDING_SIGNATURE) || repo.rows[r].envelope.None? {
        return false;
      }
      ghost var t, before := |Now().tasks|, trace;
      var e := WithAdmin(config, repo.rows[r].envelope.value);
      approved := CoSignAndSubmit(t, r, e, d);
      HearAndClose(t, r, e.tx, approved);
      Joined(before, [Approve(r)] + [CoSign(t)] + Landing(e, d),
             [CoSignReply(t, approved)] + [Write(t, if approved then SUCCESS else FAILED)]);
    }

    /** `rejectPendingSignature`; false when it throws. */
    method RejectPendingSignature(r: nat) returns (rejected: bool)
      requires Valid()
      modifies this`trace, repo
      ensures Valid() && ClosedUntouched(repo)
      ensures rejected <==> Awaits(old(repo.rows), r, PENDING_SIGNATURE)
      ensures trace == old(trace) + if rejected then [Reject(r)] + [Write(|old(Now()).tasks|, FAILED)] else []
      ensures repo.rows == if rejected then Settled(old(repo.rows), r, FAILED) else old(repo.rows)
    {
      if !Awaits(repo.rows, r, PENDING_SIGNATURE) || repo.rows[r].envelope.None? {
        return false;
      }
      ghost var t, before := |Now().tasks|, trace;
      LogRead(Reject(r));
      CloseRow(t, r, FAILED, true);
      rejected := true;
      Joined(before, [Reject(r)], [Write(t, FAILED)]);
    }

    // ---------- reconciliation and the live stream ----------

    /** What reconciliation makes of a PENDING row; PENDING if it leaves it alone. */
    method Judge(source: Key, terms: Pending, page: Option<seq<Record>>, now: int) returns (verdict: Status)
      ensures verdict == if source !in accounts then FAILED
                         else if Fulfilled(page, terms) then SUCCESS
                         else if now - terms.createdAt > escalation then NEEDS_REVIEW
                         else PENDING
    {
      if source !in accounts {
        return FAILED;
      }
      FulfilledPolls(page, terms);
      var matchedTxHash := FindMatchingPayment(page, terms);
      if matchedTxHash.Some? {
        return SUCCESS;
      }
      return if now - terms.createdAt > escalation then NEEDS_REVIEW else PENDING;
    }

    /**
     `reconcileTransaction`, for a row, the page Horizon answers with (none if the query fails) and the
     clock. Only a PENDING row is written: FAILED if its account is gone, else SUCCESS if the page has a
     payment that fulfils it, else NEEDS_REVIEW if the escalation window is over, and otherwise it stays.
     */
    method ReconcileTransaction(r: nat, page: Option<seq<Record>>, now: int)
      requires Valid() && r < |repo.rows|
      modifies this`trace, repo
      ensures Valid() && ClosedUntouched(repo) && repo.details == old(repo.details)
      ensures !Awaits(old(repo.rows), r, PENDING) ==> repo.rows == old(repo.rows) && trace == old(trace)
      ensures Awaits(old(repo.rows), r, PENDING) ==>
                var terms, t := repo.details[r], |old(Now()).tasks|;
                var verdict := if old(repo.rows)[r].source !in accounts then FAILED
                               else if Fulfilled(page, terms) then SUCCESS
                               else if now - terms.createdAt > escalation then NEEDS_REVIEW
                               else PENDING;
                && repo.rows == Settled(old(repo.rows), r, verdict)
                && trace == old(trace) + ([Reconcile(r)] + [if verdict == PENDING then Crash(t) else Write(t, verdict)])
    {
      if repo.rows[r].status != PENDING {
        return;
      }
      ghost var t, before := |Now().tasks|, trace;
      var verdict := Judge(repo.rows[r].source, repo.details[r], page, now);
      LogRead(Reconcile(r));
      if verdict == PENDING {
        LogCrash(t);
      } else {
        CloseRow(t, r, verdict, false);
      }
      Joined(before, [Reconcile(r)], [if verdict == PENDING then Crash(t) else Write(t, verdict)]);
    }

    method FindFulfilled(account: Key, event: Record) returns (row: Option<nat>)
      requires |repo.details| == |repo.rows|
      ensures row.None? ==>
                forall r :: 0 <= r < |repo.rows| && PendingOf(repo.rows[r], account) ==> !Streams(event, repo.details[r])
      ensures row.Some? ==>
                && row.value < |repo.rows| && PendingOf(repo.rows[row.value], account)
                && Streams(event, repo.details[row.value])
                && forall r :: 0 <= r < row.value && PendingOf(repo.rows[r], account) ==> !Streams(event, repo.details[r])
    {
      var details := repo.details;
      var pending := PendingRows(repo.rows, account, |repo.rows|);
      var terms := seq(|pending|, k requires 0 <= k < |pending| => details[pending[k]]);
      var found := PaymentMatcher.ResolveStreamEvent(event, terms);
      forall r | 0 <= r < |repo.rows| && PendingOf(repo.rows[r], account) && (found.None? || r < pending[found.value])
        ensures !Streams(event, details[r])
      {
        var k :| 0 <= k < |pending| && pending[k] == r;
        assert terms[k] == details[r];
      }
      row := if found.Some? then Some(pending[found.value]) else None;
    }

    /** `resolveStreamEvent`: the first PENDING row of the account that the event fulfils becomes SUCCESS. */
    method ResolveStreamEvent(account: Key, event: Record) returns (row: Option<nat>)
      requires Valid()
      modifies this`trace, repo
      ensures Valid() && ClosedUntouched(repo) && repo.details == old(repo.details)
      ensures row.None? ==>
                && repo.rows == old(repo.rows) && trace == old(trace)
                && forall r :: 0 <= r < |old(repo.rows)| && old(repo.rows)[r].source == account && old(repo.rows)[r].status == PENDING ==>
                                 !Streams(event, repo.details[r])
      ensures row.Some? ==>
                && row.value < |old(repo.rows)|
                && old(repo.rows)[row.value].source == account && old(repo.rows)[row.value].status == PENDING
                && Streams(event, repo.details[row.value]) && Fulfils(event, repo.details[row.value])
                && (forall r :: 0 <= r < row.value && old(repo.rows)[r].source == account && old(repo.rows)[r].status == PENDING ==>
                                  !Streams(event, repo.details[r]))
                && repo.rows == Settled(old(repo.rows), row.value, SUCCESS)
                && trace == old(trace) + ([Match(row.value)] + [Write(|old(Now()).tasks|, SUCCESS)])
    {
      row := FindFulfilled(account, event);
      if row.None? {
        return;
      }
      ghost var t, before := |Now().tasks|, trace;
      LogRead(Match(row.value));
      CloseRow(t, row.value, SUCCESS, false);
      Joined(before, [Match(row.value)], [Write(t, SUCCESS)]);
      AcceptedFulfils(event, repo.details[row.value]);
    }
  }
}
