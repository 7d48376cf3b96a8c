/**
 The part of the Stellar ledger the payment code relies on: an envelope is applied only when its
 sequence number is the account's next one, its validity window has not closed, and its signatures
 reach the thresholds of its operations. Times are in seconds.
 */
module StellarLedger {
  import opened Option

  type Key = nat

  datatype Asset = Native | Credit(code: string, issuer: Key)

  datatype Op =
    | Payment(destination: Key, asset: Asset, amount: nat)
    | PathPayment(destination: Key, send: Asset, receive: Asset, sendAmount: nat, destAmount: nat)
    | SetOptions(signer: Option<(Key, nat)>, masterWeight: Option<nat>, low: Option<nat>, med: Option<nat>, high: Option<nat>)

  /** How long a transaction stays valid unless the caller says otherwise. */
  const DEFAULT_TIMEOUT: nat := 30

  /** A transaction without its signatures; two equal values have the same hash. */
  datatype Tx = Tx(source: Key, seqNum: nat, ops: seq<Op>, memo: Option<string>, maxTime: nat)

  datatype Envelope = Envelope(tx: Tx, signers: set<Key>)

  datatype Options = Options(master: nat, signers: seq<(Key, nat)>, low: nat, med: nat, high: nat)

  datatype Account = Account(seqNum: nat, options: Options)

  /** An applied transaction consumes its sequence number whether or not its operations succeeded. */
  datatype Entry = Entry(envelope: Envelope, succeeded: bool)

  /** `closeTime` is the time of the ledger that is about to close. */
  datatype Ledger = Ledger(accounts: map<Key, Account>, applied: seq<Entry>, closeTime: nat)
  {
    predicate Has(tx: Tx) {
      exists i :: 0 <= i < |applied| && applied[i].envelope.tx == tx
    }

    predicate Succeeded(tx: Tx) {
      exists i :: 0 <= i < |applied| && applied[i].envelope.tx == tx && applied[i].succeeded
    }
  }

  // ---------- signatures ----------

  function SignerWeight(signers: seq<(Key, nat)>, signed: set<Key>): nat {
    if signers == [] then 0 else (if signers[0].0 in signed then signers[0].1 else 0) + SignerWeight(signers[1..], signed)
  }

  function Weight(o: Options, source: Key, signed: set<Key>): nat {
    (if source in signed then o.master else 0) + SignerWeight(o.signers, signed)
  }

  /** `setOptions` needs the high threshold only when it sets a signer, a weight or a threshold. */
  predicate TouchesSigners(op: Op) {
    op.SetOptions? && (op.signer.Some? || op.masterWeight.Some? || op.low.Some? || op.med.Some? || op.high.Some?)
  }

  function Threshold(o: Options, op: Op): nat {
    if TouchesSigners(op) then o.high else o.med
  }

  predicate Authorised(o: Options, e: Envelope) {
    var weight := Weight(o, e.tx.source, e.signers);
    && 0 < weight && o.low <= weight
    && (forall i :: 0 <= i < |e.tx.ops| ==> Threshold(o, e.tx.ops[i]) <= weight)
    && (forall k :: k in e.signers ==> k == e.tx.source || exists i :: 0 <= i < |o.signers| && o.signers[i].0 == k)
  }

  // ---------- applying an envelope ----------

  function PutSigner(signers: seq<(Key, nat)>, key: Key, weight: nat): seq<(Key, nat)> {
    if signers == [] then (if weight == 0 then [] else [(key, weight)])
    else if signers[0].0 == key then (if weight == 0 then [] else [(key, weight)]) + signers[1..]
    else [signers[0]] + PutSigner(signers[1..], key, weight)
  }

  function Or(x: Option<nat>, default: nat): nat { if x.Some? then x.value else default }

  function Configure(o: Options, op: Op): Options {
    match op
    case SetOptions(signer, masterWeight, low, med, high) =>
      Options(Or(masterWeight, o.master),
              if signer.Some? then PutSigner(o.signers, signer.value.0, signer.value.1) else o.signers,
              Or(low, o.low), Or(med, o.med), Or(high, o.high))
    case _ => o
  }

  function ConfigureAll(o: Options, ops: seq<Op>): Options
    decreases |ops|
  {
    if ops == [] then o else ConfigureAll(Configure(o, ops[0]), ops[1..])
  }

  predicate NextInLine(l: Ledger, tx: Tx) {
    tx.source in l.accounts && tx.seqNum == l.accounts[tx.source].seqNum + 1
  }

  /** The validity window has not closed; past it the answer is `tx_too_late`. */
  predicate InTime(l: Ledger, tx: Tx) { l.closeTime <= tx.maxTime }

  predicate Accepts(l: Ledger, e: Envelope) {
    InTime(l, e.tx) && NextInLine(l, e.tx) && Authorised(l.accounts[e.tx.source].options, e)
  }

  /** Applies an acceptable envelope; `succeeded` is the ledger's verdict on its operations. */
  function Apply(l: Ledger, e: Envelope, succeeded: bool): Ledger {
    if !Accepts(l, e) then l
    else
      var account := l.accounts[e.tx.source];
      var options := if succeeded then ConfigureAll(account.options, e.tx.ops) else account.options;
      l.(accounts := l.accounts[e.tx.source := Account(account.seqNum + 1, options)], applied := l.applied + [Entry(e, succeeded)])
  }

  /** Time passes. */
  function Tick(l: Ledger, seconds: nat): Ledger { l.(closeTime := l.closeTime + seconds) }

  /** An empty memo is not attached. */
  function MemoOf(memo: Option<string>): Option<string> { if memo == Some("") then None else memo }

  /** A transaction for the account as the ledger has it now: with the next sequence number, valid for `timeout`. */
  function BuildTx(l: Ledger, source: Key, ops: seq<Op>, memo: Option<string>, timeout: nat): Tx
    requires source in l.accounts
  {
    Tx(source, l.accounts[source].seqNum + 1, ops, MemoOf(memo), l.closeTime + timeout)
  }

  /** The memo is the one asked for, and there is none if that was empty. */
  predicate CarriesMemo(tx: Tx, memo: Option<string>) {
    if memo.Some? && memo.value != "" then tx.memo == memo else tx.memo.None?
  }

  // ---------- what sequence numbers give ----------

  /** The applied transactions of an account carry increasing sequence numbers, none above the account's own. */
  ghost predicate Sequenced(l: Ledger) {
    && (forall i :: 0 <= i < |l.applied| ==> Past(l, l.applied[i].envelope.tx))
    && (forall i, j :: 0 <= i < j < |l.applied| && l.applied[i].envelope.tx.source == l.applied[j].envelope.tx.source ==>
                         l.applied[i].envelope.tx.seqNum < l.applied[j].envelope.tx.seqNum)
  }

  /** The account has moved past the transaction's sequence number. */
  predicate Past(l: Ledger, tx: Tx) {
    tx.source in l.accounts && tx.seqNum <= l.accounts[tx.source].seqNum
  }

  /** Not applied, and too late to be. */
  ghost predicate Dead(l: Ledger, tx: Tx) {
    Past(l, tx) && !l.Has(tx)
  }

  /** No account loses a sequence number and nothing applied is forgotten. */
  ghost predicate Grows(l: Ledger, l': Ledger) {
    && l.applied <= l'.applied
    && l.closeTime <= l'.closeTime
    && (forall k :: k in l.accounts ==> k in l'.accounts && l.accounts[k].seqNum <= l'.accounts[k].seqNum)
  }

  lemma ApplyKeeps(l: Ledger, e: Envelope, succeeded: bool)
    requires Sequenced(l)
    ensures Sequenced(Apply(l, e, succeeded)) && Grows(l, Apply(l, e, succeeded))
  {
  }

  /** A dead transaction can never be applied: the ledger no longer accepts it. */
  lemma DeadStaysDead(l: Ledger, e: Envelope, succeeded: bool, tx: Tx)
    requires Sequenced(l) && Dead(l, tx)
    ensures Dead(Apply(l, e, succeeded), tx)
  {
    var l' := Apply(l, e, succeeded);
    forall i | 0 <= i < |l'.applied| ensures l'.applied[i].envelope.tx != tx {
      if i < |l.applied| {
        assert l'.applied[i] == l.applied[i];
      }
    }
  }

  /** No transaction is applied twice, whoever submits it and however often. */
  lemma AppliedOnce(l: Ledger, i: nat, j: nat)
    requires Sequenced(l) && i < |l.applied| && j < |l.applied|
    requires l.applied[i].envelope.tx == l.applied[j].envelope.tx
    ensures i == j
  {
  }

  /** Not applied, and its number has passed or its window has closed. */
  ghost predicate Hopeless(l: Ledger, tx: Tx) {
    !l.Has(tx) && (Past(l, tx) || !InTime(l, tx))
  }

  /** A hopeless transaction is never applied either. */
  lemma HopelessStays(l: Ledger, e: Envelope, succeeded: bool, tx: Tx)
    requires Sequenced(l) && Hopeless(l, tx)
    ensures Hopeless(Apply(l, e, succeeded), tx)
  {
    var l' := Apply(l, e, succeeded);
    forall i | 0 <= i < |l'.applied| ensures l'.applied[i].envelope.tx != tx {
      if i < |l.applied| {
        assert l'.applied[i] == l.applied[i];
      }
    }
  }

  /** What has succeeded stays so. */
  lemma SucceededStays(l: Ledger, e: Envelope, succeeded: bool, tx: Tx)
    requires l.Succeeded(tx)
    ensures Apply(l, e, succeeded).Succeeded(tx)
  {
    var i :| 0 <= i < |l.applied| && l.applied[i].envelope.tx == tx && l.applied[i].succeeded;
    assert Apply(l, e, succeeded).applied[i] == l.applied[i];
  }

  /** What every ledger keeps as it moves on. */
  ghost predicate Later(l: Ledger, l': Ledger) {
    && Sequenced(l') && Grows(l, l') && l'.accounts.Keys == l.accounts.Keys
    && (forall tx :: Dead(l, tx) ==> Dead(l', tx))
    && (forall tx :: Hopeless(l, tx) ==> Hopeless(l', tx))
    && (forall tx :: l.Succeeded(tx) ==> l'.Succeeded(tx))
    && (forall tx :: l.Has(tx) ==> l'.Has(tx))
    && (forall tx :: l.Has(tx) && !l.Succeeded(tx) ==> !l'.Succeeded(tx))
  }

  lemma HasStays(l: Ledger, e: Envelope, succeeded: bool, tx: Tx)
    requires Sequenced(l) && l.Has(tx)
    ensures Apply(l, e, succeeded).Has(tx)
    ensures !l.Succeeded(tx) ==> !Apply(l, e, succeeded).Succeeded(tx)
  {
    var l' := Apply(l, e, succeeded);
    var i :| 0 <= i < |l.applied| && l.applied[i].envelope.tx == tx;
    assert l'.applied[i] == l.applied[i];
    forall k | 0 <= k < |l'.applied| && !l.Succeeded(tx) ensures !(l'.applied[k].envelope.tx == tx && l'.applied[k].succeeded) {
      if k < |l.applied| {
        assert l'.applied[k] == l.applied[k];
      }
    }
  }

  lemma ApplyLater(l: Ledger, e: Envelope, succeeded: bool)
    requires Sequenced(l)
    ensures Later(l, Apply(l, e, succeeded))
  {
    var l' := Apply(l, e, succeeded);
    ApplyKeeps(l, e, succeeded);
    forall tx | Dead(l, tx) ensures Dead(l', tx) { DeadStaysDead(l, e, succeeded, tx); }
    forall tx | Hopeless(l, tx) ensures Hopeless(l', tx) { HopelessStays(l, e, succeeded, tx); }
    forall tx | l.Succeeded(tx) ensures l'.Succeeded(tx) { SucceededStays(l, e, succeeded, tx); }
    forall tx | l.Has(tx) ensures l'.Has(tx) && (!l.Succeeded(tx) ==> !l'.Succeeded(tx)) { HasStays(l, e, succeeded, tx); }
  }

  lemma TickLater(l: Ledger, seconds: nat)
    requires Sequenced(l)
    ensures Later(l, Tick(l, seconds))
  {
    var l' := Tick(l, seconds);
    assert forall tx :: l'.Has(tx) == l.Has(tx) && l'.Succeeded(tx) == l.Succeeded(tx);
  }
}
