/**
 The two matchers that recognise a pending payment in Horizon's records: the polling one used by
 reconciliation and the one behind the live stream. Amounts are compared as exact decimals.
 */
module PaymentMatcher {
  import opened Option
  import opened Amounts
  import opened StellarLedger

  /** The fields of a Horizon payment record the matchers read; a missing field is `None`. */
  datatype Record = Record(
    kind: string, to: Option<Key>, amount: Option<string>, assetType: Option<string>,
    assetCode: Option<string>, assetIssuer: Option<Key>, transactionHash: string, createdAt: int)

  /** A pending row. The receive asset and `destAmount` are set for a path payment only. */
  datatype Pending = Pending(
    destination: Key, amount: string, destAmount: Option<string>, assetCode: Option<string>, assetIssuer: Option<Key>,
    receiveAssetCode: Option<string>, receiveAssetIssuer: Option<Key>, createdAt: int)

  predicate Matchable(kind: string) {
    kind == "payment" || kind == "path_payment_strict_receive" || kind == "path_payment_strict_send"
  }

  function Either<T>(x: Option<T>, y: Option<T>): Option<T> { if x.Some? then x else y }

  /** Seven decimals, as the service compares amounts; anything that is not a number prints as NaN. */
  function Fixed(amount: string): string {
    var d := Parse(amount);
    if d.None? then "NaN" else Print(Quantize(d.value))
  }

  function ExpectedAmount(tx: Pending): string {
    Fixed(if tx.destAmount.Some? then tx.destAmount.value else tx.amount)
  }

  /** `hasType` tells whether the object examined has an `asset_type` key at all. */
  predicate MatchesAsset(hasType: bool, r: Record, tx: Pending) {
    var code, issuer := Either(tx.receiveAssetCode, tx.assetCode), Either(tx.receiveAssetIssuer, tx.assetIssuer);
    hasType
    && if code.None? || code.value == "" then r.assetType == Some("native")
       else r.assetType != Some("native") && r.assetCode == code && r.assetIssuer.Some? && r.assetIssuer == issuer
  }

  /** Reconciliation: the record's amount must be the expected string. */
  predicate Polls(r: Record, tx: Pending) {
    && Matchable(r.kind)
    && MatchesAsset(r.assetType.Some?, r, tx)
    && r.to == Some(tx.destination)
    && r.amount == Some(ExpectedAmount(tx))
    && r.createdAt >= tx.createdAt
  }

  /** The live stream: the event's amount is normalised before it is compared. */
  predicate Streams(r: Record, tx: Pending) {
    && Matchable(r.kind)
    && MatchesAsset(true, r, tx)
    && r.to == Some(tx.destination)
    && (r.amount.Some? && r.amount.value != "" && Fixed(r.amount.value) == ExpectedAmount(tx))
    && r.createdAt >= tx.createdAt
  }

  /** The amounts of a stored row passed the request schema. */
  predicate Stored(tx: Pending) {
    Parse(tx.amount).Some? && (tx.destAmount.Some? ==> Parse(tx.destAmount.value).Some?)
  }

  lemma NaNIsNoNumber()
    ensures Parse("NaN").None? && Parse("").None?
  {
    assert DotAt("NaN") == 3;
    assert !IsDigit("NaN"[..3][0]);
    assert DotAt("") == 0;
  }

  lemma QuantizeStroops(n: nat)
    ensures Quantize(Decimal(n, PLACES)) == n
  {
    SevenPlaces();
  }

  lemma PrintedIsFixed(n: nat)
    ensures Parse(Print(n)).Some? && Fixed(Print(n)) == Print(n)
  {
    ParsePrint(n);
    QuantizeStroops(n);
  }

  lemma FixedIsPrinted(amount: string)
    requires Parse(amount).Some?
    ensures Parse(Fixed(amount)).Some? && Fixed(Fixed(amount)) == Fixed(amount)
  {
    PrintedIsFixed(Quantize(Parse(amount).value));
  }

  /** The record describes an asset that some row can expect. */
  predicate Coherent(r: Record) {
    r.assetType == Some("native") || (r.assetCode.Some? && r.assetCode.value != "" && r.assetIssuer.Some?)
  }

  /** Everything a stored row could want of a record, up to how its amount is written. */
  predicate Recognisable(r: Record) {
    Matchable(r.kind) && r.to.Some? && Coherent(r) && r.amount.Some? && Parse(r.amount.value).Some?
  }

  /** A row that expects exactly this record. */
  function RowFor(r: Record): Pending
    requires Recognisable(r)
  {
    if r.assetType == Some("native") then Pending(r.to.value, r.amount.value, None, None, None, None, None, r.createdAt)
    else Pending(r.to.value, r.amount.value, None, r.assetCode, r.assetIssuer, None, None, r.createdAt)
  }

  /** A record with an asset type and a seven-decimal amount is accepted by both matchers or by neither. */
  lemma WellFormedAgreement(r: Record, tx: Pending)
    requires Stored(tx) && r.assetType.Some?
    requires r.amount.Some? && Parse(r.amount.value).Some? ==> Fixed(r.amount.value) == r.amount.value
    ensures Polls(r, tx) <==> Streams(r, tx)
  {
    FixedIsPrinted(if tx.destAmount.Some? then tx.destAmount.value else tx.amount);
    NaNIsNoNumber();
  }

  lemma RowForTellsThemApart(r: Record)
    requires Recognisable(r) && (r.assetType.None? || Fixed(r.amount.value) != r.amount.value)
    ensures Stored(RowFor(r)) && Streams(r, RowFor(r)) && !Polls(r, RowFor(r))
  {
    NaNIsNoNumber();
  }

  /**
   Exactly which records the matchers agree on, for every stored row: all but the recognisable ones
   whose asset type is missing or whose amount is not written with seven decimals.
   */
  lemma AgreementExactly(r: Record)
    ensures (forall tx :: Stored(tx) ==> (Polls(r, tx) <==> Streams(r, tx))) <==>
            (Recognisable(r) ==> r.assetType.Some? && Fixed(r.amount.value) == r.amount.value)
  {
    if Recognisable(r) && (r.assetType.None? || Fixed(r.amount.value) != r.amount.value) {
      RowForTellsThemApart(r);
    } else {
      forall tx | Stored(tx) ensures Polls(r, tx) <==> Streams(r, tx) {
        if Recognisable(r) {
          WellFormedAgreement(r, tx);
        } else {
          Unrecognisable(r, tx);
        }
      }
    }
  }

  lemma Unrecognisable(r: Record, tx: Pending)
    requires !Recognisable(r) && Stored(tx)
    ensures !Polls(r, tx) && !Streams(r, tx)
  {
    NaNIsNoNumber();
    FixedIsPrinted(if tx.destAmount.Some? then tx.destAmount.value else tx.amount);
  }

  // ---------- a row's own payment ----------

  function WantedCode(tx: Pending): Option<string> { Either(tx.receiveAssetCode, tx.assetCode) }

  function WantedIssuer(tx: Pending): Option<Key> { Either(tx.receiveAssetIssuer, tx.assetIssuer) }

  /** Codes are not empty and come with an issuer. */
  predicate Paired(tx: Pending) {
    WantedCode(tx).Some? ==> WantedCode(tx).value != "" && WantedIssuer(tx).Some?
  }

  /** How Horizon lists the landed payment of row `tx`, of which the recipient received `received` stroops. */
  function RecordOf(tx: Pending, kind: string, received: nat, hash: string, at: int): Record {
    var code := WantedCode(tx);
    if code.None? then Record(kind, Some(tx.destination), Some(Print(received)), Some("native"), None, None, hash, at)
    else
      Record(kind, Some(tx.destination), Some(Print(received)),
             Some(if |code.value| <= 4 then "credit_alphanum4" else "credit_alphanum12"), code, WantedIssuer(tx), hash, at)
  }

  /** What the row expects its recipient to receive. */
  function Expected(tx: Pending): nat
    requires Stored(tx)
  {
    Quantize(Parse(if tx.destAmount.Some? then tx.destAmount.value else tx.amount).value)
  }

  lemma ExpectedIsPrinted(tx: Pending)
    requires Stored(tx)
    ensures ExpectedAmount(tx) == Print(Expected(tx))
  {
  }

  lemma PrintDecides(m: nat, n: nat)
    ensures Print(m) == Print(n) <==> m == n
    ensures Print(m) != "" && Fixed(Print(m)) == Print(m)
  {
    PrintedIsFixed(m);
    NaNIsNoNumber();
    if Print(m) == Print(n) {
      PrintInjective(m, n);
    }
  }

  lemma OwnAsset(tx: Pending, kind: string, received: nat, hash: string, at: int)
    requires Paired(tx)
    ensures MatchesAsset(true, RecordOf(tx, kind, received, hash, at), tx)
  {
  }

  /**
   Both matchers recognise the record of a row's own payment exactly if the recipient received what the
   row expects. A strict-send path payment may deliver more or less than its quote, and is then recognised
   by neither.
   */
  lemma OwnRecordExactly(tx: Pending, kind: string, received: nat, hash: string, at: int)
    requires Stored(tx) && Paired(tx) && Matchable(kind) && at >= tx.createdAt
    ensures Polls(RecordOf(tx, kind, received, hash, at), tx) <==> received == Expected(tx)
    ensures Streams(RecordOf(tx, kind, received, hash, at), tx) <==> received == Expected(tx)
  {
    var r, wanted, expected := RecordOf(tx, kind, received, hash, at), ExpectedAmount(tx), Expected(tx);
    OwnAsset(tx, kind, received, hash, at);
    ExpectedIsPrinted(tx);
    PrintDecides(received, expected);
    assert Polls(r, tx) <==> Print(received) == wanted;
    assert Streams(r, tx) <==> Print(received) == wanted;
  }

  // ---------- what an accepted record is ----------

  /** The record is about the asset `code` of `issuer`; no code, or an empty one, means the native asset. */
  predicate Delivers(r: Record, code: Option<string>, issuer: Option<Key>) {
    if r.assetType == Some("native") then code.None? || code.value == ""
    else code.Some? && code.value != "" && issuer.Some? && r.assetCode == code && r.assetIssuer == issuer
  }

  /**
   The record pays the row's recipient, no earlier than the row, in the asset the row waits for: the
   receive asset if it has one and else the asset sent. Code and issuer fall back one by one.
   */
  predicate Fulfils(r: Record, tx: Pending) {
    && r.kind in {"payment", "path_payment_strict_receive", "path_payment_strict_send"}
    && r.to == Some(tx.destination) && r.createdAt >= tx.createdAt
    && (tx.receiveAssetCode.Some? && tx.receiveAssetIssuer.Some? ==> Delivers(r, tx.receiveAssetCode, tx.receiveAssetIssuer))
    && (tx.receiveAssetCode.None? && tx.receiveAssetIssuer.None? ==> Delivers(r, tx.assetCode, tx.assetIssuer))
    && (tx.receiveAssetCode.Some? && tx.receiveAssetIssuer.None? ==> Delivers(r, tx.receiveAssetCode, tx.assetIssuer))
    && (tx.receiveAssetCode.None? && tx.receiveAssetIssuer.Some? ==> Delivers(r, tx.assetCode, tx.receiveAssetIssuer))
  }

  /** The record's amount is the number of stroops the row expects, once rounded. */
  predicate Amounting(r: Record, tx: Pending)
    requires Stored(tx)
  {
    r.amount.Some? && Parse(r.amount.value).Some? && Quantize(Parse(r.amount.value).value) == Expected(tx)
  }

  lemma FixedDecides(amount: string, n: nat)
    ensures Fixed(amount) == Print(n) <==> Parse(amount).Some? && Quantize(Parse(amount).value) == n
  {
    NaNIsNoNumber();
    if Parse(amount).Some? {
      PrintDecides(Quantize(Parse(amount).value), n);
    } else {
      ParsePrint(n);
    }
  }

  /**
   Without looking at amounts, both matchers accept exactly the records that pay the row's recipient in
   the asset it waits for; only reconciliation minds a missing asset type.
   */
  lemma AssetExactly(r: Record, tx: Pending)
    ensures Matchable(r.kind) && MatchesAsset(true, r, tx) && r.to == Some(tx.destination) && r.createdAt >= tx.createdAt
            <==> Fulfils(r, tx)
  {
    assert Matchable(r.kind) <==> r.kind in {"payment", "path_payment_strict_receive", "path_payment_strict_send"};
  }

  lemma AcceptedFulfils(r: Record, tx: Pending)
    ensures Streams(r, tx) <==>
            Fulfils(r, tx) && r.amount.Some? && r.amount.value != "" && Fixed(r.amount.value) == ExpectedAmount(tx)
    ensures Polls(r, tx) <==> Fulfils(r, tx) && r.assetType.Some? && r.amount == Some(ExpectedAmount(tx))
  {
    AssetExactly(r, tx);
  }

  /**
   Exactly which records fulfil a stored row. The stream accepts every record that pays the row's
   recipient what it expects; reconciliation those of them that say what their asset type is and whose
   amount is written out with seven decimals.
   */
  lemma AcceptedExactly(r: Record, tx: Pending)
    requires Stored(tx)
    ensures Streams(r, tx) <==> Fulfils(r, tx) && Amounting(r, tx)
    ensures Polls(r, tx) <==> Fulfils(r, tx) && r.assetType.Some? && r.amount == Some(Print(Expected(tx)))
  {
    AcceptedFulfils(r, tx);
    ExpectedIsPrinted(tx);
    NaNIsNoNumber();
    if r.amount.Some? {
      FixedDecides(r.amount.value, Expected(tx));
    }
  }

  predicate FirstMatch(records: seq<Record>, tx: Pending, i: nat) {
    i < |records| && Polls(records[i], tx) && forall k :: 0 <= k < i ==> !Polls(records[k], tx)
  }

  /** `findMatchingPayment`: the first acceptable record of the page, or nothing if there is none or the query failed. */
  method FindMatchingPayment(page: Option<seq<Record>>, tx: Pending) returns (hash: Option<string>)
    ensures page.None? ==> hash.None?
    ensures page.Some? && hash.None? ==> forall i :: 0 <= i < |page.value| ==> !Polls(page.value[i], tx)
    ensures hash.Some? ==>
              page.Some? && exists i: nat :: FirstMatch(page.value, tx, i) && hash.value == page.value[i].transactionHash
                                             && Fulfils(page.value[i], tx)
  {
    if page.None? {
      return None;
    }
    for i := 0 to |page.value|
      invariant forall k :: 0 <= k < i ==> !Polls(page.value[k], tx)
    {
      if Polls(page.value[i], tx) {
        AcceptedFulfils(page.value[i], tx);
        assert FirstMatch(page.value, tx, i);
        return Some(page.value[i].transactionHash);
      }
    }
    return None;
  }

  /** `resolveStreamEvent`: the first pending row the event fulfils. */
  method ResolveStreamEvent(event: Record, pending: seq<Pending>) returns (row: Option<nat>)
    ensures row.None? <==> forall i :: 0 <= i < |pending| ==> !Streams(event, pending[i])
    ensures row.Some? ==>
              && row.value < |pending| && Streams(event, pending[row.value]) && Fulfils(event, pending[row.value])
              && forall k :: 0 <= k < row.value ==> !Streams(event, pending[k])
  {
    if !Matchable(event.kind) {
      return None;
    }
    for i := 0 to |pending|
      invariant forall k :: 0 <= k < i ==> !Streams(event, pending[k])
    {
      if Streams(event, pending[i]) {
        AcceptedFulfils(event, pending[i]);
        return Some(i);
      }
    }
    return None;
  }
}
