/** The two tables in the source's own form. */
module Repositories {
  import opened Option
  import opened StellarLedger
  import opened PaymentMatcher
  import opened PaymentsService
  import E = EscrowService
  import C = EscrowContract

  /**
   The `transactions` table with its unique idempotency key. `details` are the columns of the rows that
   the matchers read. `writes` counts status updates per row.
   */
  class TransactionRepository {
    var rows: seq<Row>
    var details: seq<Pending>
    ghost var writes: seq<nat>

    ghost predicate Valid()
      reads this
    {
      && |details| == |writes| == |rows|
      && RowsApart(rows)
      && (forall r :: 0 <= r < |rows| ==> (rows[r].envelope.Some? <==> rows[r].status == PENDING_SIGNATURE))
    }

    constructor ()
      ensures Valid() && rows == []
    {
      rows, details, writes := [], [], [];
    }

    method FindByIdempotencyKey(key: string) returns (r: Option<nat>)
      ensures r == FindKey(rows, key)
    {
      r := FindKey(rows, key);
    }

    /** `None` is the unique violation. The envelope decides the status the row is born with. */
    method Create(key: string, source: Key, envelope: Option<Envelope>, terms: Pending) returns (r: Option<nat>)
      requires Valid()
      modifies this
      ensures Valid()
      ensures r.None? <==> FindKey(old(rows), key).Some?
      ensures r.None? ==> rows == old(rows) && details == old(details) && writes == old(writes)
      ensures r.Some? ==>
                && r.value == |old(rows)| && writes == old(writes) + [0] && details == old(details) + [terms]
                && rows == old(rows) + [Row(key, source, envelope, if envelope.Some? then PENDING_SIGNATURE else PENDING)]
    {
      var existing := FindByIdempotencyKey(key);
      if existing.Some? {
        return None;
      }
      r := Some(|rows|);
      rows := rows + [Row(key, source, envelope, if envelope.Some? then PENDING_SIGNATURE else PENDING)];
      details, writes := details + [terms], writes + [0];
    }

    method UpdateStatus(r: nat, status: Status, clearPendingEnvelope: bool) returns (found: bool)
      requires |writes| == |rows|
      modifies this
      ensures found <==> r < |old(rows)|
      ensures details == old(details)
      ensures !found ==> rows == old(rows) && writes == old(writes)
      ensures found ==>
                && rows == old(rows)[r := old(rows)[r].(
                             status := status, envelope := if clearPendingEnvelope then None else old(rows)[r].envelope)]
                && writes == old(writes)[r := old(writes)[r] + 1]
    {
      if r >= |rows| {
        return false;
      }
      var row := rows[r];
      if clearPendingEnvelope {
        row := row.(envelope := None);
      }
      rows := rows[r := row.(status := status)];
      writes := writes[r := writes[r] + 1];
      found := true;
    }
  }

  /** The fields an update of an escrow row may name. */
  datatype EscrowUpdate = EscrowUpdate(
    status: E.RowStatus, chainId: Option<C.U64> := None, timeoutLedger: Option<C.U32> := None,
    depositTx: Option<nat> := None, finalTx: Option<nat> := None)

  /** The `escrows` table with its unique idempotency key. */
  class EscrowRepository {
    var rows: seq<E.Row>

    constructor ()
      ensures rows == []
    {
      rows := [];
    }

    method FindByIdempotencyKey(key: string) returns (r: Option<nat>)
      ensures r.Some? <==> E.KeyTaken(rows, key)
      ensures r.Some? ==> r.value < |rows| && rows[r.value].key == key
    {
      if !E.KeyTaken(rows, key) {
        return None;
      }
      var k :| 0 <= k < |rows| && rows[k].key == key;
      return Some(k);
    }

    /** `None` is the unique violation. */
    method Create(key: string, payer: C.Address, payee: C.Address, token: C.Address, amount: nat) returns (r: Option<nat>)
      requires E.KeysApart(rows)
      modifies this
      ensures E.KeysApart(rows)
      ensures r.None? <==> E.KeyTaken(old(rows), key)
      ensures r.None? ==> rows == old(rows)
      ensures r.Some? ==> r.value == |old(rows)|
                          && rows == old(rows) + [E.NewRow(key, payer, payee, token, amount)]
    {
      var existing := FindByIdempotencyKey(key);
      if existing.Some? {
        return None;
      }
      r := Some(|rows|);
      rows := rows + [E.NewRow(key, payer, payee, token, amount)];
    }

    /** Only the fields given are written. */
    method UpdateStatus(r: nat, update: EscrowUpdate) returns (found: bool)
      modifies this
      ensures found <==> r < |old(rows)|
      ensures !found ==> rows == old(rows)
      ensures found ==>
                && |rows| == |old(rows)|
                && (forall k :: 0 <= k < |rows| && k != r ==> rows[k] == old(rows)[k])
                && rows[r] == old(rows)[r].(
                     status := update.status,
                     chainId := if update.chainId.Some? then update.chainId else old(rows)[r].chainId,
                     timeoutLedger := if update.timeoutLedger.Some? then update.timeoutLedger else old(rows)[r].timeoutLedger,
                     depositTx := if update.depositTx.Some? then update.depositTx else old(rows)[r].depositTx,
                     finalTx := if update.finalTx.Some? then update.finalTx else old(rows)[r].finalTx)
    {
      if r >= |rows| {
        return false;
      }
      var row := rows[r].(status := update.status);
      if update.chainId.Some? {
        row := row.(chainId := update.chainId);
      }
      if update.timeoutLedger.Some? {
        row := row.(timeoutLedger := update.timeoutLedger);
      }
      if update.depositTx.Some? {
        row := row.(depositTx := update.depositTx);
      }
      if update.finalTx.Some? {
        row := row.(finalTx := update.finalTx);
      }
      rows := rows[r := row];
      found := true;
    }
  }
}
