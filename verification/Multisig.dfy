/** Signer weights and thresholds: what configuring an account and building a high-value envelope achieve. */
module Multisig {
  import opened Option
  import opened StellarLedger

  const SIGNER_WEIGHT: nat := 1
  const LOW_THRESHOLD: nat := 1
  const MED_THRESHOLD: nat := 1
  const HIGH_THRESHOLD: nat := 2

  /** An account as the network creates it: the master key alone, and no thresholds. */
  const FRESH := Options(1, [], 0, 0, 0)

  function ConfigureOps(admin: Key): seq<Op> {
    [SetOptions(Some((admin, SIGNER_WEIGHT)), Some(SIGNER_WEIGHT), Some(LOW_THRESHOLD), Some(MED_THRESHOLD), Some(HIGH_THRESHOLD))]
  }

  /** The payment, and a `setOptions` that re-asserts the master weight to force the high threshold. */
  function HighValueOps(destination: Key, amount: nat): seq<Op> {
    [Payment(destination, Native, amount), SetOptions(None, Some(SIGNER_WEIGHT), None, None, None)]
  }

  predicate Configured(o: Options, admin: Key) {
    o == Options(SIGNER_WEIGHT, [(admin, SIGNER_WEIGHT)], LOW_THRESHOLD, MED_THRESHOLD, HIGH_THRESHOLD)
  }

  lemma ConfiguredWeight(o: Options, admin: Key, source: Key, signed: set<Key>)
    requires Configured(o, admin)
    ensures Weight(o, source, signed) == (if source in signed then 1 else 0) + (if admin in signed then 1 else 0)
  {
    assert SignerWeight(o.signers[1..], signed) == 0;
  }

  /** A fresh account's own key suffices to configure it, and the result is the two-signer setup. */
  lemma ConfigureWorks(source: Key, admin: Key, seqNum: nat, maxTime: nat)
    ensures Authorised(FRESH, Envelope(Tx(source, seqNum, ConfigureOps(admin), None, maxTime), {source}))
    ensures Configured(ConfigureAll(FRESH, ConfigureOps(admin)), admin)
  {
    assert ConfigureOps(admin)[1..] == [];
  }

  /** Once configured, the account's own key no longer suffices to run the configuration again. */
  lemma ReconfigureRejected(o: Options, e: Envelope, admin: Key)
    requires Configured(o, admin) && e.tx.source != admin
    requires e.tx.ops == ConfigureOps(admin) && e.signers == {e.tx.source}
    ensures !Authorised(o, e)
  {
    ConfiguredWeight(o, admin, e.tx.source, e.signers);
    assert Threshold(o, e.tx.ops[0]) == 2;
  }

  /** A high-value envelope is accepted exactly when both keys signed it, and nobody else. */
  lemma HighValueNeedsBoth(o: Options, e: Envelope, admin: Key, destination: Key, amount: nat)
    requires Configured(o, admin) && e.tx.source != admin
    requires e.tx.ops == HighValueOps(destination, amount)
    ensures Authorised(o, e) <==> e.signers == {e.tx.source, admin}
  {
    ConfiguredWeight(o, admin, e.tx.source, e.signers);
    assert Threshold(o, e.tx.ops[1]) == 2;
    if e.signers == {e.tx.source, admin} {
      assert o.signers[0].0 == admin;
    }
  }

  /** An ordinary payment still passes with either key alone. */
  lemma OrdinaryNeedsOne(o: Options, e: Envelope, admin: Key)
    requires Configured(o, admin) && e.tx.source != admin
    requires |e.tx.ops| == 1 && !TouchesSigners(e.tx.ops[0])
    ensures Authorised(o, e) <==> e.signers != {} && e.signers <= {e.tx.source, admin}
  {
    ConfiguredWeight(o, admin, e.tx.source, e.signers);
    assert o.signers[0].0 == admin;
    if e.signers != {} && e.signers <= {e.tx.source, admin} {
      var k :| k in e.signers;
    }
  }

  /** Applying a high-value envelope leaves the options as they were. */
  lemma HighValueIsNoOp(o: Options, admin: Key, destination: Key, amount: nat)
    requires Configured(o, admin)
    ensures ConfigureAll(o, HighValueOps(destination, amount)) == o
  {
    var ops := HighValueOps(destination, amount);
    calc {
      ConfigureAll(o, ops);
      { assert ops[1..] == [ops[1]]; }
      ConfigureAll(Configure(o, ops[0]), [ops[1]]);
      { assert [ops[1]][1..] == []; }
      Configure(o, ops[1]);
    }
  }

  /** With an empty `setOptions` instead, the account's own signature would be enough. */
  lemma EmptySetOptionsDoesNotForce(o: Options, source: Key, admin: Key, destination: Key, amount: nat, seqNum: nat, maxTime: nat)
    requires Configured(o, admin)
    ensures var ops := [Payment(destination, Native, amount), SetOptions(None, None, None, None, None)];
            Authorised(o, Envelope(Tx(source, seqNum, ops, None, maxTime), {source}))
  {
    ConfiguredWeight(o, admin, source, {source});
  }
}
