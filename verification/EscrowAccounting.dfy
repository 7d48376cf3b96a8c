/**
 Exact accounting over arbitrary runs of the escrow contract: who holds what, how much the contract
 holds, and that the supply of every token is conserved.
 */
module EscrowAccounting {
  import opened Option
  import opened EscrowContract

  /** A run is a sequence of invocations, successful or not, in the order the ledger executed them. */
  function Run(h: Host, calls: seq<Call>): Host
    decreases |calls|
  {
    if calls == [] then h else Run(Exec(h, calls[0]).0, calls[1..])
  }

  /** What every reachable state satisfies. */
  ghost predicate Valid(h: Host) {
    && h.nextId <= U64_MAX
    && (forall id :: id in h.escrows <==> 0 <= id < h.nextId)
    && (forall id :: id in h.escrows ==> ProperEscrow(h, h.escrows[id]))
    && (forall k :: k in h.balances ==> 0 <= h.balances[k] <= I128_MAX)
  }

  ghost predicate ProperEscrow(h: Host, e: Escrow) {
    0 < e.amount && e.payer != e.payee && e.payer != h.self && e.payee != h.self
  }

  /** Right after deployment: any balances the tokens may already have, and no escrow. */
  ghost predicate Genesis(h: Host) {
    h.escrows == map[] && h.nextId == 0 && (forall k :: k in h.balances ==> 0 <= h.balances[k] <= I128_MAX)
  }

  /** What escrow `e` has done so far to the balance `who` holds in `token`. */
  function Effect(e: Escrow, self: Address, token: Address, who: Address): int {
    var amount: int := e.amount;
    if e.token != token then 0
    else
      (if who == e.payer && e.status != Refunded then -amount else 0)
      + (if who == e.payee && e.status == Released then amount else 0)
      + (if who == self && e.status == Locked then amount else 0)
  }

  ghost function Net(escrows: map<nat, Escrow>, n: nat, self: Address, token: Address, who: Address): int
    requires forall i :: 0 <= i < n ==> i in escrows
  {
    if n == 0 then 0 else Net(escrows, n - 1, self, token, who) + Effect(escrows[n - 1], self, token, who)
  }

  ghost function EscrowNet(h: Host, token: Address, who: Address): int
    requires Valid(h)
  {
    Net(h.escrows, h.nextId, h.self, token, who)
  }

  ghost function LockedSum(escrows: map<nat, Escrow>, n: nat, token: Address): int
    requires forall i :: 0 <= i < n ==> i in escrows
  {
    if n == 0 then 0
    else
      LockedSum(escrows, n - 1, token)
      + if escrows[n - 1].token == token && escrows[n - 1].status == Locked then escrows[n - 1].amount else 0
  }

  /** What a single transfer outside the contract adds to the balance of `who`. */
  function PaidStep(h: Host, c: Call, token: Address, who: Address): int {
    if c.Pay? && c.token == token && Exec(h, c).1.Completed? then
      (if who == c.to then c.amount else 0) - (if who == c.from then c.amount else 0)
    else 0
  }

  ghost function Paid(h: Host, calls: seq<Call>, token: Address, who: Address): int
    decreases |calls|
  {
    if calls == [] then 0 else PaidStep(h, calls[0], token, who) + Paid(Exec(h, calls[0]).0, calls[1..], token, who)
  }

  /** A successful transfer moves exactly `amount` from one holder to the other and touches nothing else. */
  lemma MoveShifts(h: Host, token: Address, from: Address, to: Address, amount: int, t: Address, who: Address)
    requires Move(h, token, from, to, amount).Some?
    ensures var paid := Move(h, token, from, to, amount).value;
            && paid == h.(balances := paid.balances)
            && paid.Balance(t, who) == h.Balance(t, who)
               + (if t == token && who == to then amount else 0) - (if t == token && who == from then amount else 0)
  {
  }

  lemma ExecKeepsValid(h: Host, c: Call)
    requires Valid(h)
    ensures Valid(Exec(h, c).0)
    ensures Exec(h, c).0.self == h.self
  {
  }

  lemma {:induction false} RunKeepsValid(h: Host, calls: seq<Call>)
    requires Valid(h)
    ensures Valid(Run(h, calls))
    ensures Run(h, calls).self == h.self
    decreases |calls|
  {
    if calls != [] {
      ExecKeepsValid(h, calls[0]);
      RunKeepsValid(Exec(h, calls[0]).0, calls[1..]);
    }
  }

  /** Changing one escrow changes the sum by the change of that escrow's effect. */
  lemma {:induction false} NetUpdate(es: map<nat, Escrow>, id: nat, e: Escrow, n: nat, self: Address, token: Address, who: Address)
    requires forall i :: 0 <= i < n ==> i in es
    ensures Net(es[id := e], n, self, token, who) == Net(es, n, self, token, who)
            + if id < n then Effect(e, self, token, who) - Effect(es[id], self, token, who) else 0
  {
    if n > 0 {
      NetUpdate(es, id, e, n - 1, self, token, who);
    }
  }

  lemma DepositBalances(h: Host, c: Call, token: Address, who: Address)
    requires Valid(h) && c.Deposit? && ExecDeposit(h, c).1.Created? && Valid(ExecDeposit(h, c).0)
    ensures var h' := ExecDeposit(h, c).0;
            h'.Balance(token, who) - EscrowNet(h', token, who) == h.Balance(token, who) - EscrowNet(h, token, who)
  {
    var h' := ExecDeposit(h, c).0;
    MoveShifts(h, c.token, c.payer, h.self, c.amount, token, who);
    NetUpdate(h.escrows, h.nextId, h'.escrows[h.nextId], h.nextId, h.self, token, who);
  }

  lemma FinaliseBalances(h: Host, id: nat, to: Address, status: Status, token: Address, who: Address)
    requires Valid(h) && id in h.escrows && h.escrows[id].status == Locked
    requires Finalise(h, id, to, status).1.Completed? && Valid(Finalise(h, id, to, status).0)
    requires (status, to) == (Released, h.escrows[id].payee) || (status, to) == (Refunded, h.escrows[id].payer)
    ensures var h' := Finalise(h, id, to, status).0;
            h'.Balance(token, who) - EscrowNet(h', token, who) == h.Balance(token, who) - EscrowNet(h, token, who)
  {
    var e := h.escrows[id];
    MoveShifts(h, e.token, h.self, to, e.amount, token, who);
    NetUpdate(h.escrows, id, e.(status := status), h.nextId, h.self, token, who);
  }

  /** One invocation changes a balance by what its escrows did and by what was paid outside, exactly. */
  lemma ExecBalances(h: Host, c: Call, token: Address, who: Address)
    requires Valid(h)
    ensures Valid(Exec(h, c).0)
    ensures Exec(h, c).0.Balance(token, who) - EscrowNet(Exec(h, c).0, token, who)
            == h.Balance(token, who) - EscrowNet(h, token, who) + PaidStep(h, c, token, who)
  {
    ExecKeepsValid(h, c);
    if Exec(h, c).1.Succeeded() {
      match c {
        case Deposit(_, _, _, _, _, _) => DepositBalances(h, c, token, who);
        case Release(id, _) => FinaliseBalances(h, id, h.escrows[id].payee, Released, token, who);
        case Refund(id, _) => FinaliseBalances(h, id, h.escrows[id].payer, Refunded, token, who);
        case Pay(t, from, to, amount, _) => MoveShifts(h, t, from, to, amount, token, who);
        case Close(_) =>
      }
    }
  }

  lemma {:induction false} RunBalances(h: Host, calls: seq<Call>, token: Address, who: Address)
    requires Valid(h)
    ensures Valid(Run(h, calls))
    ensures Run(h, calls).Balance(token, who) - EscrowNet(Run(h, calls), token, who)
            == h.Balance(token, who) - EscrowNet(h, token, who) + Paid(h, calls, token, who)
    decreases |calls|
  {
    RunKeepsValid(h, calls);
    if calls != [] {
      ExecBalances(h, calls[0], token, who);
      RunBalances(Exec(h, calls[0]).0, calls[1..], token, who);
    }
  }

  /**
   After any run from deployment, every balance is the initial one, plus what the holder received and
   minus what it spent outside the contract, minus its Locked and Released escrows as payer, plus its
   Released escrows as payee.
   */
  lemma ExactAccounting(h0: Host, calls: seq<Call>, token: Address, who: Address)
    requires Genesis(h0)
    ensures Valid(Run(h0, calls))
    ensures Run(h0, calls).Balance(token, who)
            == h0.Balance(token, who) + Paid(h0, calls, token, who) + EscrowNet(Run(h0, calls), token, who)
  {
    RunBalances(h0, calls, token, who);
  }

  lemma {:induction false} NetOfContract(h: Host, n: nat, token: Address)
    requires Valid(h) && n <= h.nextId
    ensures Net(h.escrows, n, h.self, token, h.self) == LockedSum(h.escrows, n, token) >= 0
  {
    if n > 0 {
      NetOfContract(h, n - 1, token);
    }
  }

  /** Nobody can spend for the contract, so tokens sent to it from outside only add to what it holds. */
  lemma {:induction false} PaidToContract(h: Host, calls: seq<Call>, token: Address)
    requires Valid(h)
    ensures Paid(h, calls, token, h.self) >= 0
    decreases |calls|
  {
    if calls != [] {
      ExecKeepsValid(h, calls[0]);
      PaidToContract(Exec(h, calls[0]).0, calls[1..], token);
    }
  }

  /**
   The contract holds exactly the sum of the Locked amounts of each token, on top of what it held at
   deployment and of the transfers made to it outside `deposit`.
   */
  lemma ContractHoldsLocked(h0: Host, calls: seq<Call>, token: Address)
    requires Genesis(h0)
    ensures var h := Run(h0, calls);
            && Valid(h) && h.self == h0.self
            && h.Balance(token, h.self)
               == h0.Balance(token, h0.self) + Paid(h0, calls, token, h0.self) + LockedSum(h.escrows, h.nextId, token)
            && h.Balance(token, h.self) >= LockedSum(h.escrows, h.nextId, token)
  {
    RunKeepsValid(h0, calls);
    ExactAccounting(h0, calls, token, h0.self);
    NetOfContract(Run(h0, calls), Run(h0, calls).nextId, token);
    PaidToContract(h0, calls, token);
  }

  // ---------- conservation of the supply ----------

  ghost function Held(balances: map<(Address, Address), int>, keys: set<(Address, Address)>, token: Address): int
    requires keys <= balances.Keys
  {
    if keys == {} then 0
    else
      var k :| k in keys;
      (if k.0 == token then balances[k] else 0) + Held(balances, keys - {k}, token)
  }

  /** The sum of all balances of `token`. */
  ghost function Supply(h: Host, token: Address): int {
    Held(h.balances, h.balances.Keys, token)
  }

  lemma {:induction false} HeldSplit(b: map<(Address, Address), int>, keys: set<(Address, Address)>, k: (Address, Address), token: Address)
    requires keys <= b.Keys && k in keys
    ensures Held(b, keys, token) == (if k.0 == token then b[k] else 0) + Held(b, keys - {k}, token)
    decreases |keys|
  {
    var c :| c in keys && Held(b, keys, token) == (if c.0 == token then b[c] else 0) + Held(b, keys - {c}, token);
    if c != k {
      HeldSplit(b, keys - {c}, k, token);
      HeldSplit(b, keys - {k}, c, token);
      assert keys - {c} - {k} == keys - {k} - {c};
    }
  }

  lemma {:induction false} HeldFrame(b: map<(Address, Address), int>, b': map<(Address, Address), int>, keys: set<(Address, Address)>, token: Address)
    requires keys <= b.Keys && keys <= b'.Keys
    requires forall k :: k in keys ==> b[k] == b'[k]
    ensures Held(b, keys, token) == Held(b', keys, token)
    decreases |keys|
  {
    if keys != {} {
      var k :| k in keys;
      HeldSplit(b, keys, k, token);
      HeldSplit(b', keys, k, token);
      HeldFrame(b, b', keys - {k}, token);
    }
  }

  lemma CreditSupply(h: Host, t: Address, who: Address, amount: int, token: Address)
    ensures Supply(Credit(h, t, who, amount), token) == Supply(h, token) + if t == token then amount else 0
  {
    var b, k := h.balances, (t, who);
    var b' := Credit(h, t, who, amount).balances;
    HeldSplit(b', b'.Keys, k, token);
    HeldFrame(b, b', b.Keys - {k}, token);
    assert b'.Keys - {k} == b.Keys - {k};
    if k in b {
      HeldSplit(b, b.Keys, k, token);
    } else {
      assert b.Keys - {k} == b.Keys;
    }
  }

  lemma MoveSupply(h: Host, t: Address, from: Address, to: Address, amount: int, token: Address)
    requires Move(h, t, from, to, amount).Some?
    ensures Supply(Move(h, t, from, to, amount).value, token) == Supply(h, token)
  {
    CreditSupply(h, t, from, -amount, token);
    CreditSupply(Credit(h, t, from, -amount), t, to, amount, token);
  }

  lemma ExecSupply(h: Host, c: Call, token: Address)
    requires Valid(h)
    ensures Supply(Exec(h, c).0, token) == Supply(h, token)
  {
    if Exec(h, c).1.Succeeded() {
      match c {
        case Deposit(payer, _, t, amount, _, _) => MoveSupply(h, t, payer, h.self, amount, token);
        case Release(id, _) =>
          MoveSupply(h, h.escrows[id].token, h.self, h.escrows[id].payee, h.escrows[id].amount, token);
        case Refund(id, _) =>
          MoveSupply(h, h.escrows[id].token, h.self, h.escrows[id].payer, h.escrows[id].amount, token);
        case Pay(t, from, to, amount, _) => MoveSupply(h, t, from, to, amount, token);
        case Close(_) =>
      }
    }
  }

  /** No run creates or destroys a token. */
  lemma {:induction false} SupplyConserved(h: Host, calls: seq<Call>, token: Address)
    requires Valid(h)
    ensures Supply(Run(h, calls), token) == Supply(h, token)
    decreases |calls|
  {
    if calls != [] {
      ExecKeepsValid(h, calls[0]);
      ExecSupply(h, calls[0], token);
      SupplyConserved(Exec(h, calls[0]).0, calls[1..], token);
    }
  }

  lemma {:induction false} HeldNonNegative(b: map<(Address, Address), int>, keys: set<(Address, Address)>, token: Address)
    requires keys <= b.Keys && forall k :: k in keys ==> 0 <= b[k]
    ensures 0 <= Held(b, keys, token)
    decreases |keys|
  {
    if keys != {} {
      var k :| k in keys;
      HeldSplit(b, keys, k, token);
      HeldNonNegative(b, keys - {k}, token);
    }
  }

  /** Two different holders together own at most the supply, so a payment between them cannot overflow. */
  lemma TwoHolders(h: Host, token: Address, a: Address, b: Address)
    requires Valid(h) && a != b
    ensures h.Balance(token, a) + h.Balance(token, b) <= Supply(h, token)
  {
    var keys := h.balances.Keys;
    var ka, kb := (token, a), (token, b);
    if ka in keys {
      HeldSplit(h.balances, keys, ka, token);
      keys := keys - {ka};
    }
    if kb in keys {
      HeldSplit(h.balances, keys, kb, token);
      keys := keys - {kb};
    }
    HeldNonNegative(h.balances, keys, token);
  }
}
