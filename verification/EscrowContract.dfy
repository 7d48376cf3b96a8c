/**
 The Soroban escrow contract: three entry points that move tokens and flip an escrow's status, run by
 a host that rolls a call back completely when it returns an error or panics.

 `Exec` is the effect of one host invocation on the ledger entries the contract can see. `Instance`
 is the contract in the form the source has it: fields that each entry point updates in place.
 */
module EscrowContract {
  import opened Option

  const U32_MAX: nat := 0xFFFF_FFFF
  const U64_MAX: nat := 0xFFFF_FFFF_FFFF_FFFF
  const I128_MAX: nat := 0x7FFF_FFFF_FFFF_FFFF_FFFF_FFFF_FFFF_FFFF
  const I128_MIN: int := -0x8000_0000_0000_0000_0000_0000_0000_0000

  type U32 = n: nat | n <= U32_MAX
  type U64 = n: nat | n <= U64_MAX
  type I128 = n: int | I128_MIN <= n <= I128_MAX

  datatype Address = Account(key: nat) | Contract(hash: nat)

  datatype Status = Locked | Released | Refunded

  datatype Escrow = Escrow(
    payer: Address, payee: Address, token: Address, amount: I128, status: Status, timeoutLedger: U32)

  /** `InvalidParty` is returned by `deposit` although the source's error enum does not declare it. */
  datatype Error = NotFound | AlreadyFinalized | InvalidAmount | InvalidTimeout | InvalidParty | Overflow

  /** `Trapped` is a host panic: a missing authorisation or a token transfer that fails. */
  datatype Outcome = Created(id: U64) | Completed | Failed(error: Error) | Trapped
  {
    predicate Succeeded() { Created? || Completed? }
  }

  /** The entries of the ledger: token balances by (token, holder), and the contract's own storage. */
  datatype Host = Host(
    self: Address, balances: map<(Address, Address), int>, escrows: map<nat, Escrow>, nextId: nat, sequence: U32)
  {
    function Balance(token: Address, who: Address): int {
      if (token, who) in balances then balances[(token, who)] else 0
    }

    /** The contract's own address never authorises a call. */
    predicate Authorised(who: Address, auth: set<Address>) { who in auth && who != self }
  }

  /**
   One invocation, with the addresses that authorised it. `Pay` is a token transfer that does not go
   through the contract; `Close` lets `ledgers` ledgers pass.
   */
  datatype Call =
    | Deposit(payer: Address, payee: Address, token: Address, amount: I128, timeoutLedgers: U32, auth: set<Address>)
    | Release(id: U64, auth: set<Address>)
    | Refund(id: U64, auth: set<Address>)
    | Pay(token: Address, from: Address, to: Address, amount: I128, auth: set<Address>)
    | Close(ledgers: U32)

  function Credit(h: Host, token: Address, who: Address, amount: int): Host {
    h.(balances := h.balances[(token, who) := h.Balance(token, who) + amount])
  }

  /** A SEP-41 transfer of exactly `amount`; `None` when the token contract panics. */
  function Move(h: Host, token: Address, from: Address, to: Address, amount: int): Option<Host> {
    if amount < 0 || h.Balance(token, from) < amount then None
    else
      var debited := Credit(h, token, from, -amount);
      if debited.Balance(token, to) + amount > I128_MAX then None
      else Some(Credit(debited, token, to, amount))
  }

  function ExecDeposit(h: Host, c: Call): (Host, Outcome)
    requires c.Deposit?
  {
    if c.amount <= 0 then (h, Failed(InvalidAmount))
    else if c.payer == c.payee || c.payee == h.self then (h, Failed(InvalidParty))
    else if !h.Authorised(c.payer, c.auth) then (h, Trapped)
    else if h.sequence + c.timeoutLedgers > U32_MAX then (h, Failed(InvalidTimeout))
    else
      match Move(h, c.token, c.payer, h.self, c.amount)
      case None => (h, Trapped)
      case Some(paid) =>
        if h.nextId >= U64_MAX then (h, Failed(Overflow))
        else
          var e := Escrow(c.payer, c.payee, c.token, c.amount, Locked, h.sequence + c.timeoutLedgers);
          (paid.(escrows := paid.escrows[h.nextId := e], nextId := h.nextId + 1), Created(h.nextId))
  }

  /** Pays a locked escrow's amount out of the contract and gives it its terminal status. */
  function Finalise(h: Host, id: nat, to: Address, status: Status): (Host, Outcome)
    requires id in h.escrows
  {
    var e := h.escrows[id];
    match Move(h, e.token, h.self, to, e.amount)
    case None => (h, Trapped)
    case Some(paid) => (paid.(escrows := paid.escrows[id := e.(status := status)]), Completed)
  }

  function ExecRelease(h: Host, id: nat, auth: set<Address>): (Host, Outcome) {
    if id !in h.escrows then (h, Failed(NotFound))
    else if h.escrows[id].status != Locked then (h, Failed(AlreadyFinalized))
    else if !h.Authorised(h.escrows[id].payer, auth) then (h, Trapped)
    else Finalise(h, id, h.escrows[id].payee, Released)
  }

  function ExecRefund(h: Host, id: nat, auth: set<Address>): (Host, Outcome) {
    if id !in h.escrows then (h, Failed(NotFound))
    else if h.escrows[id].status != Locked then (h, Failed(AlreadyFinalized))
    else if h.sequence < h.escrows[id].timeoutLedger && !h.Authorised(h.escrows[id].payer, auth) then (h, Trapped)
    else Finalise(h, id, h.escrows[id].payer, Refunded)
  }

  function ExecPay(h: Host, c: Call): (Host, Outcome)
    requires c.Pay?
  {
    if !h.Authorised(c.from, c.auth) then (h, Trapped)
    else
      match Move(h, c.token, c.from, c.to, c.amount)
      case None => (h, Trapped)
      case Some(paid) => (paid, Completed)
  }

  /** One invocation, as the rest of the network sees it: all of its effects, or none. */
  function Exec(h: Host, c: Call): (Host, Outcome) {
    match c
    case Deposit(_, _, _, _, _, _) => ExecDeposit(h, c)
    case Release(id, auth) => ExecRelease(h, id, auth)
    case Refund(id, auth) => ExecRefund(h, id, auth)
    case Pay(_, _, _, _, _) => ExecPay(h, c)
    case Close(ledgers) =>
      (if h.sequence + ledgers <= U32_MAX then h.(sequence := h.sequence + ledgers) else h, Completed)
  }

  /** The deployed contract. Entry points update it in place and may stop half-way; `Invoke` is the host. */
  class Instance {
    const self: Address
    var balances: map<(Address, Address), int>
    var escrows: map<nat, Escrow>
    var nextId: nat
    var sequence: U32

    function Abs(): Host
      reads this
    {
      Host(self, balances, escrows, nextId, sequence)
    }

    constructor (self: Address, balances: map<(Address, Address), int>, sequence: U32)
      ensures Abs() == Host(self, balances, map[], 0, sequence)
    {
      this.self, this.balances, this.sequence := self, balances, sequence;
      escrows, nextId := map[], 0;
    }

    method BalanceOf(token: Address, who: Address) returns (amount: int)
      ensures amount == Abs().Balance(token, who)
    {
      amount := if (token, who) in balances then balances[(token, who)] else 0;
    }

    /** The token contract's `transfer`: debit, then credit, trapping with the debit already made. */
    method Transfer(token: Address, from: Address, to: Address, amount: int) returns (ok: bool)
      modifies this`balances
      ensures ok <==> Move(old(Abs()), token, from, to, amount).Some?
      ensures ok ==> Abs() == Move(old(Abs()), token, from, to, amount).value
    {
      var available := BalanceOf(token, from);
      if amount < 0 || available < amount {
        return false;
      }
      balances := balances[(token, from) := available - amount];
      var held := BalanceOf(token, to);
      if held + amount > I128_MAX {
        return false;
      }
      balances := balances[(token, to) := held + amount];
      return true;
    }

    method TakeNextId() returns (id: Option<U64>)
      modifies this`nextId
      ensures id.None? <==> old(nextId) >= U64_MAX
      ensures id.None? ==> nextId == old(nextId)
      ensures id.Some? ==> id.value == old(nextId) && nextId == old(nextId) + 1
    {
      if nextId >= U64_MAX {
        return None;
      }
      id := Some(nextId);
      nextId := nextId + 1;
    }

    /** Moves the tokens before it takes an id, so a failure at the counter leaves a transfer behind. */
    method DepositInPlace(payer: Address, payee: Address, token: Address, amount: I128, timeoutLedgers: U32,
                          auth: set<Address>) returns (o: Outcome)
      modifies this
      ensures o == ExecDeposit(old(Abs()), Deposit(payer, payee, token, amount, timeoutLedgers, auth)).1
      ensures o.Succeeded() ==>
                Abs() == ExecDeposit(old(Abs()), Deposit(payer, payee, token, amount, timeoutLedgers, auth)).0
    {
      if amount <= 0 {
        return Failed(InvalidAmount);
      }
      if payer == payee || payee == self {
        return Failed(InvalidParty);
      }
      if payer !in auth || payer == self {
        return Trapped;
      }
      if sequence + timeoutLedgers > U32_MAX {
        return Failed(InvalidTimeout);
      }
      var timeoutLedger: U32 := sequence + timeoutLedgers;
      var ok := Transfer(token, payer, self, amount);
      if !ok {
        return Trapped;
      }
      var id := TakeNextId();
      if id.None? {
        return Failed(Overflow);
      }
      escrows := escrows[id.value := Escrow(payer, payee, token, amount, Locked, timeoutLedger)];
      return Created(id.value);
    }

    method ReleaseInPlace(id: U64, auth: set<Address>) returns (o: Outcome)
      modifies this
      ensures o == ExecRelease(old(Abs()), id, auth).1
      ensures o.Succeeded() ==> Abs() == ExecRelease(old(Abs()), id, auth).0
    {
      if id !in escrows {
        return Failed(NotFound);
      }
      var escrow := escrows[id];
      if escrow.status != Locked {
        return Failed(AlreadyFinalized);
      }
      if escrow.payer !in auth || escrow.payer == self {
        return Trapped;
      }
      var ok := Transfer(escrow.token, self, escrow.payee, escrow.amount);
      if !ok {
        return Trapped;
      }
      escrow := escrow.(status := Released);
      escrows := escrows[id := escrow];
      return Completed;
    }

    method RefundInPlace(id: U64, auth: set<Address>) returns (o: Outcome)
      modifies this
      ensures o == ExecRefund(old(Abs()), id, auth).1
      ensures o.Succeeded() ==> Abs() == ExecRefund(old(Abs()), id, auth).0
    {
      if id !in escrows {
        return Failed(NotFound);
      }
      var escrow := escrows[id];
      if escrow.status != Locked {
        return Failed(AlreadyFinalized);
      }
      if sequence < escrow.timeoutLedger {
        if escrow.payer !in auth || escrow.payer == self {
          return Trapped;
        }
      }
      var ok := Transfer(escrow.token, self, escrow.payer, escrow.amount);
      if !ok {
        return Trapped;
      }
      escrow := escrow.(status := Refunded);
      escrows := escrows[id := escrow];
      return Completed;
    }

    /** The host: runs one call and restores every entry unless the call succeeds. */
    method Invoke(c: Call) returns (o: Outcome)
      modifies this
      ensures (Abs(), o) == Exec(old(Abs()), c)
      ensures !o.Succeeded() ==> Abs() == old(Abs())
    {
      var savedBalances, savedEscrows, savedId, savedSequence := balances, escrows, nextId, sequence;
      match c {
        case Deposit(payer, payee, token, amount, timeoutLedgers, auth) =>
          o := DepositInPlace(payer, payee, token, amount, timeoutLedgers, auth);
        case Release(id, auth) =>
          o := ReleaseInPlace(id, auth);
        case Refund(id, auth) =>
          o := RefundInPlace(id, auth);
        case Pay(token, from, to, amount, auth) =>
          if from !in auth || from == self {
            o := Trapped;
          } else {
            var ok := Transfer(token, from, to, amount);
            o := if ok then Completed else Trapped;
          }
        case Close(ledgers) =>
          if sequence + ledgers <= U32_MAX {
            sequence := sequence + ledgers;
          }
          o := Completed;
      }
      if !o.Succeeded() {
        balances, escrows, nextId, sequence := savedBalances, savedEscrows, savedId, savedSequence;
      }
    }
  }
}
