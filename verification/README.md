# Verified model of the MixMatch payment system

This project models the money-moving core of the repository and proves what it keeps over whole runs:

- the Soroban **escrow contract**, run by a host that rolls failed calls back;
- the **escrow service** against that contract, with late, lost and third-party transactions;
- **payment submission** against a ledger that checks sequence numbers and signatures;
- the **payments service** over its transactions table: idempotency keys, pending envelopes and the
  admin co-signature for high-value payments;
- the two **incremental readers**: the mobile client's event-stream parser and the reconnecting
  Horizon stream;
- **bounded arithmetic and failure accounting**: seven-decimal amounts, slippage bounds, the two payment
  matchers, the anchor circuit breaker and the reconciliation alert.

Where the property is about interleavings, a component is a state machine: a total function `Next`
performs one atomic segment of one call, or one move of the environment, a run is any sequence of such
steps, and every main result holds for all runs. Where the source updates objects or loops, there is a
class or a method with the same steps, and its contract ties it to the function that the results are
about: it computes that function, or it logs the segments it goes through, and its `Valid` says that its
state is where the logged run of the machine leads, so that the results about runs hold of the object.
`dafny verify dfyconfig.toml` checks everything.

| file | content |
|---|---|
| `EscrowContract.dfy` | ledger entries, `Exec` for one invocation, and the contract as a class updated in place |
| `EscrowAccounting.dfy` | runs, the reachable-state invariant, exact balances, conservation of supply |
| `EscrowHistory.dfy` | the life of one escrow: permanence, single payout, nothing stuck, deadline |
| `EscrowService.dfy` | rows, calls in progress and submitted transactions beside the chain |
| `EscrowRequests.dfy` | every transaction and row goes back to a request |
| `EscrowTracking.dfy` | exactly when the rows miss something that happened on the chain |
| `SorobanInvocation.dfy` | the loop that waits for a submitted contract call |
| `StellarLedger.dfy`, `Multisig.dfy` | sequence numbers, signer weights, thresholds |
| `PaymentSubmission.dfy` | `submitPayment` and `resubmitPayment`, as a protocol and as the retry loop |
| `PaymentsService.dfy` | rows, calls in progress, envelopes and the ledger of the payments service |
| `PaymentGate.dfy` | the high-value gate over whole runs |
| `PaymentEngine.dfy` | the bounded attempts of the engine inside the service: one payment per key |
| `PaymentRequests.dfy` | nothing is paid that was not asked for |
| `PaymentApproval.dfy`, `PaymentReports.dfy` | when an approval pays, and what its row says about it |
| `PaymentFinality.dfy` | when a closed row is final |
| `Repositories.dfy` | the two tables as classes |
| `EscrowDesk.dfy` | the escrow service's calls run to completion on the table and the deployed contract |
| `PaymentsDesk.dfy` | the payments service's calls run to completion on the table, the flags and the ledger |
| `SseParser.dfy`, `HorizonStream.dfy` | the two stream consumers |
| `Amounts.dfy`, `PaymentMatcher.dfy`, `Slippage.dfy` | decimal amounts and what is decided with them |
| `CircuitBreaker.dfy`, `AlertLatch.dfy` | failure accounting |
| `Option.dfy`, `Sequences.dfy` | helpers |

Assumptions about the surroundings: a token transfer moves exactly `amount`, or panics because the
balance is short or the recipient's would overflow, and for no other reason; a recipient without a
trustline, or one whose trustline is frozen, would make a real transfer panic too, and then
`EscrowHistory.NothingStuck` does not apply. The contract's address authorises nothing; tokens may be
sent to the contract from outside and only add to what it holds; all holders of a token together fit a
128-bit balance (needed so that a payout cannot overflow). Horizon answers a transaction that is on the
ledger with its recorded result, loading an account gives its current sequence number, and the clock that
opens a transaction's validity window is the ledger's close time. What Horizon lists for reconciliation
and the stream is the environment's. A database write either happens and is reported, or does not happen. Signatures are facts about who signed, and a
customer's key is never the admin's. Runs of the payments service start with empty tables and with
customer accounts as the network creates them.

## Where the code and its own documentation differ

- `deposit` returns `InvalidParty`, which the error enum does not declare; the model adds it.
- `reduceByBps` is documented to floor; `toFixed` rounds to nearest, ties up (section 21.1.3.3 of
  ECMA-262). `Slippage.ReduceIsFloorExactly` says exactly when the two agree.
- "Safe to retry" for payments holds per call, not per request: two calls with equal parameters can
  share one transaction (`PaymentSubmission.EqualParamsMayShareAPayment`).
- The gate for high-value payments looks at the asset code alone; `PaymentsService.GateIsExact` gives
  the one shape of input that would slip past, which the request schema refuses.
- "Durable idempotency" of `sendPayment` promises that a known key returns its row. A path payment whose
  quote cannot be resolved throws before the key is looked up, so for it a known key returns nothing:
  exactly the first case of `PaymentsDesk.Desk.SendPayment`.
- If the multisig flag is lost after an account was configured, a high-value send that finds it unset
  submits a configuration that the ledger refuses, so it throws and can return no row:
  `PaymentGate.ConfiguringReturnsExactly` says that such a send can return exactly if the account exists
  and is not configured yet.
- A high-value row is meant to wait for an admin, but its envelope is valid for thirty seconds and
  reserves the account's next sequence number. `PaymentApproval.PayableExactly` says when it can still be
  paid; `LateApprovalFails` and `OrdinarySendSpoilsEnvelope` give the two ways it is lost, and an approval
  after that leaves the row FAILED.
- Two high-value sends with equal terms built at the same moment share one transaction
  (`PaymentReports.EqualRowsShareAPayment`).
- Both matchers want a path payment's quoted amount, while Horizon lists what the recipient received. The
  record of a landed strict-send payment is recognised exactly if the two are equal
  (`PaymentMatcher.OwnRecordExactly`, `PaymentsDesk.OwnPaymentReconciles`), and otherwise its row escalates
  (`PaymentsDesk.Desk.ReconcileTransaction`).
- The stream's reconnection is documented never to drop events. That holds once there is something to
  resume from; a handle opened without cursor that loses its connection before the first event starts
  over wherever Horizon starts it (`HorizonStream.NothingIsLost`, `HorizonStream.ColdReconnectSkips`).
- The two payment matchers differ on records whose amount is not written with seven decimals or whose
  asset type is missing; `PaymentMatcher.AgreementExactly` is the full characterisation.

## Model

| member | source | states |
|---|---|---|
| EscrowContract.Instance.Transfer | contracts/escrow/src/lib.rs:101-102 | a SEP-41 transfer moves exactly the amount between two balances or panics |
| EscrowContract.Instance.TakeNextId | contracts/escrow/src/lib.rs:192-203 | ids count up one by one and the counter never wraps |
| EscrowContract.Instance.DepositInPlace | contracts/escrow/src/lib.rs:77-118 | the entry point, with its order of failures; tokens move before the id is taken |
| EscrowContract.Instance.ReleaseInPlace | contracts/escrow/src/lib.rs:124-143 | pays a locked escrow to its payee on the payer's authority |
| EscrowContract.Instance.RefundInPlace | contracts/escrow/src/lib.rs:150-172 | returns a locked escrow to its payer, by anyone from the timeout on |
| EscrowContract.Instance.Invoke | contracts/escrow/src/lib.rs:77-172 | one invocation equals `Exec`; a call that fails leaves every ledger entry as it was, even after a transfer |
| EscrowAccounting.MoveShifts | contracts/escrow/src/lib.rs:102 | what a transfer does to every balance of every holder |
| EscrowAccounting.ExecBalances | contracts/escrow/src/lib.rs:77-172 | one call changes each balance by what its escrows did plus what was paid outside |
| EscrowAccounting.ExactAccounting | contracts/escrow/src/lib.rs:77-172 | after any run a balance is the initial one, plus outside payments, minus own Locked and Released escrows as payer, plus Released ones as payee |
| EscrowAccounting.ContractHoldsLocked | contracts/escrow/src/lib.rs:101-136 | the contract holds the sum of the Locked amounts per token, on top of what was given to it |
| EscrowAccounting.SupplyConserved | contracts/escrow/src/lib.rs:77-172 | no run creates or destroys a token |
| EscrowAccounting.TwoHolders | contracts/escrow/src/lib.rs:132-136 | two holders own at most the supply, so a payout between them cannot overflow |
| EscrowHistory.IdsAreContiguous | contracts/escrow/src/lib.rs:104-117 | stored ids are exactly 0..NextId-1, and only successful deposits consume one |
| EscrowHistory.RecordIsPermanent | contracts/escrow/src/lib.rs:10-33 | every field but the status is fixed for ever; terminal statuses never change |
| EscrowHistory.FinaliseStep | contracts/escrow/src/lib.rs:124-172 | a call on an escrow makes its single payout or changes nothing |
| EscrowHistory.FinalisedOnce | contracts/escrow/src/lib.rs:124-172 | over any run an escrow is finalised at most once, moving exactly its amount to the party its status names |
| EscrowHistory.HistoryFromGenesis | contracts/escrow/src/lib.rs:77-172 | the same counted from before the escrow exists |
| EscrowHistory.FinalisedForEver | contracts/escrow/src/lib.rs:126-128 | in any later state a finalised escrow answers AlreadyFinalized and nothing moves |
| EscrowHistory.PayoutCannotFail | contracts/escrow/src/lib.rs:131-136 | the transfer that finalises a Locked escrow of a reachable state cannot panic |
| EscrowHistory.NothingStuck | contracts/escrow/src/lib.rs:124-172 | exactly when release and refund succeed in a reachable state |
| EscrowHistory.DepositSucceedsExactly | contracts/escrow/src/lib.rs:85-117 | exactly when a deposit succeeds in a reachable state, and the escrow it creates |
| EscrowHistory.DepositAnswers | contracts/escrow/src/lib.rs:85-117 | each error of a deposit with its exact cause, in order: amount, parties, authority, deadline, tokens, counter; and none changes anything |
| EscrowHistory.FinaliseAnswers | contracts/escrow/src/lib.rs:124-172 | the same for release and refund: unknown id, finalised already, no authority |
| EscrowHistory.SilentPayer | contracts/escrow/src/lib.rs:145-158 | without the payer's authority an escrow is never released and stays Locked before its timeout |
| EscrowHistory.DeadlineRule | contracts/escrow/src/lib.rs:95-99 | the same from the deposit on: the payee receives nothing; the deadline is deposit ledger plus timeout, fits 32 bits, and anyone can refund from it on |
| EscrowService.NextKeeps | apps/api/src/modules/payments/escrow.service.ts:53-191 | every atomic segment of every call keeps the row/chain invariant |
| EscrowService.RowsDescribeTheChain | apps/api/src/modules/payments/escrow.service.ts:94-185 | a LOCKED, RELEASED or REFUNDED row names an escrow with its terms and timeout; RELEASED and REFUNDED imply the chain's status |
| EscrowService.RowsNameDistinctEscrows | apps/api/src/modules/payments/escrow.service.ts:100-105 | distinct rows name distinct on-chain ids |
| EscrowService.OneDepositPerKey | apps/api/src/modules/payments/escrow.service.ts:46-79 | one key has one row and at most one submitted deposit, however often it is retried |
| EscrowService.SubmitsOnlyForItsOwnRow | apps/api/src/modules/payments/escrow.service.ts:138-181 | releases and refunds are signed by the row's payer and name the row's own escrow |
| EscrowService.StatusMovesAlongEdges | apps/api/src/modules/payments/escrow.repository.ts:81-102 | a row moves PENDING to LOCKED or FAILED, LOCKED to RELEASED or REFUNDED, and nowhere else |
| EscrowService.StatusOnlyAdvances | apps/api/src/modules/payments/escrow.repository.ts:81-102 | over whole runs terminal statuses are final and a named escrow stays named |
| EscrowService.UndisturbedDepositLocks | apps/api/src/modules/payments/escrow.service.ts:83-105 | left alone, an acceptable deposit ends in a LOCKED row naming the new escrow |
| EscrowService.TimedOutDepositMayLand | packages/stellar/src/escrow.ts:120-131 | a deposit given up on may still land beside a FAILED row |
| EscrowRequests.SubmitsWhatWasAsked | apps/api/src/modules/payments/escrow.service.ts:53-92 | over runs, a submitted deposit has the parties, token, amount and timeout of the first request under its key, and a release or refund was requested as such for its row |
| EscrowRequests.RowsHoldWhatWasAsked | apps/api/src/modules/payments/escrow.service.ts:94-105 | a row has the terms of the first request under its key, its deadline lies the requested timeout past a ledger of the run, and it ends only as requested |
| EscrowTracking.RecordedUnlessGivenUp | apps/api/src/modules/payments/escrow.service.ts:83-118 | the converse, exactly: a transaction no call waits for any more is recorded in its row if and only if no call carrying it threw or crashed |
| EscrowTracking.DepositNamedExactly | apps/api/src/modules/payments/escrow.service.ts:100-118 | a deposit that created an escrow is named by its row exactly unless its call gave up |
| EscrowTracking.FinalisationWrittenExactly | apps/api/src/modules/payments/escrow.service.ts:138-156 | the row of a release or refund that happened says so exactly unless its call gave up, and is LOCKED otherwise |
| EscrowTracking.RowIsBehindExactly | apps/api/src/modules/payments/escrow.service.ts:138-191 | a LOCKED row's escrow is finalised exactly if somebody else had it paid out, or the service did and the call that should write that back still runs or gave up |
| SorobanInvocation.AwaitResult | packages/stellar/src/escrow.ts:118-140 | returns normally exactly on SUCCESS, times out only on an unknown result, breaks off on a failed poll, at most 32 polls |
| StellarLedger.ApplyKeeps | packages/stellar/src/payment.ts:35-41 | applied transactions of an account carry increasing sequence numbers |
| StellarLedger.DeadStaysDead | packages/stellar/src/payment.ts:77-81 | a transaction whose number has passed can never be applied |
| StellarLedger.AppliedOnce | packages/stellar/src/payment.ts:98-102 | no transaction is applied twice, whoever replays it |
| StellarLedger.HopelessStays | packages/stellar/src/payment.ts:77-81 | a transaction whose number has passed or whose window has closed is never applied |
| Multisig.ConfigureWorks | packages/stellar/src/multisig.ts:39-67 | a fresh account's key alone sets up the two-signer configuration |
| Multisig.ReconfigureRejected | packages/stellar/src/multisig.ts:44-62 | once configured, the account's key alone cannot run the configuration again |
| Multisig.HighValueNeedsBoth | packages/stellar/src/multisig.ts:80-118 | the built envelope is accepted exactly with both signatures |
| Multisig.OrdinaryNeedsOne | packages/stellar/src/multisig.ts:10-19 | an ordinary payment passes with either key alone |
| Multisig.HighValueIsNoOp | packages/stellar/src/multisig.ts:87-91 | the envelope leaves the account's options unchanged |
| Multisig.EmptySetOptionsDoesNotForce | packages/stellar/src/multisig.ts:84-87 | with an empty setOptions one signature would do |
| PaymentSubmission.BadSeqIsDead | packages/stellar/src/payment.ts:77-81 | tx_bad_seq means too late, never too early |
| PaymentSubmission.ExactlyOnce | packages/stellar/src/payment.ts:42-115 | at most one of a call's transactions is applied, exactly one after success, none after a sequence conflict, within the attempt bound |
| PaymentSubmission.BadSeqNeverLands | packages/stellar/src/payment.ts:48-81 | an attempt that ended in tx_bad_seq is never applied later, replays included |
| PaymentSubmission.DifferentParamsDifferentPayments | packages/stellar/src/payment.ts:55-72 | calls with different source, operations or memo never share an applied transaction |
| PaymentSubmission.EqualParamsMayShareAPayment | packages/stellar/src/payment.ts:52-76 | calls with equal parameters may: two successes, one payment |
| PaymentSubmission.ClearTurnPays | packages/stellar/src/payment.ts:52-76 | an attempt that nobody interferes with, from an account whose key suffices, puts its payment on the ledger and is answered with success |
| PaymentSubmission.OvertakenTurnConflicts | packages/stellar/src/payment.ts:77-81 | an attempt overtaken between loading and submitting pays nothing and is answered with tx_bad_seq |
| PaymentSubmission.Horizon.SubmitTransaction | packages/stellar/src/payment.ts:103-107 | the exact answer: success if the transaction is on the ledger then, tx_bad_seq if it is not and its number has passed; an accepted envelope gets its verdict, and a replay changes nothing |
| PaymentSubmission.Horizon.Attempt | packages/stellar/src/payment.ts:51-77 | one turn of the loop, in full: what it builds from the loaded account with which memo and window, how that fares, what is answered; one load, send and reply of the protocol |
| PaymentSubmission.Horizon.SubmitPayment | packages/stellar/src/payment.ts:42-85 | goes on exactly as long as attempts are answered with tx_bad_seq and the bound allows, so the first attempt that nobody interferes with pays; all attempts but the last are dead, success has paid, conflict has not and cannot |
| PaymentSubmission.Horizon.ResubmitPayment | packages/stellar/src/payment.ts:98-115 | replays a failed call's envelope without paying twice |
| PaymentsService.GateIsExact | apps/api/src/modules/payments/payments.service.ts:198-220 | the gate catches every plain native payment above the threshold unless an asset code comes without an issuer |
| PaymentsService.IdempotencyKeySafety | apps/api/src/modules/payments/payments.service.ts:116-286 | one row per key, one engine call per key, and every send that returns for a key returns that row |
| PaymentsService.EnvelopeExactlyWhilePending | apps/api/src/modules/payments/transaction.repository.ts:98-139 | a row holds an envelope exactly while PENDING_SIGNATURE; open statuses are never re-entered |
| PaymentEngine.OnePaymentPerKey | packages/stellar/src/payment.ts:48-81 | end to end: of all transactions built for the rows of one key, at most one is ever on the ledger |
| PaymentEngine.BoundedAttempts | apps/api/src/modules/payments/payments.service.ts:157-176 | no more are built than the attempt bound, and one for a path payment |
| PaymentRequests.NothingUnaskedIsPaid | apps/api/src/modules/payments/payments.service.ts:116-275 | whatever the interleaving, a transaction on the ledger carries out one send of the run, with its account, recipient, asset, amount and memo, or sets up the account of a high-value one |
| PaymentRequests.RowsPayWhatTheirKeyAsked | apps/api/src/modules/payments/payments.service.ts:132-176 | what is built for a row, or stored with it, carries out a send under the key of that row |
| PaymentApproval.UndisturbedSendPays | apps/api/src/modules/payments/payments.service.ts:132-183 | left alone, a new ordinary send puts exactly the payment it asks for on the ledger, to that recipient, in that asset and amount, and returns its SUCCESS row |
| PaymentFinality.ClosedRowIsFinalExactly | apps/api/src/modules/payments/payments.service.ts:157-366 | a closed row keeps its value under every continuation exactly when no live call can truthfully come to another status |
| PaymentGate.OptionsAfter | packages/stellar/src/multisig.ts:48-56 | no envelope of the service undoes an account's configuration |
| PaymentGate.AcceptedIsCoSigned | apps/api/src/modules/payments/payments.service.ts:325-329 | the partially signed envelope is never valid to submit |
| PaymentGate.HighValueGate | apps/api/src/modules/payments/payments.service.ts:208-323 | a plain native payment above the threshold is on the ledger only after its row was approved |
| PaymentGate.ApprovedAtMostOnce | apps/api/src/modules/payments/payments.service.ts:293-323 | and at most once, however often it is approved |
| PaymentGate.ConfigurationNeedsFresh | packages/stellar/src/multisig.ts:39-67 | a configuration in flight can only be applied to an account that is not configured |
| PaymentGate.ConfiguringReturnsExactly | apps/api/src/modules/payments/payments.service.ts:243-256 | a send that found no flag can return exactly if its account exists and is not configured yet |
| PaymentApproval.UndisturbedHighValueSend | apps/api/src/modules/payments/payments.service.ts:232-275 | from any reachable state, a high-value send left alone leaves a row that awaits its signature, with an envelope built just now that pays what was asked for |
| PaymentApproval.ApprovalPays | packages/stellar/src/multisig.ts:140-153 | in every reachable state the co-signed envelope is acceptable exactly while its number is next and its window open, and approving then pays |
| PaymentApproval.PayableExactly | packages/stellar/src/multisig.ts:102-124 | exactly when the payment of a waiting row can still reach the ledger in any continuation |
| PaymentApproval.LateApprovalFails | packages/stellar/src/fees.ts:4 | thirty-one seconds later an approval leaves the row FAILED and the payment never lands |
| PaymentApproval.OrdinarySendSpoilsEnvelope | packages/stellar/src/multisig.ts:98-124 | one ordinary send of the account makes the waiting envelope unpayable |
| PaymentReports.StoredSuccessIsPaid | apps/api/src/modules/payments/payments.service.ts:293-323 | a row created with an envelope that is SUCCESS has its payment on the ledger |
| PaymentReports.LastReportStands | apps/api/src/modules/payments/payments.service.ts:293-341 | whatever the admins do, such a row says what the last report said |
| PaymentReports.ApprovalReportedExactly | apps/api/src/modules/payments/payments.service.ts:293-323 | touched by one admin, it is SUCCESS exactly if there was an approval and it did not give up |
| PaymentReports.RacingAdminsOverwrite | apps/api/src/modules/payments/payments.service.ts:293-341 | two admins at once can overwrite SUCCESS with FAILED although the payment is on the ledger |
| PaymentReports.EqualRowsShareAPayment | apps/api/src/modules/payments/payments.service.ts:259-275 | equal terms built at the same moment give two SUCCESS rows and one payment |
| Repositories.TransactionRepository.Create | apps/api/src/modules/payments/transaction.repository.ts:73-112 | unique key; the envelope decides the birth status |
| Repositories.TransactionRepository.UpdateStatus | apps/api/src/modules/payments/transaction.repository.ts:114-139 | writes the status and clears the envelope on request, nothing else |
| Repositories.EscrowRepository.UpdateStatus | apps/api/src/modules/payments/escrow.repository.ts:81-102 | writes exactly the fields given |
| Repositories.EscrowRepository.Create | apps/api/src/modules/payments/escrow.repository.ts:57-79 | unique key; a new row is PENDING and names nothing |
| EscrowDesk.Wait | packages/stellar/src/escrow.ts:118-140 | an answer means that the call landed with success; a prompt landing with no lost poll is always answered |
| EscrowDesk.Desk.SubmitAndWait | packages/stellar/src/escrow.ts:90-141 | submitting and waiting are the segments of the machine; answered only if executed with success |
| EscrowDesk.Desk.DepositForUser | apps/api/src/modules/payments/escrow.service.ts:53-118 | its history is a run; a known key changes nothing; the new row is PENDING without a wallet; LOCKED if the service heard of the deposit, naming the new escrow, which has the terms asked for and falls due the requested number of ledgers later; else FAILED; unless it gave up on a deposit that landed, every success of the service stays in the table |
| EscrowDesk.Desk.FinaliseForUser | apps/api/src/modules/payments/escrow.service.ts:120-191 | its history is a run; only a LOCKED row submits; it turns RELEASED exactly when the service heard that its payee was paid by its release, and REFUNDED when its payer was by its refund; unless it gave up on a payout that landed, every success of the service stays in the table |
| PaymentsDesk.Desk.SendPayment | apps/api/src/modules/payments/payments.service.ts:116-196 | its history is a run; throws without a quote; a known key changes nothing; a new ordinary send returns exactly if wallet, account and submission are good, and then the ledger has one more entry, the payment asked for, field by field; the row records what was asked for and is SUCCESS exactly if the call returns |
| PaymentsDesk.Desk.SendHighValuePayment | apps/api/src/modules/payments/payments.service.ts:232-286 | a row awaiting its signature is stored exactly when the account is flagged, or not configured yet and configured now, and the envelope is built; the envelope pays what was asked for and has the account's signature alone |
| PaymentsDesk.ConfigurationOutcome | packages/stellar/src/multisig.ts:39-67 | in every reachable state, configuring an account succeeds exactly if it exists and is not configured, when the submission goes through |
| PaymentsDesk.LimitsKeepQuote | packages/stellar/src/path-payment.ts:146-168 | one side of a path payment is exactly the amount asked for, the other the quote with the tolerance, rounded to the stroop |
| PaymentsDesk.Desk.ApprovePendingSignature | apps/api/src/modules/payments/payments.service.ts:293-323 | only a row awaiting its signature is written, once; its envelope with the admin's signature added is submitted, and the row is SUCCESS exactly if that was answered and is on the ledger with success |
| PaymentsDesk.Desk.RejectPendingSignature | apps/api/src/modules/payments/payments.service.ts:330-341 | only a row awaiting its signature is written, once |
| PaymentsDesk.Desk.ReconcileTransaction | apps/api/src/modules/payments/payments.service.ts:586-669 | only a PENDING row is written: FAILED without its account, else SUCCESS if a record of the page pays its recipient the expected amount in the asset it waits for, else NEEDS_REVIEW past the escalation window |
| PaymentsDesk.Desk.ResolveStreamEvent | apps/api/src/modules/payments/payments.service.ts:756-794 | the first PENDING row of the account that the event fulfils, by recipient, asset and amount, is written, once |
| PaymentsDesk.OwnPaymentReconciles | apps/api/src/modules/payments/payments.service.ts:602-629 | a page with a row's own landed payment fulfils the row exactly if the recipient received what was sent or quoted |
| SseParser.BlocksAppend | apps/mobile/src/services/payments-client.ts:125-130 | parsing a text is parsing a prefix, then its tail with the rest |
| SseParser.SplitThenJoin | apps/mobile/src/services/payments-client.ts:127-130 | cutting at leftmost blank lines loses nothing |
| SseParser.JoinThenSplit | apps/mobile/src/services/payments-client.ts:127-130 | and is the only way to take the text apart into such blocks |
| SseParser.LinesThenJoin | apps/mobile/src/services/payments-client.ts:131 | the lines of a block hold no line break and put together again they are the block |
| SseParser.JoinThenLines | apps/mobile/src/services/payments-client.ts:131 | and are the only way to take it apart like that |
| SseParser.FirstDataLine | apps/mobile/src/services/payments-client.ts:131 | the line that is read is the first one in the block that starts with data:, up to its end, and there is none only if no line starts so |
| SseParser.FramedMessagesArrive | apps/mobile/src/services/payments-client.ts:129-134 | framed messages arrive one for one and in order, whatever other lines stand before and after them in their blocks |
| SseParser.Handle | apps/mobile/src/services/payments-client.ts:131-152 | hands on at most one transaction, and exactly the one that the first line starting with data: bears, wherever in the block it is; heartbeats, pings and malformed payloads bear none |
| SseParser.Drain | apps/mobile/src/services/payments-client.ts:127-154 | the inner loop empties the buffer of complete blocks and keeps the tail |
| SseParser.Subscribe | apps/mobile/src/services/payments-client.ts:116-160 | for every way of cutting the text, delivers the transactions of the whole text; reports an error only if not closed |
| HorizonStream.GapFree | packages/stellar/src/streaming.ts:76-119 | onEvent receives a contiguous, duplicate-free segment of the log from the cursor on; one open stream or one timer until closed |
| HorizonStream.ClosedIsFinal | packages/stellar/src/streaming.ts:111-117 | after close nothing is delivered and nothing opens |
| HorizonStream.NothingIsLost | packages/stellar/src/streaming.ts:69-75 | from every open state the pending reconnect and the missing deliveries hand on the whole log from the cursor, or the first event delivered, or else the place Horizon starts at |
| HorizonStream.ColdReconnectSkips | packages/stellar/src/streaming.ts:82-104 | with no cursor and nothing delivered, a reconnect can skip events |
| HorizonStream.PaymentStream.ConnectNow | packages/stellar/src/streaming.ts:82-92 | resumes just after the last delivered token |
| HorizonStream.PaymentStream.OnMessage | packages/stellar/src/streaming.ts:93-97 | advances the cursor with every delivery |
| HorizonStream.PaymentStream.OnError | packages/stellar/src/streaming.ts:98-104 | closes the stream and schedules one reconnect unless closed |
| HorizonStream.PaymentStream.CloseHandle | packages/stellar/src/streaming.ts:111-117 | cancels the timer and closes the stream |
| Amounts.ParsePrint | apps/api-py/src/modules/payments/normalize.py:18-20 | printing then parsing any stroop count is the identity |
| Amounts.ParseExactly | apps/api-py/src/modules/payments/normalize.py:13-16 | which texts are amounts, and of which value: digits, or digits around one point |
| Amounts.AcceptedIsGrammar | packages/shared/src/validation/payments.schema.ts:11-15 | the request grammar: digits, or digits, a point and one to seven digits |
| Amounts.PrintForm | apps/api-py/src/modules/payments/normalize.py:18-20 | how an amount is written: whole units without leading zeros, a point, seven decimals |
| Amounts.NormalizeIdempotent | apps/api-py/src/modules/payments/normalize.py:4-20 | a normalised amount is its own normal form |
| Amounts.QuantizeNearest | apps/api-py/src/modules/payments/normalize.py:19 | rounding is within half a stroop, ties up |
| Amounts.NormalizeIsNearest | apps/api-py/src/modules/payments/normalize.py:4-20 | the result is n stroops exactly when n is nearest with ties up |
| Amounts.AcceptedKeepsValue | apps/api-py/src/modules/payments/validators.py:12 | on the accepted grammar the value does not change |
| Amounts.NormalizeDecidesEquality | apps/api-py/src/modules/payments/normalize.py:4-20 | two accepted amounts normalise alike exactly when they are equal numbers |
| PaymentMatcher.WellFormedAgreement | apps/api/src/modules/payments/payments.service.ts:651-661 | on well-formed records both matchers accept the same rows |
| PaymentMatcher.AgreementExactly | apps/api/src/modules/payments/payments.service.ts:772-785 | exactly the records on which they agree for every stored row |
| PaymentMatcher.OwnRecordExactly | apps/api/src/modules/payments/payments.service.ts:646-661 | both matchers recognise a row's own landed payment exactly if the recipient received the expected amount |
| PaymentMatcher.AssetExactly | apps/api/src/modules/payments/payments.service.ts:678-704 | apart from amounts, accepted records are exactly those that pay the row's recipient, not before the row, in the receive asset if it has one and else in the asset sent, code and issuer alike |
| PaymentMatcher.AcceptedExactly | apps/api/src/modules/payments/payments.service.ts:646-661 | exactly the records that each matcher accepts for a stored row, by recipient, asset, number of stroops, and how the amount is written |
| PaymentMatcher.FindMatchingPayment | apps/api/src/modules/payments/payments.service.ts:632-669 | polling returns the first acceptable record of the page, or nothing; it pays the row's recipient in the asset the row waits for |
| PaymentMatcher.ResolveStreamEvent | apps/api/src/modules/payments/payments.service.ts:756-790 | the stream picks the first pending row the event fulfils, by recipient and asset |
| Slippage.IncreaseIsLeast | packages/stellar/src/path-payment.ts:26-31 | sendMax is the least stroop count at or above a(1+b) |
| Slippage.ReduceIsNearest | packages/stellar/src/path-payment.ts:21-24 | destMin is the nearest stroop count to a(1-b), ties up |
| Slippage.ReduceIsFloorExactly | packages/stellar/src/path-payment.ts:21 | exactly when that is the floor the comment promises |
| Slippage.ToleranceLoosens | packages/stellar/src/path-payment.ts:154-171 | destMin is at most the quote and sendMax at least, and more tolerance never tightens either |
| Slippage.ReduceMonotone | packages/stellar/src/path-payment.ts:22-24 | monotone in the amount |
| Slippage.IncreaseMonotone | packages/stellar/src/path-payment.ts:27-31 | monotone in the amount |
| Slippage.ReduceAfterIncrease | packages/stellar/src/path-payment.ts:21-31 | reducing an increased amount lands between a(1-b^2) less half a stroop and a+1 |
| CircuitBreaker.BreakerIsItsHistory | apps/api-py/src/modules/payments/anchor_service.py:96-134 | CLOSED exactly below three failures since the last success; OPEN knows its last failure; a failed probe reopens |
| CircuitBreaker.RefusedExactly | apps/api-py/src/modules/payments/anchor_service.py:98-106 | exactly which refreshes are turned away |
| CircuitBreaker.SleptClosed | apps/api-py/src/modules/payments/anchor_service.py:148-150 | n sleeps take initial * (2^n - 1) |
| CircuitBreaker.SleepBound | apps/api-py/src/modules/payments/anchor_service.py:109-150 | no call sleeps longer than one that uses all its retries |
| CircuitBreaker.SharedBreaker.Admit | apps/api-py/src/modules/payments/anchor_service.py:98-106 | an OPEN breaker admits a probe only after the timeout |
| CircuitBreaker.SharedBreaker.PollOnce | apps/api-py/src/modules/payments/anchor_service.py:111-134 | one poll counts as success or failure; a database error after an answer counts as a failure |
| CircuitBreaker.SharedBreaker.Refresh | apps/api-py/src/modules/payments/anchor_service.py:88-152 | refused refreshes poll nothing; every poll counts in the breaker's history; at most the given polls; doubling sleeps, in all at most initial * (2^(m-1) - 1); gives up only after all failed |
| AlertLatch.LatchedExactly | apps/api-py/src/core/metrics.py:32-35 | set exactly when some prefix of at least five events reached the threshold |
| AlertLatch.LatchHolds | apps/api-py/src/core/metrics.py:32-47 | only a reset clears it |
| AlertLatch.ReconciliationMetricsCollector.RecordSuccess | apps/api-py/src/core/metrics.py:16-18 | keeps the counters and the alert equal to their history |
| AlertLatch.ReconciliationMetricsCollector.RecordFailure | apps/api-py/src/core/metrics.py:20-24 | keeps the counters and the alert equal to their history |
| AlertLatch.ReconciliationMetricsCollector.CheckAlerts | apps/api-py/src/core/metrics.py:32-35 | sets the alert from a sample of five, never clears it |
| AlertLatch.ReconciliationMetricsCollector.ResetAll | apps/api-py/src/core/metrics.py:44-47 | clears counters and alert |

## Left out

- The rounding of IEEE-754 doubles in `Number(...)`, `toFixed` and Python's float division: amounts and rates are exact.
- One-to-one matching of identical pending payments: the code does not give it. It does not make closed rows final either; `PaymentFinality.dfy` says exactly when they are.
- A database write that commits while its acknowledgement is lost; it could turn a LOCKED escrow row into FAILED.
- Updating rows in place during interleaved calls: interleavings are proved on values; the two desks update tables, contract and ledger in place, one call at a time, so that their engine never meets a sequence conflict.
- Ownership checks of the callers (`getOwnedEscrow`, `getOwnedTransaction`): the services accept any caller, so the results hold for those let through.
- Provisioning and funding of accounts.
- `validatePaymentParams`, the attempt limit and the hash attached to errors in `payment.ts`: not defined in the source as it stands; the limit is a parameter.
- Price paths: the amount that Horizon quotes is arbitrary, and neither the choice of the best path, its intermediate hops, nor the ledger's two kinds of path payment are modelled; a path payment carries its two amounts.
- Storage rent, archival, and tokens that move anything but `amount`.
- UTF-8 decoding and `JSON.parse`: the parser works on decoded text, and parsing a payload is a parameter.
- Signs, exponents, special values and non-ASCII digits that Python's `Decimal` accepts.
- The Horizon stream assumes at most one error per connection and silence after it is closed; without an initial cursor the start of the stream is Horizon's choice.
- HTTP controllers, guards, request parsing, user interfaces, key management and the Python simulations of the same services.
