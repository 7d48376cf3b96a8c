/**
 `submitPayment` and `resubmitPayment` against a sequence-checked ledger. Any number of calls advance
 in atomic segments, in any order, while submitted envelopes land late, responses get lost, and
 other transactions of the same accounts compete for sequence numbers.
 */
module PaymentSubmission {
  import opened Option
  import opened StellarLedger

  datatype Params = Params(source: Key, ops: seq<Op>, memo: Option<string>)

  datatype Phase = Loading | Built | Sent | Confirmed | Conflict | Failed

  /** `past` are the transactions whose submission ended in `tx_bad_seq`, `current` the one built last. */
  datatype Call = Call(params: Params, past: seq<Tx>, current: Option<Tx>, phase: Phase)

  datatype World = World(ledger: Ledger, network: set<Envelope>, calls: seq<Call>)

  datatype Step =
    | Begin(params: Params)
    | Load(call: nat, timeout: nat)             // load the account, build and sign
    | Send(call: nat)
    | Land(envelope: Envelope, succeeded: bool)
    | Confirm(call: nat)                        // the response reports success
    | BadSeq(call: nat)                         // the response reports tx_bad_seq
    | Fail(call: nat)                           // any other error, including a lost response
    | Resubmit(call: nat)                       // replay the envelope a failed call handed out
    | Foreign(envelope: Envelope)               // somebody else submits something
    | Pass(seconds: nat)                        // time passes

  function MaxAttempts(bound: nat): nat { if bound == 0 then 1 else bound }

  /** All transactions the call has built. */
  function Attempts(c: Call): seq<Tx> {
    c.past + if c.current.Some? then [c.current.value] else []
  }

  function AttemptTx(l: Ledger, p: Params, timeout: nat): Tx
    requires p.source in l.accounts
  {
    BuildTx(l, p.source, p.ops, p.memo, timeout)
  }

  function Sign(tx: Tx): Envelope { Envelope(tx, {tx.source}) }

  function SetCall(w: World, i: nat, c: Call): World
    requires i < |w.calls|
  {
    w.(calls := w.calls[i := c])
  }

  ghost function Next(bound: nat, w: World, s: Step): World {
    match s
    case Begin(params) => w.(calls := w.calls + [Call(params, [], None, Loading)])
    case Load(i, timeout) =>
      if i < |w.calls| && w.calls[i].phase == Loading && w.calls[i].params.source in w.ledger.accounts then
        SetCall(w, i, w.calls[i].(current := Some(AttemptTx(w.ledger, w.calls[i].params, timeout)), phase := Built))
      else w
    case Send(i) =>
      if i < |w.calls| && w.calls[i].phase == Built && w.calls[i].current.Some? then
        SetCall(w, i, w.calls[i].(phase := Sent)).(network := w.network + {Sign(w.calls[i].current.value)})
      else w
    case Land(e, succeeded) => if e in w.network then w.(ledger := Apply(w.ledger, e, succeeded)) else w
    case Confirm(i) =>
      if i < |w.calls| && w.calls[i].phase == Sent && w.calls[i].current.Some? && w.ledger.Succeeded(w.calls[i].current.value)
      then SetCall(w, i, w.calls[i].(phase := Confirmed))
      else w
    case BadSeq(i) =>
      if i < |w.calls| && w.calls[i].phase == Sent && w.calls[i].current.Some?
         && InTime(w.ledger, w.calls[i].current.value)
         && !w.ledger.Has(w.calls[i].current.value) && !NextInLine(w.ledger, w.calls[i].current.value)
      then
        var past := w.calls[i].past + [w.calls[i].current.value];
        SetCall(w, i, Call(w.calls[i].params, past, None, if |past| < bound then Loading else Conflict))
      else w
    case Fail(i) =>
      if i < |w.calls| && w.calls[i].phase in {Loading, Built, Sent} then SetCall(w, i, w.calls[i].(phase := Failed)) else w
    case Resubmit(i) =>
      if i < |w.calls| && w.calls[i].phase == Failed && w.calls[i].current.Some?
      then w.(network := w.network + {Sign(w.calls[i].current.value)})
      else w
    case Foreign(e) => w.(network := w.network + {e})
    case Pass(seconds) => w.(ledger := Tick(w.ledger, seconds))
  }

  ghost function Play(bound: nat, w: World, steps: seq<Step>): World
    decreases |steps|
  {
    if steps == [] then w else Play(bound, Next(bound, w, steps[0]), steps[1..])
  }

  ghost predicate Start(w: World) {
    Sequenced(w.ledger) && w.calls == []
  }

  ghost predicate CallOk(bound: nat, l: Ledger, c: Call) {
    && (forall k :: 0 <= k < |c.past| ==> Dead(l, c.past[k]) && c.past[k].source == c.params.source)
    && (c.current.Some? ==>
          && var tx := c.current.value;
          && tx.source == c.params.source && tx.ops == c.params.ops && tx.memo == MemoOf(c.params.memo)
          && tx.source in l.accounts && tx.seqNum <= l.accounts[tx.source].seqNum + 1
          && (forall k :: 0 <= k < |c.past| ==> c.past[k] != tx))
    && (c.phase in {Built, Sent, Confirmed} ==> c.current.Some?)
    && (c.phase in {Loading, Conflict} ==> c.current.None?)
    && (c.phase == Confirmed ==> l.Succeeded(c.current.value))
    && |c.past| <= MaxAttempts(bound)
    && (c.phase == Conflict ==> |c.past| == MaxAttempts(bound))
    && (c.phase != Conflict ==> |c.past| < MaxAttempts(bound))
  }

  ghost predicate Inv(bound: nat, w: World) {
    Sequenced(w.ledger) && forall i :: 0 <= i < |w.calls| ==> CallOk(bound, w.ledger, w.calls[i])
  }

  lemma LedgerMoveKeeps(bound: nat, l: Ledger, e: Envelope, succeeded: bool, c: Call)
    requires Sequenced(l) && CallOk(bound, l, c)
    ensures CallOk(bound, Apply(l, e, succeeded), c)
  {
    var l' := Apply(l, e, succeeded);
    ApplyKeeps(l, e, succeeded);
    forall k | 0 <= k < |c.past| ensures Dead(l', c.past[k]) {
      DeadStaysDead(l, e, succeeded, c.past[k]);
    }
    if c.phase == Confirmed {
      var i :| 0 <= i < |l.applied| && l.applied[i].envelope.tx == c.current.value && l.applied[i].succeeded;
      assert l'.applied[i] == l.applied[i];
    }
  }

  /** A submission answered with `tx_bad_seq` was too late already: the loaded number cannot be too early. */
  lemma BadSeqIsDead(bound: nat, l: Ledger, c: Call)
    requires Sequenced(l) && CallOk(bound, l, c) && c.current.Some?
    requires !l.Has(c.current.value) && !NextInLine(l, c.current.value)
    ensures Dead(l, c.current.value)
  {
  }

  lemma LandKeeps(bound: nat, w: World, e: Envelope, succeeded: bool)
    requires Inv(bound, w)
    ensures Inv(bound, w.(ledger := Apply(w.ledger, e, succeeded)))
  {
    ApplyKeeps(w.ledger, e, succeeded);
    forall i | 0 <= i < |w.calls| ensures CallOk(bound, Apply(w.ledger, e, succeeded), w.calls[i]) {
      LedgerMoveKeeps(bound, w.ledger, e, succeeded, w.calls[i]);
    }
  }

  lemma PassKeeps(bound: nat, w: World, seconds: nat)
    requires Inv(bound, w)
    ensures Inv(bound, w.(ledger := Tick(w.ledger, seconds)))
  {
    TickLater(w.ledger, seconds);
    forall i | 0 <= i < |w.calls| ensures CallOk(bound, Tick(w.ledger, seconds), w.calls[i]) {
      assert CallOk(bound, w.ledger, w.calls[i]);
    }
  }

  lemma BadSeqKeeps(bound: nat, w: World, i: nat)
    requires Inv(bound, w)
    ensures Inv(bound, Next(bound, w, BadSeq(i)))
  {
    if Next(bound, w, BadSeq(i)) != w {
      BadSeqIsDead(bound, w.ledger, w.calls[i]);
    }
  }

  lemma NextKeeps(bound: nat, w: World, s: Step)
    requires Inv(bound, w)
    ensures Inv(bound, Next(bound, w, s))
  {
    if s.Land? {
      if s.envelope in w.network {
        LandKeeps(bound, w, s.envelope, s.succeeded);
      }
    } else if s.Pass? {
      PassKeeps(bound, w, s.seconds);
    } else if s.BadSeq? {
      BadSeqKeeps(bound, w, s.call);
    }
  }

  lemma {:induction false} PlayKeeps(bound: nat, w: World, steps: seq<Step>)
    requires Inv(bound, w)
    ensures Inv(bound, Play(bound, w, steps))
    decreases |steps|
  {
    if steps != [] {
      NextKeeps(bound, w, steps[0]);
      PlayKeeps(bound, Next(bound, w, steps[0]), steps[1..]);
    }
  }

  // ---------- main results ----------

  /**
   Over any interleaving of calls, replays and foreign traffic: the ledger holds no transaction twice,
   holds at most one of the transactions a call has built, and holds one, with its operations
   applied, if the call returned normally. A call builds at most `bound` transactions (one if the
   bound is 0).
   */
  lemma ExactlyOnce(bound: nat, w0: World, steps: seq<Step>, c: nat)
    requires Start(w0) && c < |Play(bound, w0, steps).calls|
    ensures var w := Play(bound, w0, steps);
            var call := w.calls[c];
            && (forall i, j | 0 <= i < |w.ledger.applied| && 0 <= j < |w.ledger.applied| ::
                  w.ledger.applied[i].envelope.tx in Attempts(call) && w.ledger.applied[j].envelope.tx in Attempts(call)
                  ==> i == j)
            && (call.phase == Confirmed ==> call.current.Some? && w.ledger.Succeeded(call.current.value))
            && (call.phase == Conflict ==> forall tx :: tx in Attempts(call) ==> !w.ledger.Has(tx))
            && |Attempts(call)| <= MaxAttempts(bound)
  {
    PlayKeeps(bound, w0, steps);
    var w := Play(bound, w0, steps);
    var call := w.calls[c];
    assert CallOk(bound, w.ledger, call);
    forall i, j | 0 <= i < |w.ledger.applied| && 0 <= j < |w.ledger.applied|
                  && w.ledger.applied[i].envelope.tx in Attempts(call)
                  && w.ledger.applied[j].envelope.tx in Attempts(call)
      ensures i == j
    {
      NotPast(bound, w.ledger, call, i);
      NotPast(bound, w.ledger, call, j);
      AppliedOnce(w.ledger, i, j);
    }
  }

  /** Whatever is applied of a call's transactions is the one it built last. */
  lemma NotPast(bound: nat, l: Ledger, c: Call, i: nat)
    requires CallOk(bound, l, c) && i < |l.applied| && l.applied[i].envelope.tx in Attempts(c)
    ensures c.current == Some(l.applied[i].envelope.tx)
  {
    var tx := l.applied[i].envelope.tx;
    assert l.Has(tx);
    forall k | 0 <= k < |c.past| ensures c.past[k] != tx {
      assert !l.Has(c.past[k]);
    }
  }

  /** A transaction that ended in `tx_bad_seq` is not applied, and no later replay can apply it. */
  lemma BadSeqNeverLands(bound: nat, w0: World, steps: seq<Step>, more: seq<Step>, c: nat, k: nat)
    requires Start(w0) && c < |Play(bound, w0, steps).calls| && k < |Play(bound, w0, steps).calls[c].past|
    ensures !Play(bound, Play(bound, w0, steps), more).ledger.Has(Play(bound, w0, steps).calls[c].past[k])
  {
    PlayKeeps(bound, w0, steps);
    var w := Play(bound, w0, steps);
    assert CallOk(bound, w.ledger, w.calls[c]);
    DeadForEver(bound, w, more, w.calls[c].past[k]);
  }

  lemma {:induction false} DeadForEver(bound: nat, w: World, steps: seq<Step>, tx: Tx)
    requires Inv(bound, w) && Dead(w.ledger, tx)
    ensures Dead(Play(bound, w, steps).ledger, tx)
    decreases |steps|
  {
    if steps != [] {
      NextKeeps(bound, w, steps[0]);
      if steps[0].Land? {
        DeadStaysDead(w.ledger, steps[0].envelope, steps[0].succeeded, tx);
      }
      DeadForEver(bound, Next(bound, w, steps[0]), steps[1..], tx);
    }
  }

  /** Source, operations and memo of what a call builds. */
  function Identity(p: Params): (Key, seq<Op>, Option<string>) { (p.source, p.ops, MemoOf(p.memo)) }

  /** Calls that differ in source, operations or memo never stand for the same applied transaction. */
  lemma DifferentParamsDifferentPayments(bound: nat, w0: World, steps: seq<Step>, c: nat, d: nat)
    requires Start(w0) && c < |Play(bound, w0, steps).calls| && d < |Play(bound, w0, steps).calls|
    requires Identity(Play(bound, w0, steps).calls[c].params) != Identity(Play(bound, w0, steps).calls[d].params)
    ensures var w := Play(bound, w0, steps);
            forall i :: 0 <= i < |w.ledger.applied| ==>
                          !(w.ledger.applied[i].envelope.tx in Attempts(w.calls[c])
                            && w.ledger.applied[i].envelope.tx in Attempts(w.calls[d]))
  {
    PlayKeeps(bound, w0, steps);
    var w := Play(bound, w0, steps);
    assert CallOk(bound, w.ledger, w.calls[c]) && CallOk(bound, w.ledger, w.calls[d]);
    forall i | 0 <= i < |w.ledger.applied| && w.ledger.applied[i].envelope.tx in Attempts(w.calls[c])
               && w.ledger.applied[i].envelope.tx in Attempts(w.calls[d])
      ensures false
    {
      NotPast(bound, w.ledger, w.calls[c], i);
      NotPast(bound, w.ledger, w.calls[d], i);
    }
  }

  /**
   Equal parameters are the exact exception: two such calls that load the account at the same moment
   build one and the same transaction, so both return normally and one payment is made.
   */
  lemma EqualParamsMayShareAPayment(bound: nat, w0: World, p: Params, timeout: nat)
    requires Start(w0) && p.source in w0.ledger.accounts
    requires Authorised(w0.ledger.accounts[p.source].options, Sign(AttemptTx(w0.ledger, p, timeout)))
    ensures var tx := AttemptTx(w0.ledger, p, timeout);
            var steps := [Begin(p), Begin(p)] + ([Load(0, timeout), Load(1, timeout)] + ([Send(0), Send(1)]
                         + ([Land(Sign(tx), true), Confirm(0)] + ([Confirm(1), Confirm(1)] + []))));
            var w := Play(bound, w0, steps);
            && |w.calls| == 2 && w.calls[0].phase == Confirmed && w.calls[1].phase == Confirmed
            && w.ledger.applied == w0.ledger.applied + [Entry(Sign(tx), true)]
  {
    var tx := AttemptTx(w0.ledger, p, timeout);
    var l, net := w0.ledger, w0.network + {Sign(tx)};
    var built, sent, done := Call(p, [], Some(tx), Built), Call(p, [], Some(tx), Sent), Call(p, [], Some(tx), Confirmed);
    var w2 := w0.(calls := [Call(p, [], None, Loading), Call(p, [], None, Loading)]);
    PlayTwo(bound, w0, Begin(p), Begin(p), w2);
    var w4 := w0.(calls := [built, built]);
    PlayTwo(bound, w2, Load(0, timeout), Load(1, timeout), w4);
    var w6 := World(l, net, [sent, sent]);
    PlayTwo(bound, w4, Send(0), Send(1), w6);
    var l' := Apply(l, Sign(tx), true);
    assert l'.applied[|l.applied|] == Entry(Sign(tx), true);
    assert l'.Succeeded(tx);
    PlayTwo(bound, w6, Land(Sign(tx), true), Confirm(0), World(l', net, [done, sent]));
    PlayTwo(bound, World(l', net, [done, sent]), Confirm(1), Confirm(1), World(l', net, [done, done]));
  }

  lemma PlayTwo(bound: nat, w: World, s: Step, t: Step, w': World)
    requires Next(bound, Next(bound, w, s), t) == w'
    ensures forall rest :: Play(bound, w, [s, t] + rest) == Play(bound, w', rest)
  {
    forall rest ensures Play(bound, w, [s, t] + rest) == Play(bound, w', rest) {
      assert ([s, t] + rest)[1..] == [t] + rest;
      assert ([t] + rest)[1..] == rest;
    }
  }

  // ---------- the retry loop in the source's own form ----------

  datatype Reply = Success(tx: Tx) | BadSequence | Error

  /** What the network does around one attempt: who gets in before and between, and what becomes of the request. */
  datatype Turn = Turn(before: seq<Entry>, between: seq<Entry>, timeout: nat, delay: nat,
                       delivered: bool, succeeded: bool, answered: bool)
  {
    /** Nobody gets in, the envelope arrives in time and is answered. */
    predicate Undisturbed() { before == [] && between == [] && delay <= timeout && delivered && succeeded && answered }
  }

  function TurnAt(turns: seq<Turn>, k: nat): Turn {
    if k < |turns| then turns[k] else Turn([], [], DEFAULT_TIMEOUT, 0, true, true, true)
  }

  /** The ledger after other envelopes have reached it. */
  function After(l: Ledger, others: seq<Entry>): Ledger {
    if others == [] then l
    else
      var last := others[|others| - 1];
      Apply(After(l, others[..|others| - 1]), last.envelope, last.succeeded)
  }

  /** Built for `p` when the account was as `l` has it, and signed by its key alone. */
  predicate BuiltFor(l: Ledger, p: Params, timeout: nat, e: Envelope) {
    && p.source in l.accounts
    && e.tx.source == p.source && e.tx.ops == p.ops && CarriesMemo(e.tx, p.memo) && e.signers == {p.source}
    && e.tx.seqNum == l.accounts[p.source].seqNum + 1 && e.tx.maxTime == l.closeTime + timeout
  }

  /** What Horizon makes of an envelope that meets ledger `l` and leaves it as `l'`. */
  predicate Answers(l: Ledger, e: Envelope, t: Turn, l': Ledger, r: Reply) {
    && l' == (if t.delivered then Apply(l, e, t.succeeded) else l)
    && (r.Success? <==> t.delivered && t.answered && l'.Succeeded(e.tx))
    && (r.Success? ==> r.tx == e.tx)
    && (r.BadSequence? <==> t.delivered && t.answered && InTime(l, e.tx) && !NextInLine(l, e.tx) && !l.Has(e.tx))
  }

  /** One turn of the loop, from ledger `l` to ledger `l'`: what is built, how it fares, and what is answered. */
  predicate OneTurn(p: Params, t: Turn, l: Ledger, l': Ledger, tx: Option<Tx>, r: Reply) {
    var loaded := After(l, t.before);
    if p.source !in loaded.accounts then tx.None? && l' == loaded && r == Error
    else
      && tx.Some? && BuiltFor(loaded, p, t.timeout, Envelope(tx.value, {p.source}))
      && Answers(Tick(After(loaded, t.between), t.delay), Envelope(tx.value, {p.source}), t, l', r)
  }

  /** An account that the ledger has can pay with its own key, and nobody interferes. */
  predicate Clear(p: Params, t: Turn, l: Ledger, tx: Option<Tx>) {
    && t.Undisturbed() && p.source in l.accounts
    && tx.Some? && Authorised(l.accounts[p.source].options, Envelope(tx.value, {p.source}))
  }

  /** Left alone, an attempt pays. */
  lemma ClearTurnPays(p: Params, t: Turn, l: Ledger, l': Ledger, tx: Option<Tx>, r: Reply)
    requires OneTurn(p, t, l, l', tx, r) && Clear(p, t, l, tx)
    ensures r == Success(tx.value) && l'.applied == l.applied + [Entry(Envelope(tx.value, {p.source}), true)]
  {
    var e, met := Envelope(tx.value, {p.source}), Tick(l, t.delay);
    assert Accepts(met, e);
    assert l' == Apply(met, e, true);
    assert l'.applied[|l.applied|] == Entry(e, true);
  }

  /** The turns of the loop so far: every attempt in its turn, and all but the last answered with `tx_bad_seq`. */
  ghost predicate Turns(p: Params, turns: seq<Turn>, ledgers: seq<Ledger>, attempts: seq<Tx>, replies: seq<Reply>) {
    && |ledgers| == |replies| + 1
    && (forall k :: 0 <= k < |replies| - 1 ==> replies[k] == BadSequence)
    && forall k :: 0 <= k < |replies| ==>
                     OneTurn(p, TurnAt(turns, k), ledgers[k], ledgers[k + 1], if k < |attempts| then Some(attempts[k]) else None, replies[k])
  }

  lemma OneMoreTurn(p: Params, turns: seq<Turn>, ledgers: seq<Ledger>, attempts: seq<Tx>, replies: seq<Reply>,
                    l: Ledger, tx: Option<Tx>, r: Reply)
    requires Turns(p, turns, ledgers, attempts, replies) && |attempts| == |replies|
    requires replies != [] ==> replies[|replies| - 1] == BadSequence
    requires OneTurn(p, TurnAt(turns, |replies|), ledgers[|replies|], l, tx, r)
    ensures Turns(p, turns, ledgers + [l], attempts + (if tx.Some? then [tx.value] else []), replies + [r])
  {
  }

  /** The first attempt that nobody interferes with pays, and ends the loop. */
  lemma ClearTurnEnds(p: Params, turns: seq<Turn>, ledgers: seq<Ledger>, attempts: seq<Tx>, replies: seq<Reply>, k: nat)
    requires Turns(p, turns, ledgers, attempts, replies) && k < |attempts| <= |replies|
    requires Clear(p, TurnAt(turns, k), ledgers[k], Some(attempts[k]))
    ensures k == |replies| - 1 && replies[k] == Success(attempts[k])
  {
    ClearTurnPays(p, TurnAt(turns, k), ledgers[k], ledgers[k + 1], Some(attempts[k]), replies[k]);
  }

  /** An attempt that somebody overtakes between loading and submitting is told so, and pays nothing. */
  lemma OvertakenTurnConflicts(p: Params, t: Turn, l: Ledger, l': Ledger, tx: Option<Tx>, r: Reply, other: Entry)
    requires Sequenced(l) && OneTurn(p, t, l, l', tx, r) && tx.Some?
    requires t.before == [] && t.between == [other] && t.delay <= t.timeout && t.delivered && t.answered
    requires Accepts(l, other.envelope) && other.envelope.tx.source == p.source && other.envelope.tx != tx.value
    ensures r == BadSequence && l'.applied == l.applied + [other]
  {
    assert t.between[..0] == [] && After(l, []) == l;
    var overtaken := Apply(l, other.envelope, other.succeeded);
    assert After(l, t.between) == overtaken;
    forall k | 0 <= k < |overtaken.applied| ensures overtaken.applied[k].envelope.tx != tx.value {
      assert k < |l.applied| ==> overtaken.applied[k] == l.applied[k];
    }
  }

  ghost predicate StillDead(l: Ledger, l': Ledger) {
    forall tx :: Dead(l, tx) ==> Dead(l', tx)
  }

  lemma {:induction false} PlaySnoc(bound: nat, w: World, steps: seq<Step>, s: Step)
    ensures Play(bound, w, steps + [s]) == Next(bound, Play(bound, w, steps), s)
    decreases |steps|
  {
    if steps == [] {
      assert Play(bound, w, [s]) == Play(bound, Next(bound, w, s), [s][1..]);
    } else {
      assert (steps + [s])[1..] == steps[1..] + [s];
      PlaySnoc(bound, Next(bound, w, steps[0]), steps[1..], s);
    }
  }

  /** On the ledger, an envelope it accepts has just the verdict it was given. */
  lemma VerdictIsRecorded(l: Ledger, e: Envelope, succeeded: bool)
    requires Sequenced(l)
    ensures Apply(l, e, succeeded).Has(e.tx) <==> l.Has(e.tx) || Accepts(l, e)
    ensures Accepts(l, e) ==> (Apply(l, e, succeeded).Succeeded(e.tx) <==> succeeded)
  {
    var l' := Apply(l, e, succeeded);
    if Accepts(l, e) {
      assert l'.applied[|l.applied|] == Entry(e, succeeded);
    }
  }

  /** What the network and the client make of an attempt: the call's phase says how it ended. */
  predicate Ends(r: Reply, c: Call) {
    match r
    case Success(tx) => c.phase == Confirmed && c.current == Some(tx)
    case BadSequence => c.phase == Conflict
    case Error => c.phase == Failed
  }

  /** The ledger as one client sees it. Every call logs its segments, so the history is a run of the protocol. */
  class Horizon {
    const bound: nat
    var ledger: Ledger
    ghost var start: World
    ghost var trace: seq<Step>

    ghost function Now(): World
      reads this
    {
      Play(bound, start, trace)
    }

    ghost predicate Valid()
      reads this
    {
      Start(start) && Sequenced(ledger) && ledger == Now().ledger
    }

    constructor (bound: nat, ledger: Ledger)
      requires Sequenced(ledger)
      ensures Valid() && this.bound == bound && this.ledger == ledger && trace == [] && Now().calls == []
    {
      this.bound, this.ledger := bound, ledger;
      start, trace := World(ledger, {}, []), [];
    }

    ghost method Log(s: Step)
      modifies this`trace
      ensures trace == old(trace) + [s] && Now() == Next(bound, old(Now()), s)
    {
      PlaySnoc(bound, start, trace, s);
      trace := trace + [s];
    }

    /** The ledger meets an envelope that is on the network. */
    method Meet(e: Envelope, succeeded: bool)
      requires Valid() && e in Now().network
      modifies this`ledger, this`trace
      ensures Valid() && old(trace) <= trace && ledger == Apply(old(ledger), e, succeeded)
      ensures Now() == old(Now()).(ledger := ledger)
      ensures Grows(old(ledger), ledger) && StillDead(old(ledger), ledger)
    {
      ApplyKeeps(ledger, e, succeeded);
      forall tx | Dead(ledger, tx) ensures Dead(Apply(ledger, e, succeeded), tx) {
        DeadStaysDead(ledger, e, succeeded, tx);
      }
      ledger := Apply(ledger, e, succeeded);
      Log(Land(e, succeeded));
    }

    /** Other transactions land. */
    method Interfere(others: seq<Entry>)
      requires Valid()
      modifies this`ledger, this`trace
      ensures Valid() && old(trace) <= trace && Now().calls == old(Now()).calls && old(Now()).network <= Now().network
      ensures ledger == After(old(ledger), others) && Grows(old(ledger), ledger) && StillDead(old(ledger), ledger)
    {
      for i := 0 to |others|
        invariant Valid() && old(trace) <= trace && Now().calls == old(Now()).calls && old(Now()).network <= Now().network
        invariant ledger == After(old(ledger), others[..i]) && Grows(old(ledger), ledger) && StillDead(old(ledger), ledger)
      {
        assert others[..i + 1][..i] == others[..i];
        Log(Foreign(others[i].envelope));
        Meet(others[i].envelope, others[i].succeeded);
      }
      assert others[..|others|] == others;
    }

    method Wait(seconds: nat)
      requires Valid()
      modifies this`ledger, this`trace
      ensures Valid() && old(trace) <= trace && Now() == old(Now()).(ledger := ledger)
      ensures ledger == Tick(old(ledger), seconds) && Grows(old(ledger), ledger) && StillDead(old(ledger), ledger)
    {
      ledger := Tick(ledger, seconds);
      Log(Pass(seconds));
    }

    /**
     Submits an envelope. The answer is a success exactly if the transaction is on the ledger then, and
     `tx_bad_seq` exactly if it is not and its number has passed; `tx_too_late` is one of the errors. An
     envelope that is on the ledger already is answered with its recorded result.
     */
    method SubmitTransaction(e: Envelope, t: Turn) returns (r: Reply)
      requires Valid() && e in Now().network
      modifies this`ledger, this`trace
      ensures Valid() && old(trace) <= trace && Now() == old(Now()).(ledger := ledger)
      ensures Grows(old(ledger), ledger) && StillDead(old(ledger), ledger)
      ensures Answers(old(ledger), e, t, ledger, r)
      ensures old(ledger).Has(e.tx) ==> ledger == old(ledger)
      ensures r.Success? ==> ledger.Succeeded(e.tx)
      ensures r == BadSequence ==> ledger == old(ledger)
      ensures t.delivered && t.answered && old(ledger).Succeeded(e.tx) ==> r == Success(e.tx)
      ensures t.delivered && t.answered && Accepts(old(ledger), e) ==> r == if t.succeeded then Success(e.tx) else Error
    {
      if !t.delivered {
        return Error;
      }
      ghost var before := ledger;
      var badSeq := InTime(ledger, e.tx) && !NextInLine(ledger, e.tx);
      Meet(e, t.succeeded);
      VerdictIsRecorded(before, e, t.succeeded);
      if !t.answered {
        return Error;
      }
      if ledger.Succeeded(e.tx) {
        return Success(e.tx);
      }
      return if badSeq && !ledger.Has(e.tx) then BadSequence else Error;
    }

    /** Loads the account, builds and signs; no transaction when the account cannot be loaded. */
    method BuildAttempt(ghost c: nat, p: Params, ghost past: seq<Tx>, t: Turn) returns (tx: Option<Tx>)
      requires Valid() && c < |Now().calls| && Now().calls[c] == Call(p, past, None, Loading)
      modifies this`ledger, this`trace
      ensures Valid() && old(trace) <= trace && Grows(old(ledger), ledger)
      ensures Now().calls == old(Now()).calls[c := if tx.Some? then Call(p, past, tx, Sent) else Call(p, past, None, Failed)]
      ensures tx.Some? ==> Sign(tx.value) in Now().network
      ensures var loaded := After(old(ledger), t.before);
              && (tx.None? <==> p.source !in loaded.accounts)
              && (tx.Some? ==> BuiltFor(loaded, p, t.timeout, Sign(tx.value)))
              && ledger == if tx.Some? then Tick(After(loaded, t.between), t.delay) else loaded
    {
      Interfere(t.before);
      if p.source !in ledger.accounts {
        Log(Fail(c));
        return None;
      }
      tx := Some(AttemptTx(ledger, p, t.timeout));
      Log(Load(c, t.timeout));
      Interfere(t.between);
      Wait(t.delay);
      Log(Send(c));
    }

    /** How call `c` takes the reply. */
    ghost method Conclude(c: nat, r: Reply)
      requires Valid() && c < |Now().calls| && Now().calls[c].phase == Sent && Now().calls[c].current.Some?
      requires r.Success? ==> r.tx == Now().calls[c].current.value && ledger.Succeeded(r.tx)
      requires r == BadSequence ==>
                 var tx := Now().calls[c].current.value;
                 InTime(ledger, tx) && !ledger.Has(tx) && !NextInLine(ledger, tx)
      modifies this`trace
      ensures Valid() && old(trace) <= trace
      ensures var call := old(Now()).calls[c];
              Now().calls == old(Now()).calls[c :=
                if r == BadSequence then
                  Call(call.params, call.past + [call.current.value], None, if |call.past| + 1 < bound then Loading else Conflict)
                else call.(phase := if r.Success? then Confirmed else Failed)]
    {
      Log(match r case Success(_) => Confirm(c) case BadSequence => BadSeq(c) case Error => Fail(c));
    }

    /** One attempt of call `c`. */
    method Attempt(ghost c: nat, p: Params, ghost past: seq<Tx>, t: Turn) returns (r: Reply, tx: Option<Tx>)
      requires Valid() && c < |Now().calls| && Now().calls[c] == Call(p, past, None, Loading)
      modifies this`ledger, this`trace
      ensures Valid() && old(trace) <= trace && Grows(old(ledger), ledger)
      ensures OneTurn(p, t, old(ledger), ledger, tx, r)
      ensures tx.None? ==> r == Error
      ensures r.Success? ==> tx == Some(r.tx) && ledger.Succeeded(r.tx)
      ensures Now().calls == old(Now()).calls[c :=
                if r == BadSequence then Call(p, past + [tx.value], None, if |past| + 1 < bound then Loading else Conflict)
                else Call(p, past, tx, if r.Success? then Confirmed else Failed)]
    {
      tx := BuildAttempt(c, p, past, t);
      if tx.None? {
        return Error, None;
      }
      r := SubmitTransaction(Sign(tx.value), t);
      Conclude(c, r);
    }

    /** The unbounded loop of the source, run by call `c`. */
    method Retry(ghost c: nat, p: Params, turns: seq<Turn>)
      returns (r: Reply, attempts: seq<Tx>, replies: seq<Reply>, ghost ledgers: seq<Ledger>)
      requires Valid() && |Now().calls| == c + 1 && Now().calls[c] == Call(p, [], None, Loading)
      modifies this`ledger, this`trace
      ensures Valid() && old(trace) <= trace && Grows(old(ledger), ledger)
      ensures replies != [] && Turns(p, turns, ledgers, attempts, replies) && r == replies[|replies| - 1]
      ensures ledgers[0] == old(ledger) && ledgers[|replies|] == ledger
      ensures |attempts| == |replies| || (|attempts| == |replies| - 1 && p.source !in ledger.accounts)
      ensures |Now().calls| == c + 1 && Now().calls[..c] == old(Now()).calls[..c]
      ensures Now().calls[c].params == p && Attempts(Now().calls[c]) == attempts && Ends(r, Now().calls[c])
      ensures r.Success? ==> attempts != [] && r.tx == attempts[|attempts| - 1] && ledger.Succeeded(r.tx)
      ensures |attempts| > 0 ==> attempts[..|attempts| - 1] <= Now().calls[c].past
    {
      attempts, replies, ledgers := [], [], [ledger];
      var attempt := 1;
      while true
        invariant Valid() && old(trace) <= trace && Grows(old(ledger), ledger)
        invariant |Now().calls| == c + 1 && Now().calls[..c] == old(Now()).calls[..c]
        invariant Now().calls[c] == Call(p, attempts, None, Loading)
        invariant attempt == |attempts| + 1 <= MaxAttempts(bound)
        invariant Turns(p, turns, ledgers, attempts, replies) && |attempts| == |replies|
        invariant ledgers[0] == old(ledger) && ledgers[|replies|] == ledger
        invariant replies != [] ==> replies[|replies| - 1] == BadSequence
        decreases MaxAttempts(bound) - attempt
      {
        var tx;
        r, tx := Attempt(c, p, attempts, TurnAt(turns, attempt - 1));
        OneMoreTurn(p, turns, ledgers, attempts, replies, ledger, tx, r);
        attempts := attempts + if tx.Some? then [tx.value] else [];
        replies, ledgers := replies + [r], ledgers + [ledger];
        if r == BadSequence && attempt < bound {
          attempt := attempt + 1;
          continue;
        }
        return;
      }
    }

    /**
     `submitPayment`. Its loop goes on exactly as long as attempts are answered with `tx_bad_seq` and the
     bound allows, and its reply is the answer to the last one; so the first attempt that nobody
     interferes with pays. Every attempt but the last is dead when it returns, so at most the last one
     pays; a success has paid, and a sequence conflict has not and never will. In the protocol it is one
     more call, with these attempts, in the phase that `r` says. `ledgers` are the ledger before each
     attempt and after the last.
     */
    method SubmitPayment(p: Params, turns: seq<Turn>)
      returns (r: Reply, attempts: seq<Tx>, replies: seq<Reply>, ghost ledgers: seq<Ledger>)
      requires Valid()
      modifies this`ledger, this`trace
      ensures Valid() && old(trace) <= trace && Grows(old(ledger), ledger)
      ensures replies != [] && Turns(p, turns, ledgers, attempts, replies) && r == replies[|replies| - 1]
      ensures ledgers[0] == old(ledger) && ledgers[|replies|] == ledger
      ensures |attempts| == |replies| || (|attempts| == |replies| - 1 && p.source !in ledger.accounts)
      ensures |attempts| <= MaxAttempts(bound) && (r == BadSequence ==> |attempts| == MaxAttempts(bound))
      ensures forall k :: 0 <= k < |attempts| && Clear(p, TurnAt(turns, k), ledgers[k], Some(attempts[k])) ==>
                            k == |attempts| - 1 && r == Success(attempts[k])
      ensures |Now().calls| == |old(Now()).calls| + 1 && Now().calls[..|old(Now()).calls|] == old(Now()).calls
      ensures var c := Now().calls[|old(Now()).calls|];
              c.params == p && Attempts(c) == attempts && Ends(r, c)
      ensures forall k :: 0 <= k < |attempts| - 1 ==> Dead(ledger, attempts[k])
      ensures r.Success? ==> attempts != [] && r.tx == attempts[|attempts| - 1] && ledger.Succeeded(r.tx)
      ensures r == BadSequence ==> forall k :: 0 <= k < |attempts| ==> Dead(ledger, attempts[k])
    {
      ghost var c := |Now().calls|;
      Log(Begin(p));
      r, attempts, replies, ledgers := Retry(c, p, turns);
      AttemptsInRun(bound, start, trace, c);
      forall k | 0 <= k < |attempts| && Clear(p, TurnAt(turns, k), ledgers[k], Some(attempts[k]))
        ensures k == |attempts| - 1 && r == Success(attempts[k])
      {
        ClearTurnEnds(p, turns, ledgers, attempts, replies, k);
      }
    }

    /** `resubmitPayment`: replays the envelope of a call that failed after building it. */
    method ResubmitPayment(ghost c: nat, e: Envelope, t: Turn) returns (r: Reply)
      requires Valid() && c < |Now().calls| && Now().calls[c].phase == Failed
      requires Now().calls[c].current == Some(e.tx) && e == Sign(e.tx)
      modifies this`ledger, this`trace
      ensures Valid() && old(trace) <= trace && Now().calls == old(Now()).calls
      ensures old(ledger).Has(e.tx) ==> ledger == old(ledger)
      ensures r.Success? ==> r.tx == e.tx && ledger.Succeeded(e.tx)
      ensures t.delivered && t.answered && old(ledger).Succeeded(e.tx) ==> r == Success(e.tx)
    {
      Log(Resubmit(c));
      r := SubmitTransaction(e, t);
    }
  }

  /** What `CallOk` says of the call a run has made. */
  lemma AttemptsInRun(bound: nat, w0: World, steps: seq<Step>, c: nat)
    requires Start(w0) && c < |Play(bound, w0, steps).calls|
    ensures var w := Play(bound, w0, steps);
            && (forall k :: 0 <= k < |w.calls[c].past| ==> Dead(w.ledger, w.calls[c].past[k]))
            && |Attempts(w.calls[c])| <= MaxAttempts(bound)
            && (w.calls[c].phase == Conflict ==> w.calls[c].current.None? && |w.calls[c].past| == MaxAttempts(bound))
  {
    PlayKeeps(bound, w0, steps);
    assert CallOk(bound, Play(bound, w0, steps).ledger, Play(bound, w0, steps).calls[c]);
  }
}
