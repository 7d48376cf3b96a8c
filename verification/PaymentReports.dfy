/**
 What a row created with an envelope says about its payment: SUCCESS only if it is on the ledger, and
 exactly when it fails to say so.
 */
module PaymentReports {
  import opened Option
  import opened StellarLedger
  import opened Multisig
  import opened PaymentsService
  import opened PaymentGate
  import opened PaymentEngine
  import opened PaymentApproval

  /** In every reachable state, a row created with an envelope that is SUCCESS has its payment on the ledger. */
  lemma StoredSuccessIsPaid(c: Config, w0: World, steps: seq<Step>, r: nat)
    requires Start(w0) && r in Play(c, w0, steps).stored
    ensures var w := Play(c, w0, steps);
            && r < |w.rows| && w.rows[r].status in {PENDING_SIGNATURE, SUCCESS, FAILED}
            && (w.rows[r].status == SUCCESS ==> w.ledger.Succeeded(w.stored[r]))
  {
    Reachable(c, w0, steps);
    assert RowStoredOk(Play(c, w0, steps), r);
  }

  // ---------- many admins ----------

  /** A call of an admin that works on row `r`. */
  predicate OnRow(task: Task, r: nat) {
    (task.Approving? || task.CoSigned? || task.ApproveWrite? || task.Rejecting?) && task.row == r
  }

  /** The admin's call, if any, that reports its outcome on row `r` in this step. */
  function ReportOf(w: World, s: Step, r: nat): Option<Task> {
    if s.Write? && s.task < |w.tasks| && OnRow(w.tasks[s.task], r) && (w.tasks[s.task].ApproveWrite? || w.tasks[s.task].Rejecting?)
    then Some(w.tasks[s.task]) else None
  }

  function LastReport(c: Config, w: World, steps: seq<Step>, r: nat, last: Option<Task>): Option<Task>
    decreases |steps|
  {
    if steps == [] then last
    else
      LastReport(c, Next(c, w, steps[0]), steps[1..], r,
                 if ReportOf(w, steps[0], r).Some? then ReportOf(w, steps[0], r) else last)
  }

  /** What the last report makes of a row. */
  function Said(last: Option<Task>): Status {
    if last.None? then PENDING_SIGNATURE
    else if last.value.ApproveWrite? && last.value.ok then SUCCESS
    else FAILED
  }

  ghost predicate Reported(w: World, r: nat, last: Option<Task>) {
    if r in w.stored then r < |w.rows| && w.rows[r].status == Said(last) else last.None?
  }

  lemma WriteReports(w: World, s: Step, r: nat, last: Option<Task>)
    requires StoredOk(w) && s.Write? && s.task < |w.tasks| && Reported(w, r, last)
    ensures Reported(WriteStep(w, s.task, s.verdict), r, if ReportOf(w, s, r).Some? then ReportOf(w, s, r) else last)
  {
    assert TaskStoredOk(w, w.tasks[s.task]);
    assert r in w.stored ==> RowStoredOk(w, r);
  }

  lemma QuietReports(c: Config, w: World, s: Step, r: nat)
    requires StoredOk(w) && !s.Write? && r in w.stored
    ensures var w' := Next(c, w, s); r in w'.stored && r < |w'.rows| && r < |w.rows| && w'.rows[r] == w.rows[r]
  {
    if !s.Send? && !s.Insert? {
      FewStepsTouchRows(c, w, s);
      StoredOnlyGrows(c, w, s);
    }
  }

  lemma StoredOnlyGrows(c: Config, w: World, s: Step)
    requires !s.Insert?
    ensures Next(c, w, s).stored == w.stored
  {
    if s.Write? && s.task < |w.tasks| {
      WriteTouches(w, s.task, s.verdict);
    }
  }

  lemma InsertReports(c: Config, w: World, s: Step, r: nat)
    requires StoredOk(w) && s.Insert? && r !in w.stored
    ensures var w' := Next(c, w, s); r in w'.stored ==> r < |w'.rows| && w'.rows[r].status == PENDING_SIGNATURE
  {
  }

  lemma NextReports(c: Config, w: World, s: Step, r: nat, last: Option<Task>)
    requires Known(c, w) && Reported(w, r, last)
    ensures Reported(Next(c, w, s), r, if ReportOf(w, s, r).Some? then ReportOf(w, s, r) else last)
  {
    if s.Write? {
      if s.task < |w.tasks| {
        WriteReports(w, s, r, last);
      }
    } else if r in w.stored {
      QuietReports(c, w, s, r);
    } else if s.Insert? {
      InsertReports(c, w, s, r);
    } else {
      StoredOnlyGrows(c, w, s);
    }
  }

  lemma {:induction false} PlayReports(c: Config, w: World, steps: seq<Step>, r: nat, last: Option<Task>)
    requires Known(c, w) && Reported(w, r, last)
    ensures Reported(Play(c, w, steps), r, LastReport(c, w, steps, r, last))
    decreases |steps|
  {
    if steps != [] {
      NextKnown(c, w, steps[0]);
      NextReports(c, w, steps[0], r, last);
      PlayReports(c, Next(c, w, steps[0]), steps[1..], r, if ReportOf(w, steps[0], r).Some? then ReportOf(w, steps[0], r) else last);
    }
  }

  /**
   With any number of admins at work, a row created with an envelope awaits its signature exactly until
   one of them reports, and from then on says what the last report said: SUCCESS after an approval that
   heard the ledger, FAILED after one that did not or after a rejection.
   */
  lemma LastReportStands(c: Config, w0: World, steps: seq<Step>, r: nat)
    requires Start(w0) && r in Play(c, w0, steps).stored
    ensures r < |Play(c, w0, steps).rows|
    ensures Play(c, w0, steps).rows[r].status == Said(LastReport(c, w0, steps, r, None))
  {
    PlayReports(c, w0, steps, r, None);
  }

  // ---------- one admin ----------

  /** A call on row `r` starts: it finds the row awaiting its signature. */
  predicate Starts(w: World, s: Step, r: nat) {
    (s.Approve? || s.Reject?) && s.row == r && r < |w.rows| && w.rows[r].status == PENDING_SIGNATURE && w.rows[r].envelope.Some?
  }

  /** A call on row `r` crashes or is not answered with success, or is a rejection. */
  predicate GivesUp(c: Config, w: World, s: Step, r: nat) {
    || (Starts(w, s, r) && s.Reject?)
    || (s.Crash? && s.task < |w.tasks| && OnRow(w.tasks[s.task], r))
    || (s.CoSignReply? && !s.ok && s.task < |w.tasks| && c.admin.Some? && OnRow(w.tasks[s.task], r)
        && (w.tasks[s.task].Approving? || w.tasks[s.task].CoSigned?))
  }

  function Calls(c: Config, w: World, steps: seq<Step>, r: nat): nat
    decreases |steps|
  {
    if steps == [] then 0 else (if Starts(w, steps[0], r) then 1 else 0) + Calls(c, Next(c, w, steps[0]), steps[1..], r)
  }

  predicate GivenUp(c: Config, w: World, steps: seq<Step>, r: nat)
    decreases |steps|
  {
    steps != [] && (GivesUp(c, w, steps[0], r) || GivenUp(c, Next(c, w, steps[0]), steps[1..], r))
  }

  ghost predicate Live(w: World, r: nat) { exists t :: 0 <= t < |w.tasks| && OnRow(w.tasks[t], r) }

  predicate Doomed(task: Task) { task.Rejecting? || (task.ApproveWrite? && !task.ok) }

  /** Where the one call on row `r` stands, if `n` calls on it have started. */
  ghost predicate Solo(w: World, r: nat, n: nat, gaveUp: bool) {
    && (n == 0 ==> !Live(w, r) && !gaveUp && (r in w.stored ==> r < |w.rows| && w.rows[r].status == PENDING_SIGNATURE))
    && (n == 1 ==>
          && r in w.stored && r < |w.rows|
          && (forall s, t :: 0 <= s < t < |w.tasks| ==> !(OnRow(w.tasks[s], r) && OnRow(w.tasks[t], r)))
          && (forall t :: 0 <= t < |w.tasks| && OnRow(w.tasks[t], r) ==>
                            w.rows[r].status == PENDING_SIGNATURE && (gaveUp <==> Doomed(w.tasks[t])))
          && (!Live(w, r) ==> (w.rows[r].status == SUCCESS <==> !gaveUp)))
  }

  /** Nothing happens to row `r` or to a call on it. */
  ghost predicate Untouched(w: World, w': World, r: nat) {
    && (r in w.stored ==> r in w'.stored && r < |w.rows| && r < |w'.rows| && w'.rows[r] == w.rows[r])
    && (r !in w.stored && r in w'.stored ==> r < |w'.rows| && w'.rows[r].status == PENDING_SIGNATURE)
    && |w.tasks| <= |w'.tasks|
    && (forall t :: 0 <= t < |w.tasks| ==> w'.tasks[t] == w.tasks[t] || (!OnRow(w.tasks[t], r) && !OnRow(w'.tasks[t], r)))
    && (forall t :: |w.tasks| <= t < |w'.tasks| ==> !OnRow(w'.tasks[t], r))
  }

  lemma UntouchedSolo(w: World, w': World, r: nat, n: nat, gaveUp: bool)
    requires Solo(w, r, n, gaveUp) && Untouched(w, w', r)
    ensures Solo(w', r, n, gaveUp)
  {
    forall t | 0 <= t < |w'.tasks| && OnRow(w'.tasks[t], r) ensures t < |w.tasks| && w'.tasks[t] == w.tasks[t] {}
    forall t | 0 <= t < |w.tasks| && OnRow(w.tasks[t], r) ensures w'.tasks[t] == w.tasks[t] {}
    assert Live(w', r) <==> Live(w, r);
  }

  lemma SendUntouched(c: Config, w: World, i: Input, r: nat)
    requires StoredOk(w)
    ensures Untouched(w, SendStep(c, w, i), r)
  {
  }

  lemma EngineUntouched(c: Config, w: World, s: Step, r: nat)
    requires StoredOk(w) && EngineKind(s) && s.task < |w.tasks|
    ensures Untouched(w, EngineStep(c, w, s), r)
  {
    EngineTouches(c, w, s);
  }

  lemma SetupUntouched(c: Config, w: World, s: Step, r: nat)
    requires StoredOk(w) && SetupKind(s) && s.task < |w.tasks| && c.admin.Some?
    ensures Untouched(w, SetupStep(c, w, s), r)
  {
    SetupTouches(c, w, s);
  }

  lemma OutsideUntouched(w: World, s: Step, r: nat)
    requires StoredOk(w) && OutsideKind(s) && !(s.Crash? && s.task < |w.tasks| && OnRow(w.tasks[s.task], r))
    ensures Untouched(w, OutsideStep(w, s), r)
  {
  }

  /** The one call on row `r` ends without a report. */
  lemma CrashSolo(w: World, t: nat, r: nat, n: nat, gaveUp: bool)
    requires Solo(w, r, n, gaveUp) && t < |w.tasks| && OnRow(w.tasks[t], r)
    ensures Solo(SetTask(w, t, Ended), r, n, true)
  {
    var w' := SetTask(w, t, Ended);
    forall s | 0 <= s < |w'.tasks| && n == 1 ensures !OnRow(w'.tasks[s], r) {
      assert s < t || s == t || t < s;
    }
    assert Live(w, r);
  }

  lemma ReadSolo(w: World, s: Step, r: nat, n: nat, gaveUp: bool)
    requires StoredOk(w) && ReadKind(s) && Solo(w, r, n, gaveUp)
    ensures Solo(ReadStep(w, s), r, n + if Starts(w, s, r) then 1 else 0, gaveUp || (Starts(w, s, r) && s.Reject?))
  {
    var w' := ReadStep(w, s);
    if !Starts(w, s, r) {
      UntouchedSolo(w, w', r, n, gaveUp);
    } else if n == 0 {
      forall t | 0 <= t < |w.tasks| ensures !OnRow(w.tasks[t], r) {
        assert !Live(w, r);
      }
      assert OnRow(w'.tasks[|w.tasks|], r);
      assert Live(w', r);
    }
  }

  /** An admin step moves one call on its row; the call is doomed if it gives up. */
  lemma AdminTouches(c: Config, w: World, s: Step)
    requires AdminKind(s) && s.task < |w.tasks| && c.admin.Some?
    ensures var w', t := AdminStep(c, w, s), s.task;
            && w'.rows == w.rows && w'.stored == w.stored && |w'.tasks| == |w.tasks|
            && (forall u :: 0 <= u < |w.tasks| && u != t ==> w'.tasks[u] == w.tasks[u])
            && (w'.tasks[t] != w.tasks[t] ==>
                  && !Doomed(w.tasks[t])
                  && (forall r :: OnRow(w'.tasks[t], r) <==> OnRow(w.tasks[t], r)))
            && (forall r :: OnRow(w.tasks[t], r) ==> (Doomed(w'.tasks[t]) <==> Doomed(w.tasks[t]) || GivesUp(c, w, s, r)))
  {
  }

  lemma AdminSolo(c: Config, w: World, s: Step, r: nat, n: nat, gaveUp: bool)
    requires StoredOk(w) && AdminKind(s) && s.task < |w.tasks| && c.admin.Some? && Solo(w, r, n, gaveUp)
    ensures Solo(AdminStep(c, w, s), r, n, gaveUp || GivesUp(c, w, s, r))
  {
    var w', t := AdminStep(c, w, s), s.task;
    AdminTouches(c, w, s);
    forall u | 0 <= u < |w.tasks| ensures OnRow(w'.tasks[u], r) == OnRow(w.tasks[u], r) {}
    assert Live(w', r) <==> Live(w, r);
    if !OnRow(w.tasks[t], r) {
      UntouchedSolo(w, w', r, n, gaveUp);
    } else {
      MovedSolo(w, w', t, r, n, gaveUp, gaveUp || GivesUp(c, w, s, r));
    }
  }

  /** The one call on row `r` moves on. */
  lemma MovedSolo(w: World, w': World, t: nat, r: nat, n: nat, gaveUp: bool, gaveUp': bool)
    requires Solo(w, r, n, gaveUp) && t < |w.tasks| && OnRow(w.tasks[t], r)
    requires w'.rows == w.rows && w'.stored == w.stored && |w'.tasks| == |w.tasks| && OnRow(w'.tasks[t], r)
    requires forall u :: 0 <= u < |w.tasks| && u != t ==> w'.tasks[u] == w.tasks[u]
    requires n == 1 ==> (gaveUp' <==> Doomed(w'.tasks[t]))
    ensures Solo(w', r, n, gaveUp')
  {
    assert Live(w, r) && Live(w', r);
    forall u | 0 <= u < |w.tasks| && u != t && n == 1 ensures !OnRow(w'.tasks[u], r) {
      assert u < t || t < u;
    }
  }

  lemma WriteOffRow(w: World, t: nat, verdict: Status, r: nat)
    requires StoredOk(w) && t < |w.tasks| && !OnRow(w.tasks[t], r)
    ensures Untouched(w, WriteStep(w, t, verdict), r)
  {
    WriteTouches(w, t, verdict);
    assert TaskStoredOk(w, w.tasks[t]);
  }

  lemma WriteSolo(w: World, t: nat, verdict: Status, r: nat, n: nat, gaveUp: bool)
    requires StoredOk(w) && t < |w.tasks| && Solo(w, r, n, gaveUp)
    ensures Solo(WriteStep(w, t, verdict), r, n, gaveUp)
  {
    var w' := WriteStep(w, t, verdict);
    if !OnRow(w.tasks[t], r) {
      WriteOffRow(w, t, verdict, r);
      UntouchedSolo(w, w', r, n, gaveUp);
    } else if w.tasks[t].Approving? || w.tasks[t].CoSigned? {
      assert w' == w;
    } else {
      assert Live(w, r);
      assert TaskStoredOk(w, w.tasks[t]);
      WriteTouches(w, t, verdict);
      forall u | 0 <= u < |w'.tasks| && n == 1 ensures !OnRow(w'.tasks[u], r) {
        assert u < t || u == t || t < u;
      }
    }
  }

  lemma OutsideSolo(c: Config, w: World, s: Step, r: nat, n: nat, gaveUp: bool)
    requires StoredOk(w) && OutsideKind(s) && Solo(w, r, n, gaveUp)
    ensures Solo(OutsideStep(w, s), r, n, gaveUp || GivesUp(c, w, s, r))
  {
    if s.Crash? && s.task < |w.tasks| && OnRow(w.tasks[s.task], r) {
      CrashSolo(w, s.task, r, n, gaveUp);
    } else {
      OutsideUntouched(w, s, r);
      UntouchedSolo(w, OutsideStep(w, s), r, n, gaveUp);
    }
  }

  lemma SendSolo(c: Config, w: World, i: Input, r: nat, n: nat, gaveUp: bool)
    requires StoredOk(w) && Solo(w, r, n, gaveUp)
    ensures Solo(SendStep(c, w, i), r, n, gaveUp)
  {
    SendUntouched(c, w, i, r);
    UntouchedSolo(w, SendStep(c, w, i), r, n, gaveUp);
  }

  lemma EngineSolo(c: Config, w: World, s: Step, r: nat, n: nat, gaveUp: bool)
    requires StoredOk(w) && Solo(w, r, n, gaveUp) && EngineKind(s) && s.task < |w.tasks|
    ensures Solo(EngineStep(c, w, s), r, n, gaveUp)
  {
    EngineUntouched(c, w, s, r);
    UntouchedSolo(w, EngineStep(c, w, s), r, n, gaveUp);
  }

  lemma SetupSolo(c: Config, w: World, s: Step, r: nat, n: nat, gaveUp: bool)
    requires StoredOk(w) && Solo(w, r, n, gaveUp) && SetupKind(s) && s.task < |w.tasks| && c.admin.Some?
    ensures Solo(SetupStep(c, w, s), r, n, gaveUp)
  {
    SetupUntouched(c, w, s, r);
    UntouchedSolo(w, SetupStep(c, w, s), r, n, gaveUp);
  }

  lemma NextSolo(c: Config, w: World, s: Step, r: nat, n: nat, gaveUp: bool)
    requires StoredOk(w) && Solo(w, r, n, gaveUp)
    ensures Solo(Next(c, w, s), r, n + if Starts(w, s, r) then 1 else 0, gaveUp || GivesUp(c, w, s, r))
  {
    if s.Send? {
      SendSolo(c, w, s.input, r, n, gaveUp);
    } else if ReadKind(s) {
      ReadSolo(w, s, r, n, gaveUp);
    } else if OutsideKind(s) {
      OutsideSolo(c, w, s, r, n, gaveUp);
    } else if s.task < |w.tasks| {
      if s.Write? {
        WriteSolo(w, s.task, s.verdict, r, n, gaveUp);
      } else if EngineKind(s) {
        EngineSolo(c, w, s, r, n, gaveUp);
      } else if c.admin.Some? {
        if AdminKind(s) {
          AdminSolo(c, w, s, r, n, gaveUp);
        } else {
          SetupSolo(c, w, s, r, n, gaveUp);
        }
      }
    }
  }

  lemma {:induction false} PlaySolo(c: Config, w: World, steps: seq<Step>, r: nat, n: nat, gaveUp: bool)
    requires Known(c, w) && Solo(w, r, n, gaveUp)
    ensures Known(c, Play(c, w, steps))
    ensures Solo(Play(c, w, steps), r, n + Calls(c, w, steps, r), gaveUp || GivenUp(c, w, steps, r))
    decreases |steps|
  {
    if steps != [] {
      NextKnown(c, w, steps[0]);
      NextSolo(c, w, steps[0], r, n, gaveUp);
      PlaySolo(c, Next(c, w, steps[0]), steps[1..], r, n + if Starts(w, steps[0], r) then 1 else 0,
               gaveUp || GivesUp(c, w, steps[0], r));
    }
  }

  /**
   The converse, exactly, for a row that at most one admin ever touched: once no call on it is live, the
   row is SUCCESS if and only if there was an approval and it did not give up. So a payment that is on
   the ledger is missing from its row exactly then.
   */
  lemma ApprovalReportedExactly(c: Config, w0: World, steps: seq<Step>, r: nat)
    requires Start(w0) && r in Play(c, w0, steps).stored
    requires Calls(c, w0, steps, r) <= 1 && !Live(Play(c, w0, steps), r)
    ensures var w := Play(c, w0, steps);
            && r < |w.rows|
            && (w.rows[r].status == SUCCESS <==> Calls(c, w0, steps, r) == 1 && !GivenUp(c, w0, steps, r))
            && (Calls(c, w0, steps, r) == 1 && !GivenUp(c, w0, steps, r) ==> w.ledger.Succeeded(w.stored[r]))
  {
    PlaySolo(c, w0, steps, r, 0, false);
    StoredSuccessIsPaid(c, w0, steps, r);
  }

  // ---------- two admins ----------

  lemma BothAdminsRead(c: Config, w: World, r: nat)
    requires r < |w.rows| && w.rows[r].status == PENDING_SIGNATURE && w.rows[r].envelope.Some?
    ensures Next(c, Next(c, w, Approve(r)), Reject(r)) ==
            w.(tasks := w.tasks + [Approving(r, w.rows[r].envelope.value), Rejecting(r)], approvals := w.approvals + {r})
  {
    var w1 := Next(c, w, Approve(r));
    assert w1.tasks + [Rejecting(r)] == w.tasks + [Approving(r, w.rows[r].envelope.value), Rejecting(r)];
  }

  lemma SignsAndWaits(c: Config, w: World, t: nat, r: nat, e: Envelope)
    requires c.admin.Some? && t < |w.tasks| && w.tasks[t] == Approving(r, e)
    ensures Next(c, w, CoSign(t)) == SetTask(w, t, CoSigned(r, e.tx)).(network := w.network + {WithAdmin(c, e)})
  {
  }

  lemma RejectionWrites(c: Config, w: World, t: nat, r: nat)
    requires t < |w.tasks| && w.tasks[t] == Rejecting(r) && r < |w.rows|
    ensures var w' := Next(c, w, Write(t, FAILED));
            && w'.rows == w.rows[r := w.rows[r].(status := FAILED, envelope := None)] && w'.ledger == w.ledger
  {
  }

  /**
   Without calls that run alone a status can be written twice: while an approval would pay, a rejection
   that read the row beside it overwrites SUCCESS with FAILED, although the payment is on the ledger.
   */
  lemma RacingAdminsOverwrite(c: Config, w0: World, steps: seq<Step>, r: nat)
    requires Start(w0) && r < |Play(c, w0, steps).rows| && Play(c, w0, steps).rows[r].envelope.Some?
    requires c.admin.Some? && Accepts(Play(c, w0, steps).ledger, WithAdmin(c, Play(c, w0, steps).rows[r].envelope.value))
    ensures var w, t := Play(c, w0, steps), |Play(c, w0, steps).tasks|;
            var signed := WithAdmin(c, w.rows[r].envelope.value);
            var w2 := Next(c, Next(c, w, Approve(r)), Reject(r));
            var w5 := Next(c, Next(c, Next(c, w2, CoSign(t)), Land(signed, true)), CoSignReply(t, true));
            var w6 := Next(c, w5, Write(t, SUCCESS));
            var w7 := Next(c, w6, Write(t + 1, FAILED));
            && r < |w6.rows| && w6.rows[r].status == SUCCESS
            && r < |w7.rows| && w7.rows[r].status == FAILED && w7.ledger.Succeeded(signed.tx)
  {
    Reachable(c, w0, steps);
    var w, t := Play(c, w0, steps), |Play(c, w0, steps).tasks|;
    AwaitingKnown(c, w, r);
    var e := w.rows[r].envelope.value;
    var signed := WithAdmin(c, e);
    BothAdminsRead(c, w, r);
    var w2 := Next(c, Next(c, w, Approve(r)), Reject(r));
    SignsAndWaits(c, w2, t, r, e);
    var w3 := Next(c, w2, CoSign(t));
    SignedLands(c, w3, t, r, signed);
    var w5 := Next(c, Next(c, w3, Land(signed, true)), CoSignReply(t, true));
    ApprovalWrites(c, w5, t, r, true);
    var w6 := Next(c, w5, Write(t, SUCCESS));
    assert w6.tasks[t + 1] == Rejecting(r);
    RejectionWrites(c, w6, t + 1, r);
    AppliedSucceeds(w.ledger, signed);
  }

  lemma AppliedSucceeds(l: Ledger, e: Envelope)
    requires Accepts(l, e)
    ensures Apply(l, e, true).Succeeded(e.tx)
  {
    assert Apply(l, e, true).applied[|l.applied|] == Entry(e, true);
  }

  // ---------- two rows ----------

  /** Approving a row whose transaction is on the ledger already is answered with the recorded result. */
  lemma PaidApproval(c: Config, w: World, r: nat)
    requires c.admin.Some? && r < |w.rows| && w.rows[r].status == PENDING_SIGNATURE && w.rows[r].envelope.Some?
    requires w.ledger.Succeeded(w.rows[r].envelope.value.tx)
    ensures var t := |w.tasks|;
            var w' := Play(c, w, [Approve(r), CoSign(t)] + ([CoSignReply(t, true), Write(t, SUCCESS)] + []));
            w'.ledger == w.ledger && w'.rows == w.rows[r := w.rows[r].(status := SUCCESS, envelope := None)]
  {
    var t, tx := |w.tasks|, w.rows[r].envelope.value.tx;
    ApproveSigns(c, w, r);
    var w2 := Next(c, Next(c, w, Approve(r)), CoSign(t));
    HearsPaid(c, w2, t, r, tx);
    var w3 := Next(c, w2, CoSignReply(t, true));
    ApprovalWrites(c, w3, t, r, true);
    PlayTwo(c, w2, CoSignReply(t, true), Write(t, SUCCESS), []);
    PlayTwo(c, w, Approve(r), CoSign(t), [CoSignReply(t, true), Write(t, SUCCESS)] + []);
  }

  lemma HearsPaid(c: Config, w: World, t: nat, r: nat, tx: Tx)
    requires c.admin.Some? && t < |w.tasks| && w.tasks[t] == CoSigned(r, tx) && w.ledger.Succeeded(tx)
    ensures Next(c, w, CoSignReply(t, true)) == SetTask(w, t, ApproveWrite(r, true))
  {
  }

  lemma BothBuild(c: Config, w: World, s: nat, t: nat)
    requires c.admin.Some? && s < |w.tasks| && t < |w.tasks| && s != t && w.tasks[s].HvBuild? && w.tasks[t].HvBuild?
    requires var i, j := w.tasks[s].input, w.tasks[t].input;
             i.source == j.source && i.destination == j.destination && i.amount == j.amount && i.memo == j.memo
    requires w.tasks[s].input.source in w.ledger.accounts
    ensures var i, j, e := w.tasks[s].input, w.tasks[t].input, HighValueEnvelope(w.ledger, w.tasks[s].input);
            Next(c, Next(c, w, Build(s)), Build(t)) == w.(tasks := w.tasks[s := HvInsert(i, e)][t := HvInsert(j, e)])
  {
    var e := HighValueEnvelope(w.ledger, w.tasks[s].input);
    assert Next(c, w, Build(s)) == SetTask(w, s, HvInsert(w.tasks[s].input, e));
  }

  lemma InsertsRow(c: Config, w: World, t: nat, i: Input, e: Envelope)
    requires c.admin.Some? && t < |w.tasks| && w.tasks[t] == HvInsert(i, e) && FindKey(w.rows, i.key).None?
    ensures var w' := Next(c, w, Insert(t));
            && w'.rows == w.rows + [Row(i.key, i.source, Some(e), PENDING_SIGNATURE)] && w'.ledger == w.ledger
            && w'.tasks == w.tasks[t := Returned(i.key, |w.rows|)]
  {
  }

  lemma OtherKeyIsNew(rows: seq<Row>, row: Row, key: string)
    requires FindKey(rows, key).None? && row.key != key
    ensures FindKey(rows + [row], key).None?
  {
    assert (rows + [row])[..|rows + [row]| - 1] == rows;
  }

  lemma BothStore(c: Config, w: World, s: nat, t: nat)
    requires c.admin.Some? && s < |w.tasks| && t < |w.tasks| && s != t && w.tasks[s].HvBuild? && w.tasks[t].HvBuild?
    requires var i, j := w.tasks[s].input, w.tasks[t].input;
             && i.source == j.source && i.destination == j.destination && i.amount == j.amount && i.memo == j.memo
             && i.key != j.key && FindKey(w.rows, i.key).None? && FindKey(w.rows, j.key).None?
    requires w.tasks[s].input.source in w.ledger.accounts
    ensures var i, j, e := w.tasks[s].input, w.tasks[t].input, HighValueEnvelope(w.ledger, w.tasks[s].input);
            var w' := Play(c, w, [Build(s), Build(t)] + ([Insert(s), Insert(t)] + []));
            && w'.ledger == w.ledger
            && w'.rows == w.rows + [Row(i.key, i.source, Some(e), PENDING_SIGNATURE)] + [Row(j.key, j.source, Some(e), PENDING_SIGNATURE)]
  {
    var i, j, e := w.tasks[s].input, w.tasks[t].input, HighValueEnvelope(w.ledger, w.tasks[s].input);
    BothBuild(c, w, s, t);
    var w2 := Next(c, Next(c, w, Build(s)), Build(t));
    InsertsRow(c, w2, s, i, e);
    var w3 := Next(c, w2, Insert(s));
    OtherKeyIsNew(w.rows, Row(i.key, i.source, Some(e), PENDING_SIGNATURE), j.key);
    InsertsRow(c, w3, t, j, e);
    PlayTwo(c, w2, Insert(s), Insert(t), []);
    PlayTwo(c, w, Build(s), Build(t), [Insert(s), Insert(t)] + []);
  }

  /** Approving two rows that store one transaction, one after the other. */
  lemma BothApproved(c: Config, w: World, r: nat, q: nat) returns (more: seq<Step>)
    requires c.admin.Some? && r < q < |w.rows| && w.rows[r].envelope.Some? && w.rows[q].envelope == w.rows[r].envelope
    requires w.rows[r].status == PENDING_SIGNATURE && w.rows[q].status == PENDING_SIGNATURE
    requires Accepts(w.ledger, WithAdmin(c, w.rows[r].envelope.value))
    ensures Play(c, w, more).rows == w.rows[r := w.rows[r].(status := SUCCESS, envelope := None)]
                                           [q := w.rows[q].(status := SUCCESS, envelope := None)]
    ensures |Play(c, w, more).ledger.applied| == |w.ledger.applied| + 1
  {
    var signed := WithAdmin(c, w.rows[r].envelope.value);
    ApprovalRuns(c, w, r);
    var first := ApproveRun(r, |w.tasks|, signed);
    var w2 := Play(c, w, first);
    AppliedSucceeds(w.ledger, signed);
    PaidApproval(c, w2, q);
    var second := [Approve(q), CoSign(|w2.tasks|)] + ([CoSignReply(|w2.tasks|, true), Write(|w2.tasks|, SUCCESS)] + []);
    PlayJoined(c, w, first, second);
    more := first + second;
  }

  predicate EqualTerms(i: Input, j: Input) {
    i.source == j.source && i.destination == j.destination && i.amount == j.amount && i.memo == j.memo
  }

  lemma StoredAccepts(c: Config, w: World, r: nat)
    requires Known(c, w) && r < |w.rows| && w.rows[r].envelope.Some?
    requires NextInLine(w.ledger, w.rows[r].envelope.value.tx) && InTime(w.ledger, w.rows[r].envelope.value.tx)
    ensures c.admin.Some? && Accepts(w.ledger, WithAdmin(c, w.rows[r].envelope.value))
    ensures w.rows[r].status == PENDING_SIGNATURE
  {
    AwaitingKnown(c, w, r);
    CoSignedAccepted(c, w, r);
  }

  /**
   Two high-value sends with equal terms whose envelopes are built at the same moment store one and the
   same transaction. Approving both leaves two SUCCESS rows and one payment.
   */
  lemma EqualRowsShareAPayment(c: Config, w0: World, steps: seq<Step>, s: nat, t: nat) returns (more: seq<Step>)
    requires Start(w0) && c.admin.Some? && s < |Play(c, w0, steps).tasks| && t < |Play(c, w0, steps).tasks| && s != t
    requires Play(c, w0, steps).tasks[s].HvBuild? && Play(c, w0, steps).tasks[t].HvBuild?
    requires var w := Play(c, w0, steps);
             var i, j := w.tasks[s].input, w.tasks[t].input;
             EqualTerms(i, j) && i.key != j.key && FindKey(w.rows, i.key).None? && FindKey(w.rows, j.key).None?
    ensures var w, w' := Play(c, w0, steps), Play(c, Play(c, w0, steps), more);
            var i, j := w.tasks[s].input, w.tasks[t].input;
            && w'.rows == w.rows + [Row(i.key, i.source, None, SUCCESS)] + [Row(j.key, j.source, None, SUCCESS)]
            && |w'.ledger.applied| == |w.ledger.applied| + 1
  {
    Reachable(c, w0, steps);
    var w := Play(c, w0, steps);
    assert TaskGateOk(c, w, w.tasks[s]);
    more := BothPay(c, w, s, t);
  }

  lemma BothPay(c: Config, w: World, s: nat, t: nat) returns (more: seq<Step>)
    requires Known(c, w) && c.admin.Some? && s < |w.tasks| && t < |w.tasks| && s != t
    requires w.tasks[s].HvBuild? && w.tasks[t].HvBuild? && w.tasks[s].input.source in w.ledger.accounts
    requires var i, j := w.tasks[s].input, w.tasks[t].input;
             EqualTerms(i, j) && i.key != j.key && FindKey(w.rows, i.key).None? && FindKey(w.rows, j.key).None?
    ensures var i, j, w' := w.tasks[s].input, w.tasks[t].input, Play(c, w, more);
            && w'.rows == w.rows + [Row(i.key, i.source, None, SUCCESS)] + [Row(j.key, j.source, None, SUCCESS)]
            && |w'.ledger.applied| == |w.ledger.applied| + 1
  {
    var r, build := |w.rows|, [Build(s), Build(t)] + ([Insert(s), Insert(t)] + []);
    BothStore(c, w, s, t);
    PlayKnown(c, w, build);
    var w1 := Play(c, w, build);
    StoredAccepts(c, w1, r);
    StoredAccepts(c, w1, r + 1);
    var rest := BothApproved(c, w1, r, r + 1);
    PlayJoined(c, w, build, rest);
    more := build + rest;
  }

  lemma {:induction false} PlayJoined(c: Config, w: World, a: seq<Step>, b: seq<Step>)
    ensures Play(c, w, a + b) == Play(c, Play(c, w, a), b)
    decreases |a|
  {
    if a == [] {
      assert a + b == b;
    } else {
      assert (a + b)[1..] == a[1..] + b;
      PlayJoined(c, Next(c, w, a[0]), a[1..], b);
    }
  }
}
