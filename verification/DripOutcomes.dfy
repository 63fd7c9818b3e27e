/**
  What each row of the reminder schedule says, and that it says the truth: over every
  run, a row sent was mailed, a row failed had its last error, and a row cancelled
  names a reason that holds.
 */
module DripOutcomes {
  import opened Options
  import opened LoanStatus
  import W = LoanWorkflow
  import I = LoanInvariants
  import R = LoanRecords
  import opened DripSchedule
  import opened DripCancellation
  import G = DripGrid
  import opened DripStability

  /* ------------------------------------------------------------ one run of a job */

  /** The rules that stop a sequence, and the reason given: the first of them in this order. */
  lemma StoppedBecause(key: SequenceKey, c: Context)
    ensures var why := EvaluateCancellation(key, c);
            var own := if key == CallIn then c.calledIn else c.bankVerified;
            var late := Height(c.status) >= if key == CallIn then 3 else 4;
            && (why == Some(Suppressed) <==> c.suppressed)
            && (why == Some(CalledIn) <==>
                  !c.suppressed && Height(c.status) < 11 && key == CallIn && c.calledIn)
            && (why == Some(BankVerified) <==>
                  !c.suppressed && Height(c.status) < 11 && key == BankVerification && c.bankVerified)
            && (why == Some(StatusReached(c.status)) <==>
                  !c.suppressed && (Height(c.status) == 11 || (!own && late)))
            && (why == None <==> !c.suppressed && !own && !late)
  {
  }

  /**
    A job that the rules let through: its row becomes sent exactly when the mail was
    delivered, failed exactly when the last attempt ended in an error, and cancelled
    exactly when the borrower was suppressed meanwhile; an error that will be retried
    leaves it alone.
   */
  lemma UnstoppedJobIff(s: Drip, job: Job, d: Delivery, now: int)
    requires !Stopped(s, job.key) && job in s.rows && s.rows[job].status == Scheduled
    ensures var t := Take(s, RunJob(job, d, now));
            && job in t.rows
            && (t.rows[job].status == Sent <==> d == Delivered)
            && (t.rows[job].status == Failed <==> d.Errored? && d.lastAttempt)
            && (t.rows[job].status == Cancelled <==> d == Withheld)
            && (t.rows[job].status == Scheduled <==> d.Errored? && !d.lastAttempt)
            && (d == Withheld ==> t.rows[job].trigger == Some(Suppressed) && t.rows[job].cancelledAt == Some(now))
            && t.rows[job].scheduledFor == s.rows[job].scheduledFor
  {
  }

  /** A cancelled row is overwritten by a delivery or a last error, if its job runs unstopped, and by nothing else. */
  lemma UnstoppedSettledIff(s: Drip, job: Job, d: Delivery, now: int)
    requires !Stopped(s, job.key) && job in s.rows && s.rows[job].status != Scheduled
    ensures var t := Take(s, RunJob(job, d, now));
            && job in t.rows
            && t.rows[job] == s.rows[job].(status :=
                 match d
                 case Delivered => Sent
                 case Errored(_, last) => if last then Failed else s.rows[job].status
                 case Withheld => s.rows[job].status)
  {
  }

  /** A job the rules stop sends nothing, and cancels its row if that was still scheduled, with the reason. */
  lemma StoppedJobCancels(s: Drip, job: Job, d: Delivery, now: int)
    requires Stopped(s, job.key)
    ensures var t := Take(s, RunJob(job, d, now));
            && t.outbox == s.outbox && t.rows.Keys == s.rows.Keys
            && (job in s.rows && s.rows[job].status != Scheduled ==> t.rows[job] == s.rows[job])
            && (job in s.rows && s.rows[job].status == Scheduled ==>
                  && t.rows[job].status == Cancelled && t.rows[job].cancelledAt == Some(now)
                  && t.rows[job].trigger == EvaluateCancellation(job.key, ContextOf(s.file, s.suppressed))
                  && t.rows[job].scheduledFor == s.rows[job].scheduledFor)
  {
  }

  /** A mail leaves exactly when the rules let the job through and the send gets that far; no other row is touched. */
  lemma MailLeavesIff(s: Drip, job: Job, d: Delivery, now: int)
    ensures var t := Take(s, RunJob(job, d, now));
            && (t.outbox == s.outbox + [job] <==> !Stopped(s, job.key) && (d == Delivered || (d.Errored? && d.mailed)))
            && (t.outbox == s.outbox + [job] || t.outbox == s.outbox)
            && t.rows.Keys == s.rows.Keys && t.file == s.file
            && forall j | j in s.rows && j != job :: t.rows[j] == s.rows[j]
  {
    assert |s.outbox + [job]| != |s.outbox|;
  }

  /* ----------------------------------------------------------- a row sent was mailed */

  ghost predicate SentWereMailed(s: Drip) {
    forall j | j in s.rows && s.rows[j].status == Sent :: MailsFor(s.outbox, j) >= 1
  }

  lemma OneMoreMail(outbox: seq<Job>, job: Job, j: Job)
    ensures MailsFor(outbox + [job], j) == MailsFor(outbox, j) + if j == job then 1 else 0
  {
    assert (outbox + [job])[..|outbox|] == outbox;
  }

  /** A row newly sent has its mail in the outbox. */
  lemma RunMails(s: Drip, job: Job, d: Delivery, now: int)
    requires job in s.rows && s.rows[job].status != Sent && Take(s, RunJob(job, d, now)).rows[job].status == Sent
    ensures Take(s, RunJob(job, d, now)).outbox == s.outbox + [job]
  {
    MailLeavesIff(s, job, d, now);
    if Stopped(s, job.key) {
      StoppedJobCancels(s, job, d, now);
    } else if s.rows[job].status == Scheduled {
      UnstoppedJobIff(s, job, d, now);
    } else {
      UnstoppedSettledIff(s, job, d, now);
    }
  }

  lemma RunKeepsMailed(s: Drip, job: Job, d: Delivery, now: int)
    requires SentWereMailed(s)
    ensures SentWereMailed(Take(s, RunJob(job, d, now)))
  {
    var t := Take(s, RunJob(job, d, now));
    MailLeavesIff(s, job, d, now);
    forall j | j in t.rows && t.rows[j].status == Sent ensures MailsFor(t.outbox, j) >= 1 {
      OneMoreMail(s.outbox, job, j);
      if s.rows[j].status != Sent { RunMails(s, job, d, now); }
    }
  }

  lemma {:induction false} PlanningSendsNothing(rows: Rows, plan: seq<Send>, written: seq<bool>, n: nat)
    requires n <= |plan| == |written|
    ensures forall j | j in Planned(rows, plan, written, n) && Planned(rows, plan, written, n)[j].status == Sent ::
              j in rows && rows[j].status == Sent
  {
    if n > 0 { PlanningSendsNothing(rows, plan, written, n - 1); }
  }

  lemma StepKeepsMailed(s: Drip, step: Step)
    requires SentWereMailed(s)
    ensures SentWereMailed(Take(s, step))
  {
    match step
    case Act(_, _, _) =>
    case RunJob(job, d, now) => RunKeepsMailed(s, job, d, now);
    case Start(plan, written) =>
      if |written| == |plan| { PlanningSendsNothing(s.rows, plan, written, |plan|); }
    case Suppress =>
    case Unsuppress =>
  }

  lemma {:induction false} RunsKeepMailed(s: Drip, steps: seq<Step>)
    requires SentWereMailed(s)
    ensures SentWereMailed(Run(s, steps))
    decreases |steps|
  {
    if steps != [] {
      StepKeepsMailed(s, steps[0]);
      RunsKeepMailed(Take(s, steps[0]), steps[1..]);
    }
  }

  /** Over every run from an empty schedule, a step recorded as sent has left at least once. */
  lemma SentMeansMailed(s: Drip, steps: seq<Step>, j: Job)
    requires s.rows == map[] && j in Run(s, steps).rows && Run(s, steps).rows[j].status == Sent
    ensures MailsFor(Run(s, steps).outbox, j) >= 1
  {
    RunsKeepMailed(s, steps);
  }

  /** The run of the job that settles its row so. */
  ghost predicate Settles(step: Step, j: Job, status: RowStatus) {
    && step.RunJob? && step.job == j
    && match status
       case Sent => step.delivery == Delivered
       case Failed => step.delivery.Errored? && step.delivery.lastAttempt
       case _ => false
  }

  lemma StepSettles(s: Drip, step: Step, j: Job)
    requires j in Take(s, step).rows && Take(s, step).rows[j].status in {Sent, Failed}
    ensures Settles(step, j, Take(s, step).rows[j].status)
         || (j in s.rows && s.rows[j].status == Take(s, step).rows[j].status)
  {
    match step
    case Start(plan, written) =>
      if |written| == |plan| { PlanningSettlesNothing(s.rows, plan, written, |plan|, j); }
    case _ =>
  }

  lemma {:induction false} PlanningSettlesNothing(rows: Rows, plan: seq<Send>, written: seq<bool>, n: nat, j: Job)
    requires n <= |plan| == |written|
    requires j in Planned(rows, plan, written, n) && Planned(rows, plan, written, n)[j].status != Scheduled
    ensures j in rows && rows[j] == Planned(rows, plan, written, n)[j]
  {
    if n > 0 { PlanningSettlesNothing(rows, plan, written, n - 1, j); }
  }

  /**
    Over every run from an empty schedule, a row says sent or failed only if some run of
    its own job was delivered, or ended in an error on the last attempt.
   */
  lemma {:induction false} SettledByItsJob(s: Drip, steps: seq<Step>, j: Job)
    requires j in Run(s, steps).rows && Run(s, steps).rows[j].status in {Sent, Failed}
    ensures (exists i :: 0 <= i < |steps| && Settles(steps[i], j, Run(s, steps).rows[j].status))
         || (j in s.rows && s.rows[j].status == Run(s, steps).rows[j].status)
    decreases |steps|
  {
    if steps != [] {
      var t := Take(s, steps[0]);
      var status := Run(s, steps).rows[j].status;
      SettledByItsJob(t, steps[1..], j);
      if i :| 0 <= i < |steps[1..]| && Settles(steps[1..][i], j, status) {
        assert Settles(steps[i + 1], j, status);
      } else {
        StepSettles(s, steps[0], j);
      }
    }
  }

  /* ------------------------------------------------ a cancelled row tells the truth */

  /** The reason on a row of the sequence: the status it names was reached and stops it, or the fact holds. */
  ghost predicate Holds(f: W.File, key: SequenceKey, why: Trigger) {
    match why
    case Suppressed => true
    case StatusReached(status) =>
      Height(status) <= Height(f.status) && Height(status) >= if key == CallIn then 3 else 4
    case CalledIn => key == CallIn && f.calledIn
    case BankVerified => f.bankVerified
  }

  ghost predicate RowTells(f: W.File, key: SequenceKey, row: StepRow) {
    && (row.status == Scheduled ==> row.trigger == None && row.cancelledAt == None)
    && (row.status == Cancelled ==> row.trigger.Some? && row.cancelledAt.Some?)
    && (row.trigger.Some? ==> Holds(f, key, row.trigger.value))
  }

  ghost predicate RowsTell(s: Drip) {
    forall j | j in s.rows :: RowTells(s.file, j.key, s.rows[j])
  }

  lemma HoldsFurtherOn(f: W.File, call: I.Call, key: SequenceKey, why: Trigger)
    requires Holds(f, key, why)
    ensures Holds(I.After(f, call), key, why)
  {
    I.RankNeverFalls(f, call);
    I.FactsNeverTakenBack(f, call);
  }

  lemma RuleHolds(f: W.File, suppressed: bool, key: SequenceKey)
    requires EvaluateCancellation(key, ContextOf(f, suppressed)).Some?
    ensures Holds(f, key, EvaluateCancellation(key, ContextOf(f, suppressed)).value)
  {
  }

  lemma ExtraHolds(f: W.File, call: I.Call, key: SequenceKey)
    requires R.CarriedOut(f, call) && key in ExtraCancellations(call.action)
    ensures Holds(I.After(f, call), key, ExtraTrigger(call.action, I.After(f, call).status))
  {
    R.AfterIsTold(f, call);
  }

  lemma StatusHolds(f: W.File, call: I.Call, key: SequenceKey)
    requires R.CarriedOut(f, call)
    requires key in CancelledBy(TeardownStatus(call.action, I.After(f, call)))
    ensures Holds(I.After(f, call), key, StatusReached(TeardownStatus(call.action, I.After(f, call))))
  {
    R.AfterIsTold(f, call);
  }

  /** What the two teardowns do to one row. */
  lemma TornRow(rows: Rows, a: W.Action, f: W.File, named: set<SequenceKey>, torn: set<SequenceKey>, now: int, j: Job)
    requires j in rows
    ensures var t := TornDown(rows, a, f, named, torn, now);
            && t.Keys == rows.Keys
            && t[j] == if j.key in ExtraCancellations(a) && j.key in named
                       then CancelRow(rows[j], ExtraTrigger(a, f.status), now)
                       else if j.key in CancelledBy(TeardownStatus(a, f)) && j.key in torn
                       then CancelRow(rows[j], StatusReached(TeardownStatus(a, f)), now)
                       else rows[j]
  {
  }

  lemma RowStillTells(f: W.File, call: I.Call, key: SequenceKey, row: StepRow)
    requires RowTells(f, key, row)
    ensures RowTells(I.After(f, call), key, row)
  {
    if row.trigger.Some? { HoldsFurtherOn(f, call, key, row.trigger.value); }
  }

  lemma TornRowTells(s: Drip, call: I.Call, named: set<SequenceKey>, torn: set<SequenceKey>, j: Job)
    requires RowsTell(s) && j in s.rows && R.CarriedOut(s.file, call)
    ensures var f := I.After(s.file, call);
            && j in TornDown(s.rows, call.action, f, named, torn, call.now)
            && RowTells(f, j.key, TornDown(s.rows, call.action, f, named, torn, call.now)[j])
  {
    var f := I.After(s.file, call);
    RowStillTells(s.file, call, j.key, s.rows[j]);
    TornRow(s.rows, call.action, f, named, torn, call.now, j);
    if j.key in ExtraCancellations(call.action) { ExtraHolds(s.file, call, j.key); }
    if j.key in CancelledBy(TeardownStatus(call.action, f)) { StatusHolds(s.file, call, j.key); }
  }

  lemma TeardownTells(s: Drip, call: I.Call, named: set<SequenceKey>, torn: set<SequenceKey>)
    requires RowsTell(s)
    ensures RowsTell(DoAct(s, call, named, torn))
  {
    var t := DoAct(s, call, named, torn);
    forall j | j in t.rows ensures RowTells(t.file, j.key, t.rows[j]) {
      if R.CarriedOut(s.file, call) {
        RowStillTells(s.file, call, j.key, s.rows[j]);
        TornRowTells(s, call, named, torn, j);
      }
    }
  }

  lemma RunTells(s: Drip, job: Job, d: Delivery, now: int)
    requires RowsTell(s)
    ensures RowsTell(DoRun(s, job, d, now))
  {
    if Stopped(s, job.key) { RuleHolds(s.file, s.suppressed, job.key); }
  }

  lemma {:induction false} PlanningTells(s: Drip, plan: seq<Send>, written: seq<bool>, n: nat)
    requires n <= |plan| == |written| && RowsTell(s)
    ensures RowsTell(s.(rows := Planned(s.rows, plan, written, n)))
  {
    if n > 0 { PlanningTells(s, plan, written, n - 1); }
  }

  lemma StepTells(s: Drip, step: Step)
    requires RowsTell(s)
    ensures RowsTell(Take(s, step))
  {
    match step
    case Act(call, named, torn) => TeardownTells(s, call, named, torn);
    case RunJob(job, d, now) => RunTells(s, job, d, now);
    case Start(plan, written) =>
      if |written| == |plan| { PlanningTells(s, plan, written, |plan|); }
    case Suppress =>
    case Unsuppress =>
  }

  lemma {:induction false} RunsTell(s: Drip, steps: seq<Step>)
    requires RowsTell(s)
    ensures RowsTell(Run(s, steps))
    decreases |steps|
  {
    if steps != [] {
      StepTells(s, steps[0]);
      RunsTell(Take(s, steps[0]), steps[1..]);
    }
  }

  /**
    Over every run from an empty schedule, a cancelled row has a date and a reason, and
    the reason holds of the file as it is: the call was recorded, the account is
    verified, or a status was reached from which on its sequence is stopped.
   */
  lemma CancelledRowsTellWhy(s: Drip, steps: seq<Step>, j: Job)
    requires s.rows == map[] && j in Run(s, steps).rows && Run(s, steps).rows[j].status == Cancelled
    ensures var t := Run(s, steps);
            t.rows[j].cancelledAt.Some? && t.rows[j].trigger.Some? && Holds(t.file, j.key, t.rows[j].trigger.value)
  {
    RunsTell(s, steps);
  }

  /* -------------------------------------------------------- what a teardown reaches */

  /** By name or by status, an action tears down exactly the sequences the rules stop after it. */
  lemma TeardownReaches(f: W.File, call: I.Call, key: SequenceKey)
    requires R.RecordsFit(f) && R.CarriedOut(f, call) && !call.action.CountFailedAttempt? && !call.action.EditAmount?
    ensures var g := I.After(f, call);
            key in ExtraCancellations(call.action) || key in CancelledBy(TeardownStatus(call.action, g))
            <==> EvaluateCancellation(key, ContextOf(g, false)).Some?
  {
    var g := I.After(f, call);
    R.CallKeepsRecords(f, call);
    R.AfterIsTold(f, call);
    EagerListIsLazyRule(key, TeardownStatus(call.action, g));
    StoppedByHeight(g, key);
    StoppedByHeight(g.(status := TeardownStatus(call.action, g), calledIn := false, bankVerified := false), key);
  }

  /** The sequences an action stops by name, whatever the status it leads to. */
  ghost predicate Names(a: W.Action, key: SequenceKey) {
    (a.MarkAsCalledIn? && key == CallIn) || a.RecordBankVerified? || a.Expire?
  }

  /** Past in_review the calls stop, from bank_verification_complete on both sequences do. */
  ghost predicate PastDue(status: Status, key: SequenceKey) {
    Height(status) > if key == CallIn then 2 else 3
  }

  /** The reason given by name: the call, the verified account, or the expiry. */
  function NamedReason(a: W.Action): Trigger {
    match a
    case MarkAsCalledIn => CalledIn
    case RecordBankVerified => BankVerified
    case _ => StatusReached(Expired)
  }

  /** The status a teardown by status names: a confirmed deposit is told as such, though it leads to underwriting. */
  function StatusReason(a: W.Action, status: Status): Trigger {
    StatusReached(if a.ConfirmVerificationDeposit? then VerificationDepositConfirmed else status)
  }

  lemma NamedAsTold(f: W.File, call: I.Call, key: SequenceKey)
    requires R.CarriedOut(f, call)
    ensures key in ExtraCancellations(call.action) <==> Names(call.action, key)
    ensures Names(call.action, key) ==> ExtraTrigger(call.action, I.After(f, call).status) == NamedReason(call.action)
  {
    R.AfterIsTold(f, call);
  }

  lemma PastAsTold(f: W.File, call: I.Call, key: SequenceKey)
    requires R.CarriedOut(f, call)
    ensures var g := I.After(f, call);
            && (key in CancelledBy(TeardownStatus(call.action, g)) <==> PastDue(g.status, key))
            && StatusReached(TeardownStatus(call.action, g)) == StatusReason(call.action, g.status)
  {
    R.AfterIsTold(f, call);
  }

  /** An edit and a counted guess stop nothing. */
  ghost predicate Quiet(a: W.Action) {
    a.CountFailedAttempt? || a.EditAmount?
  }

  /** The rows after an action that is carried out are the teardown's. */
  lemma ActsThroughTeardown(s: Drip, call: I.Call, named: set<SequenceKey>, torn: set<SequenceKey>)
    requires R.CarriedOut(s.file, call) && !Quiet(call.action)
    ensures var t := Take(s, Act(call, named, torn));
            && t.file == I.After(s.file, call)
            && t.rows == TornDown(s.rows, call.action, t.file, named, torn, call.now)
  {
  }

  /** One row under the two teardowns, told by which of them are meant for its sequence. */
  lemma TornRowFor(rows: Rows, a: W.Action, g: W.File, named: set<SequenceKey>, torn: set<SequenceKey>, now: int,
                   j: Job, byName: bool, byStatus: bool, nameReason: Trigger, statusReason: Trigger)
    requires j in rows
    requires j.key in ExtraCancellations(a) <==> byName
    requires j.key in CancelledBy(TeardownStatus(a, g)) <==> byStatus
    requires byName ==> ExtraTrigger(a, g.status) == nameReason
    requires StatusReached(TeardownStatus(a, g)) == statusReason
    ensures var t := TornDown(rows, a, g, named, torn, now);
            && j in t
            && t[j] == if byName && j.key in named then Ended(rows[j], nameReason, now)
                       else if byStatus && j.key in torn then Ended(rows[j], statusReason, now) else rows[j]
  {
    TornRow(rows, a, g, named, torn, now, j);
  }

  /** The row if it was still scheduled cancelled at that time for that reason, and else untouched. */
  function Ended(row: StepRow, why: Trigger, now: int): StepRow {
    if row.status != Scheduled then row else StepRow(row.scheduledFor, Cancelled, Some(now), Some(why))
  }

  /**
    Each teardown on its own, whichever of its updates fail: the one by name, and after it
    the one by status, cancel the rows still scheduled in their sequences and say why.
   */
  lemma TeardownOfRow(s: Drip, call: I.Call, named: set<SequenceKey>, torn: set<SequenceKey>, j: Job)
    requires R.CarriedOut(s.file, call) && !Quiet(call.action) && j in s.rows
    ensures var t := Take(s, Act(call, named, torn));
            && j in t.rows
            && t.rows[j] ==
               if Names(call.action, j.key) && j.key in named then
                 Ended(s.rows[j], NamedReason(call.action), call.now)
               else if PastDue(t.file.status, j.key) && j.key in torn then
                 Ended(s.rows[j], StatusReason(call.action, t.file.status), call.now)
               else s.rows[j]
  {
    var g := I.After(s.file, call);
    ActsThroughTeardown(s, call, named, torn);
    NamedAsTold(s.file, call, j.key);
    PastAsTold(s.file, call, j.key);
    TornRowFor(s.rows, call.action, g, named, torn, call.now, j, Names(call.action, j.key), PastDue(g.status, j.key),
               NamedReason(call.action), StatusReason(call.action, g.status));
  }

  /** Apart from its teardown a loan action is itself; refused, or stopping nothing, it leaves the rows alone. */
  lemma ActingLeaves(s: Drip, call: I.Call, named: set<SequenceKey>, torn: set<SequenceKey>)
    ensures var t := Take(s, Act(call, named, torn));
            && t.file == I.After(s.file, call) && t.rows.Keys == s.rows.Keys
            && t.outbox == s.outbox && t.suppressed == s.suppressed
            && (!R.CarriedOut(s.file, call) || Quiet(call.action) ==> t.rows == s.rows)
  {
    R.AfterIsTold(s.file, call);
  }

  /** The number a teardown reports is that of the rows it cancels. */
  lemma CancelledAreCounted(rows: Rows, keys: set<SequenceKey>, trigger: Trigger, now: int)
    ensures ScheduledIn(rows, keys) == set j | j in rows && SequencesStopped(rows, keys, trigger, now)[j] != rows[j]
  {
  }

  const ALL: set<SequenceKey> := {CallIn, BankVerification}

  /**
    A teardown whose updates all get through cancels exactly the rows still scheduled
    in the sequences that the rules would now stop for the file's sake.
   */
  lemma TeardownIsComplete(s: Drip, call: I.Call, j: Job)
    requires R.RecordsFit(s.file) && R.CarriedOut(s.file, call) && !Quiet(call.action) && j in s.rows
    ensures var t := Take(s, Act(call, ALL, ALL));
            && j in t.rows
            && t.rows[j] == if !StoppedByFile(t, j.key) then s.rows[j]
                            else Ended(s.rows[j], if Names(call.action, j.key) then NamedReason(call.action)
                                                  else StatusReason(call.action, t.file.status), call.now)
  {
    TeardownOfRow(s, call, ALL, ALL, j);
    NamedAsTold(s.file, call, j.key);
    PastAsTold(s.file, call, j.key);
    TeardownReaches(s.file, call, j.key);
    assert j.key in ALL;
  }

  /* ----------------------------------------------------------- the schedule recorded */

  function JobOf(send: Send): Job {
    Job(send.slot.key, send.slot.step)
  }

  /** No step of a sequence is planned twice. */
  ghost predicate EachOnce(plan: seq<Send>) {
    forall i, k | 0 <= i < k < |plan| :: JobOf(plan[i]) != JobOf(plan[k])
  }

  /** The row of a planned step: new, or moved if still scheduled. */
  function Recorded(rows: Rows, send: Send): StepRow {
    if JobOf(send) !in rows then StepRow(send.at, Scheduled, None, None)
    else if rows[JobOf(send)].status == Scheduled then rows[JobOf(send)].(scheduledFor := send.at)
    else rows[JobOf(send)]
  }

  lemma {:induction false} OthersStay(rows: Rows, plan: seq<Send>, written: seq<bool>, n: nat, j: Job)
    requires n <= |plan| == |written|
    requires forall i | 0 <= i < n :: JobOf(plan[i]) != j || !written[i]
    ensures j in Planned(rows, plan, written, n) <==> j in rows
    ensures j in rows ==> Planned(rows, plan, written, n)[j] == rows[j]
  {
    if n > 0 { OthersStay(rows, plan, written, n - 1, j); }
  }

  lemma {:induction false} EachIsRecorded(rows: Rows, plan: seq<Send>, written: seq<bool>, n: nat, i: nat)
    requires n <= |plan| == |written| && EachOnce(plan) && i < n && written[i]
    ensures JobOf(plan[i]) in Planned(rows, plan, written, n)
    ensures Planned(rows, plan, written, n)[JobOf(plan[i])] == Recorded(rows, plan[i])
    decreases n
  {
    if i < n - 1 {
      EachIsRecorded(rows, plan, written, n - 1, i);
    } else {
      OthersStay(rows, plan, written, n - 1, JobOf(plan[i]));
    }
  }

  /**
    Starting a plan that names no step twice records each step whose write got through:
    a new one scheduled at its time, one still scheduled moved there, one settled left
    alone; and it touches no other row.
   */
  lemma StartRecordsPlan(s: Drip, plan: seq<Send>, written: seq<bool>, j: Job)
    requires EachOnce(plan) && |written| == |plan|
    ensures var t := Take(s, Start(plan, written));
            && (forall i | 0 <= i < |plan| && written[i] ::
                  JobOf(plan[i]) in t.rows && t.rows[JobOf(plan[i])] == Recorded(s.rows, plan[i]))
            && ((forall i | 0 <= i < |plan| && written[i] :: JobOf(plan[i]) != j) ==>
                  (j in t.rows <==> j in s.rows) && (j in s.rows ==> t.rows[j] == s.rows[j]))
            && t.file == s.file && t.outbox == s.outbox && t.suppressed == s.suppressed
  {
    forall i | 0 <= i < |plan| && written[i]
      ensures JobOf(plan[i]) in Planned(s.rows, plan, written, |plan|)
           && Planned(s.rows, plan, written, |plan|)[JobOf(plan[i])] == Recorded(s.rows, plan[i])
    {
      EachIsRecorded(s.rows, plan, written, |plan|, i);
    }
    if forall i | 0 <= i < |plan| && written[i] :: JobOf(plan[i]) != j {
      OthersStay(s.rows, plan, written, |plan|, j);
    }
  }

  /** Every schedule names each step once. */
  lemma ScheduleNamesEachOnce(submitted: int, c: Setting, keys: set<SequenceKey>)
    ensures EachOnce(Schedule(submitted, c, keys))
  {
    var plan := Schedule(submitted, c, keys);
    forall i, k | 0 <= i < k < |plan| ensures JobOf(plan[i]) != JobOf(plan[k]) {
      G.NoStepTwice(submitted, c, keys, i, k);
    }
  }

  /** Every step of a wanted sequence is in the schedule, and no other. */
  lemma JobIsPlannedIff(submitted: int, c: Setting, keys: set<SequenceKey>, j: Job)
    ensures (exists i | 0 <= i < |Schedule(submitted, c, keys)| :: JobOf(Schedule(submitted, c, keys)[i]) == j)
            <==> j.key in keys && 1 <= j.step <= G.StepsIn(j.key)
  {
    var plan := Schedule(submitted, c, keys);
    if j.key in keys && 1 <= j.step <= G.StepsIn(j.key) {
      var i := G.StepIsPlanned(submitted, c, keys, G.SlotOf(j.key, j.step));
      assert JobOf(plan[i]) == j;
    } else if i :| 0 <= i < |plan| && JobOf(plan[i]) == j {
      G.PlannedIsOnGrid(submitted, c, keys, i);
    }
  }

  /**
    A schedule started on an empty table, every write getting through: call reminders 1 to
    3 and bank reminders 1 to 6, of the sequences wanted, each scheduled at its planned time.
   */
  lemma StartedFromScratch(s: Drip, submitted: int, c: Setting, keys: set<SequenceKey>, written: seq<bool>, j: Job)
    requires s.rows == map[] && |written| == |Schedule(submitted, c, keys)|
    requires forall i | 0 <= i < |written| :: written[i]
    ensures var plan := Schedule(submitted, c, keys);
            var t := Take(s, Start(plan, written));
            && (j in t.rows <==> j.key in keys && 1 <= j.step <= G.StepsIn(j.key))
            && forall i | 0 <= i < |plan| && JobOf(plan[i]) == j ::
                 j in t.rows && t.rows[j] == StepRow(plan[i].at, Scheduled, None, None)
  {
    ScheduleNamesEachOnce(submitted, c, keys);
    JobIsPlannedIff(submitted, c, keys, j);
    StartRecordsPlan(s, Schedule(submitted, c, keys), written, j);
  }
}
