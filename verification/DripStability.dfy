/**
  Cancelled reminders stay cancelled, over every run of one application: loan
  actions with their teardown (which may fail), jobs, restarts of the schedule and
  new suppressions, in any order.
 */
module DripStability {
  import opened Options
  import opened LoanStatus
  import W = LoanWorkflow
  import I = LoanInvariants
  import opened DripSchedule
  import opened DripCancellation

  datatype Drip = Drip(file: W.File, suppressed: bool, rows: Rows, outbox: seq<Job>)

  datatype Step =
    | Act(call: I.Call, named: set<SequenceKey>, torn: set<SequenceKey>)  // the teardowns that got through
    | RunJob(job: Job, delivery: Delivery, now: int)
    | Start(plan: seq<Send>, written: seq<bool>)
    | Suppress
    | Unsuppress

  /* ------------------------------------------------------------ the teardown */

  /** Sequences an action cancels by name, besides those its status cancels. */
  function ExtraCancellations(a: W.Action): seq<SequenceKey> {
    match a
    case MarkAsCalledIn => [CallIn]
    case RecordBankVerified => [CallIn, BankVerification]
    case Expire => [CallIn, BankVerification]
    case _ => []
  }

  function ExtraTrigger(a: W.Action, status: Status): Trigger {
    match a
    case MarkAsCalledIn => CalledIn
    case RecordBankVerified => BankVerified
    case _ => StatusReached(status)
  }

  /** The status whose teardown runs: a confirmed deposit tears down for its first hop. */
  function TeardownStatus(a: W.Action, f: W.File): Status {
    if a.ConfirmVerificationDeposit? then VerificationDepositConfirmed else f.status
  }

  /** Counting a guess and editing a field tear nothing down. */
  predicate TearsDown(a: W.Action) {
    !a.CountFailedAttempt? && !a.EditAmount?
  }

  /** Two teardowns one after the other, by name and by status; each may fail on its own. */
  function TornDown(rows: Rows, a: W.Action, f: W.File,
                    named: set<SequenceKey>, torn: set<SequenceKey>, now: int): Rows
  {
    var extra := KeysOf(ExtraCancellations(a)) * named;
    var byStatus := KeysOf(CancelledBy(TeardownStatus(a, f))) * torn;
    var first := SequencesStopped(rows, extra, ExtraTrigger(a, f.status), now);
    SequencesStopped(first, byStatus, StatusReached(TeardownStatus(a, f)), now)
  }

  /** The teardown follows every accepted call, even one that had no column to write. */
  function DoAct(s: Drip, call: I.Call, named: set<SequenceKey>, torn: set<SequenceKey>): Drip {
    if W.Perform(s.file, call.action, call.who, call.now).Refused? then s
    else
      var f := I.After(s.file, call);
      s.(file := f,
         rows := if TearsDown(call.action) then TornDown(s.rows, call.action, f, named, torn, call.now) else s.rows)
  }

  function DoRun(s: Drip, job: Job, d: Delivery, now: int): Drip {
    s.(rows := Processed(s.rows, s.file, s.suppressed, job, d, now),
       outbox := if SendsMail(s.file, s.suppressed, job, d) then s.outbox + [job] else s.outbox,
       // a send is withheld only because the borrower has been suppressed since the re-check
       suppressed := s.suppressed ||
         (d.Withheld? && EvaluateCancellation(job.key, ContextOf(s.file, s.suppressed)) == None))
  }

  function Take(s: Drip, step: Step): Drip {
    match step
    case Act(call, named, torn) => DoAct(s, call, named, torn)
    case RunJob(job, d, now) => DoRun(s, job, d, now)
    case Start(plan, written) =>
      if |written| == |plan| then s.(rows := Planned(s.rows, plan, written, |plan|)) else s
    case Suppress => s.(suppressed := true)
    case Unsuppress => s.(suppressed := false)
  }

  function Run(s: Drip, steps: seq<Step>): Drip
    decreases |steps|
  {
    if steps == [] then s else Run(Take(s, steps[0]), steps[1..])
  }

  /** Re-read now, the rules cancel the sequence. */
  ghost predicate Stopped(s: Drip, key: SequenceKey) {
    EvaluateCancellation(key, ContextOf(s.file, s.suppressed)).Some?
  }

  /** They cancel it for the file's own sake, suppression aside. */
  ghost predicate StoppedByFile(s: Drip, key: SequenceKey) {
    EvaluateCancellation(key, ContextOf(s.file, false)).Some?
  }

  /* ---------------------------------------- once stopped, stopped for ever after */

  lemma StoppedByHeight(f: W.File, key: SequenceKey)
    ensures EvaluateCancellation(key, ContextOf(f, false)).Some? <==>
              match key
              case CallIn => f.calledIn || Height(f.status) > 2
              case BankVerification => f.bankVerified || Height(f.status) >= 4
  {
  }

  lemma FileStopIsStable(s: Drip, step: Step, key: SequenceKey)
    requires StoppedByFile(s, key)
    ensures StoppedByFile(Take(s, step), key)
  {
    if step.Act? {
      I.RankNeverFalls(s.file, step.call);
      I.FactsNeverTakenBack(s.file, step.call);
      StoppedByHeight(s.file, key);
      StoppedByHeight(I.After(s.file, step.call), key);
    }
  }

  lemma StopIsStable(s: Drip, step: Step, key: SequenceKey)
    requires Stopped(s, key) && step != Unsuppress
    ensures Stopped(Take(s, step), key)
  {
    if !s.suppressed {
      FileStopIsStable(s, step, key);
    }
  }

  function MailsOf(outbox: seq<Job>, key: SequenceKey): nat {
    if outbox == [] then 0
    else MailsOf(outbox[..|outbox| - 1], key) + (if outbox[|outbox| - 1].key == key then 1 else 0)
  }

  lemma StoppedSendsNothing(s: Drip, step: Step, key: SequenceKey)
    requires Stopped(s, key)
    ensures MailsOf(Take(s, step).outbox, key) == MailsOf(s.outbox, key)
  {
    if step.RunJob? && SendsMail(s.file, s.suppressed, step.job, step.delivery) {
      assert (s.outbox + [step.job])[..|s.outbox|] == s.outbox;
    }
  }

  /**
    Once the status, the call or the verified account stops a sequence, it is stopped
    in every later state and not one more of its emails goes out, even if the
    teardown failed, the schedule is restarted or a suppression is lifted.
   */
  lemma {:induction false} FileStopsForGood(s: Drip, steps: seq<Step>, key: SequenceKey)
    requires StoppedByFile(s, key)
    ensures StoppedByFile(Run(s, steps), key)
    ensures MailsOf(Run(s, steps).outbox, key) == MailsOf(s.outbox, key)
    decreases |steps|
  {
    if steps != [] {
      FileStopIsStable(s, steps[0], key);
      StoppedSendsNothing(s, steps[0], key);
      FileStopsForGood(Take(s, steps[0]), steps[1..], key);
    }
  }

  /* ------------------------------------------------- eager agrees with lazy */

  /** Every sequence an action tears down is one the re-check would stop as well. */
  lemma EagerImpliesLazy(f: W.File, call: I.Call, key: SequenceKey)
    requires W.Perform(f, call.action, call.who, call.now).Done? && TearsDown(call.action)
    requires var g := I.After(f, call);
             key in ExtraCancellations(call.action) || key in CancelledBy(TeardownStatus(call.action, g))
    ensures EvaluateCancellation(key, ContextOf(I.After(f, call), false)).Some?
  {
    var g := I.After(f, call);
    StoppedByHeight(g, key);
    EagerListIsLazyRule(key, TeardownStatus(call.action, g));
    StoppedByHeight(g.(status := TeardownStatus(call.action, g), calledIn := false, bankVerified := false), key);
  }

  /** Every cancelled row belongs to a sequence the rules stop. */
  ghost predicate CancelledAreStopped(s: Drip) {
    forall j | j in s.rows && s.rows[j].status == Cancelled :: Stopped(s, j.key)
  }

  lemma {:induction false} PlannedCancelsNothing(rows: Rows, plan: seq<Send>, written: seq<bool>, n: nat)
    requires n <= |plan| == |written|
    ensures forall j | j in rows && rows[j].status == Cancelled ::
              j in Planned(rows, plan, written, n) && Planned(rows, plan, written, n)[j] == rows[j]
    ensures forall j | j in Planned(rows, plan, written, n) && Planned(rows, plan, written, n)[j].status == Cancelled ::
              j in rows && rows[j].status == Cancelled
  {
    if n > 0 { PlannedCancelsNothing(rows, plan, written, n - 1); }
  }

  lemma TeardownCancelsStopped(s: Drip, call: I.Call, named: set<SequenceKey>, torn: set<SequenceKey>)
    requires CancelledAreStopped(s)
    ensures CancelledAreStopped(DoAct(s, call, named, torn))
  {
    var t := DoAct(s, call, named, torn);
    forall j | j in t.rows && t.rows[j].status == Cancelled ensures Stopped(t, j.key) {
      if s.rows[j].status == Cancelled {
        StopIsStable(s, Act(call, named, torn), j.key);
      } else {
        EagerImpliesLazy(s.file, call, j.key);
      }
    }
  }

  lemma StepKeepsCancelledStopped(s: Drip, step: Step)
    requires CancelledAreStopped(s) && step != Unsuppress
    ensures CancelledAreStopped(Take(s, step))
  {
    match step
    case Act(call, named, torn) => TeardownCancelsStopped(s, call, named, torn);
    case RunJob(_, _, _) =>
    case Start(plan, written) =>
      if |written| == |plan| { PlannedCancelsNothing(s.rows, plan, written, |plan|); }
    case Suppress =>
    case Unsuppress =>
  }

  /** A cancelled row is left exactly as it was, trigger and time included. */
  lemma CancelledRowStays(s: Drip, step: Step, j: Job)
    requires CancelledAreStopped(s) && j in s.rows && s.rows[j].status == Cancelled
    ensures j in Take(s, step).rows && Take(s, step).rows[j] == s.rows[j]
  {
    match step
    case Start(plan, written) =>
      if |written| == |plan| { PlannedCancelsNothing(s.rows, plan, written, |plan|); }
    case _ =>
  }

  function MailsFor(outbox: seq<Job>, job: Job): nat {
    if outbox == [] then 0
    else MailsFor(outbox[..|outbox| - 1], job) + (if outbox[|outbox| - 1] == job then 1 else 0)
  }

  lemma CancelledSendsNothing(s: Drip, step: Step, j: Job)
    requires Stopped(s, j.key)
    ensures MailsFor(Take(s, step).outbox, j) == MailsFor(s.outbox, j)
  {
    if step.RunJob? && SendsMail(s.file, s.suppressed, step.job, step.delivery) {
      assert (s.outbox + [step.job])[..|s.outbox|] == s.outbox;
    }
  }

  /** While no suppression is lifted, a cancelled step stays as recorded and its email never goes out. */
  lemma {:induction false} CancelledForGood(s: Drip, steps: seq<Step>, j: Job)
    requires CancelledAreStopped(s) && j in s.rows && s.rows[j].status == Cancelled
    requires forall i | 0 <= i < |steps| :: steps[i] != Unsuppress
    ensures CancelledAreStopped(Run(s, steps))
    ensures j in Run(s, steps).rows && Run(s, steps).rows[j] == s.rows[j]
    ensures MailsFor(Run(s, steps).outbox, j) == MailsFor(s.outbox, j)
    decreases |steps|
  {
    if steps != [] {
      StepKeepsCancelledStopped(s, steps[0]);
      CancelledRowStays(s, steps[0], j);
      CancelledSendsNothing(s, steps[0], j);
      CancelledForGood(Take(s, steps[0]), steps[1..], j);
    }
  }

  /**
    The hypothesis is needed: the job does not look at its row, so a cancelled step
    is sent, and its row overwritten, exactly when the rules have let go of it.
   */
  lemma CancelledRowIsSentIff(s: Drip, j: Job, now: int)
    requires j in s.rows && s.rows[j].status == Cancelled
    ensures var t := Take(s, RunJob(j, Delivered, now));
            (t.rows[j].status == Sent && t.outbox == s.outbox + [j]) <==> !Stopped(s, j.key)
  {
  }

  /** Such a run exists: cancelled while suppressed, sent once the suppression is lifted and the job runs again. */
  lemma {:induction false} LiftedSuppressionSends(s: Drip, j: Job, now: int, later: int)
    requires j in s.rows && s.rows[j].status == Scheduled && !StoppedByFile(s, j.key)
    ensures var t := Run(s, [Suppress, RunJob(j, Delivered, now)]);
            j in t.rows && t.rows[j].status == Cancelled && t.outbox == s.outbox
    ensures var t := Run(s, [Suppress, RunJob(j, Delivered, now), Unsuppress, RunJob(j, Delivered, later)]);
            j in t.rows && t.rows[j].status == Sent && t.outbox == s.outbox + [j]
  {
    var a, b, c, d := Suppress, RunJob(j, Delivered, now), Unsuppress, RunJob(j, Delivered, later);
    var s2 := Take(Take(s, a), b);
    assert [a, b][1..] == [b] && [b][1..] == [];
    assert Run(s, [a, b]) == Run(Take(s, a), [b]) == Run(s2, []);
    assert [a, b, c, d][1..] == [b, c, d] && [b, c, d][1..] == [c, d] && [c, d][1..] == [d] && [d][1..] == [];
    assert Run(s, [a, b, c, d]) == Run(Take(s, a), [b, c, d]) == Run(s2, [c, d]);
    assert Run(s2, [c, d]) == Run(Take(s2, c), [d]) == Run(Take(Take(s2, c), d), []);
  }
}
