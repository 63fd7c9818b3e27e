/**
  The rules of src/applications/services/application-intake.service.ts that turn a
  submission away. An SSN is a number, its hash being injective; a day is 24 hours.
 */
module IntakeBlocking {
  import opened Options
  import opened LoanStatus
  import opened LoanWorkflow
  import opened LoanInvariants

  const COOLDOWN := 7_776_000_000  // 90 days

  /** An application with the columns intake reads beside the workflow's own. */
  datatype Applicant = Applicant(ssn: nat, file: File, createdAt: int, paidOff: bool)

  type Table = seq<Applicant>

  datatype Block = ExactDuplicate | DeclinedCooldown(eligible: int) | FundedLoanOpen

  datatype Attempt = Attempt(ssn: nat, reason: Block)

  predicate InFlight(a: Applicant, ssn: nat) {
    a.ssn == ssn && a.file.status != Declined && a.file.status != Withdrawn && a.file.status != Expired
  }

  predicate DeclinedFor(a: Applicant, ssn: nat) {
    a.ssn == ssn && a.file.decision == DecidedDeclined
  }

  predicate RecentlyDeclined(a: Applicant, ssn: nat, now: int) {
    DeclinedFor(a, ssn) && a.createdAt > now - COOLDOWN
  }

  predicate OpenLoan(a: Applicant, ssn: nat) {
    a.ssn == ssn && a.file.status == Funded && !a.paidOff
  }

  /** The most recently created row that satisfies the query. */
  function Latest(t: Table, where: Applicant -> bool): (found: Option<nat>)
    ensures found.Some? ==> found.value < |t| && where(t[found.value])
                            && forall i | 0 <= i < |t| && where(t[i]) :: t[i].createdAt <= t[found.value].createdAt
    ensures found == None ==> forall i | 0 <= i < |t| :: !where(t[i])
  {
    if t == [] then None
    else
      var n := |t| - 1;
      var before := Latest(t[..n], where);
      if where(t[n]) && (before == None || t[before.value].createdAt <= t[n].createdAt) then Some(n) else before
  }

  /** The date a declined applicant is told: 90 days from the decision, or from submission if it has no date. */
  function EligibleAt(a: Applicant): int {
    (if a.file.decisionAt.Some? then a.file.decisionAt.value else a.createdAt) + COOLDOWN
  }

  /** The three rules in their order. */
  function Blocked(t: Table, ssn: nat, now: int): Option<Block> {
    if Latest(t, a => InFlight(a, ssn)).Some? then Some(ExactDuplicate)
    else
      var declined := Latest(t, a => RecentlyDeclined(a, ssn, now));
      if declined.Some? then Some(DeclinedCooldown(EligibleAt(t[declined.value])))
      else if Latest(t, a => OpenLoan(a, ssn)).Some? then Some(FundedLoanOpen)
      else None
  }

  function Submitted(t: Table, ssn: nat, amount: real, now: int): Table {
    if Blocked(t, ssn, now) == None then t + [Applicant(ssn, NewFile(amount, now), now, false)] else t
  }

  class IntakeService {
    var applications: Table
    var attempts: seq<Attempt>

    constructor ()
      ensures applications == [] && attempts == []
    {
      applications, attempts := [], [];
    }

    /** Every refusal is written down before it is thrown. */
    method AssertNotBlocked(ssn: nat, now: int) returns (block: Option<Block>)
      modifies this`attempts
      ensures block == Blocked(applications, ssn, now)
      ensures attempts == old(attempts) + if block == None then [] else [Attempt(ssn, block.value)]
    {
      var inFlight := Latest(applications, a => InFlight(a, ssn));
      if inFlight.Some? {
        attempts := attempts + [Attempt(ssn, ExactDuplicate)];
        return Some(ExactDuplicate);
      }
      var declined := Latest(applications, a => RecentlyDeclined(a, ssn, now));
      if declined.Some? {
        var eligible := EligibleAt(applications[declined.value]);
        attempts := attempts + [Attempt(ssn, DeclinedCooldown(eligible))];
        return Some(DeclinedCooldown(eligible));
      }
      var openLoan := Latest(applications, a => OpenLoan(a, ssn));
      if openLoan.Some? {
        attempts := attempts + [Attempt(ssn, FundedLoanOpen)];
        return Some(FundedLoanOpen);
      }
      block := None;
    }

    method Submit(ssn: nat, amount: real, now: int) returns (block: Option<Block>)
      modifies this
      ensures block == Blocked(old(applications), ssn, now)
      ensures applications == Submitted(old(applications), ssn, amount, now)
      ensures attempts == old(attempts) + if block == None then [] else [Attempt(ssn, block.value)]
    {
      block := AssertNotBlocked(ssn, now);
      if block == None {
        applications := applications + [Applicant(ssn, NewFile(amount, now), now, false)];
      }
    }
  }

  /* ------------------------------------------------------------- runs of requests */

  datatype Request =
    | Submit(ssn: nat, amount: real)
    | Act(i: nat, action: Action, who: Caller)
    | RecordPayoff(i: nat)

  /** A request and the time that has passed since the one before it. */
  datatype Event = Event(request: Request, elapsed: nat)

  datatype Desk = Desk(table: Table, clock: int)

  function Serve(t: Table, r: Request, now: int): Table {
    match r
    case Submit(ssn, amount) => Submitted(t, ssn, amount, now)
    case Act(i, action, who) =>
      if i < |t| then t[i := t[i].(file := After(t[i].file, Call(action, who, now)))] else t
    case RecordPayoff(i) =>
      if i < |t| then t[i := t[i].(paidOff := true)] else t
  }

  function Take(d: Desk, e: Event): Desk {
    Desk(Serve(d.table, e.request, d.clock + e.elapsed), d.clock + e.elapsed)
  }

  function Run(d: Desk, events: seq<Event>): Desk
    decreases |events|
  {
    if events == [] then d else Run(Take(d, events[0]), events[1..])
  }

  /** A state the service can get into, from an empty table. */
  ghost predicate Reachable(d: Desk) {
    exists events, start :: Run(Desk([], start), events) == d
  }

  ghost predicate OneInFlight(t: Table) {
    forall i, j | 0 <= i < |t| && 0 <= j < |t| && t[i].ssn == t[j].ssn
      && InFlight(t[i], t[i].ssn) && InFlight(t[j], t[j].ssn) :: i == j
  }

  /** A decision is complete, and falls between the file's birth and now. */
  ghost predicate Timely(a: Applicant, clock: int) {
    && DecisionsWhole(a.file)
    && a.createdAt <= clock
    && (a.file.decisionAt.Some? ==> a.createdAt <= a.file.decisionAt.value <= clock)
  }

  ghost predicate Whole(d: Desk) {
    OneInFlight(d.table) && forall i | 0 <= i < |d.table| :: Timely(d.table[i], d.clock)
  }

  /** A closed file is never reopened. */
  lemma ClosedStaysClosed(a: Applicant, call: Call)
    ensures InFlight(a.(file := After(a.file, call)), a.ssn) ==> InFlight(a, a.ssn)
  {
    if !InFlight(a, a.ssn) {
      TerminalCommitsStay(a.file, call);
    }
  }

  lemma DecisionIsDatedNow(f: File, call: Call)
    ensures After(f, call).decisionAt == f.decisionAt || After(f, call).decisionAt == Some(call.now)
  {
    match call.action
    case UpdateStatus(_) =>
    case MarkAsCalledIn =>
    case SendBankVerification =>
    case RecordBankVerified =>
    case SendLoanAgreement =>
    case RecordAgreementSigned =>
    case SendVerificationDeposit(_, _) =>
    case CountFailedAttempt =>
    case ConfirmVerificationDeposit =>
    case Approve(_, _, _) =>
    case Decline(_) =>
    case Fund(_) =>
    case Withdraw =>
    case Expire =>
    case EditAmount(_, _) =>
  }

  lemma ActingKeepsTimely(a: Applicant, call: Call, clock: int)
    requires Timely(a, clock) && clock <= call.now
    ensures Timely(a.(file := After(a.file, call)), call.now)
  {
    ActionKeepsDecisions(a.file, call);
    DecisionIsDatedNow(a.file, call);
  }

  lemma SubmittingKeepsOneInFlight(t: Table, ssn: nat, amount: real, now: int)
    requires OneInFlight(t)
    ensures OneInFlight(Submitted(t, ssn, amount, now))
  {
  }

  lemma SubmittingKeepsWhole(d: Desk, ssn: nat, amount: real, now: int)
    requires Whole(d) && d.clock <= now
    ensures Whole(Desk(Submitted(d.table, ssn, amount, now), now))
  {
    SubmittingKeepsOneInFlight(d.table, ssn, amount, now);
    BornWhole(amount, now);
  }

  lemma ReplacingKeepsWhole(d: Desk, i: nat, a: Applicant, now: int)
    requires Whole(d) && i < |d.table| && d.clock <= now
    requires a.ssn == d.table[i].ssn && (InFlight(a, a.ssn) ==> InFlight(d.table[i], d.table[i].ssn))
    requires Timely(a, now)
    ensures Whole(Desk(d.table[i := a], now))
  {
  }

  lemma TimeKeepsWhole(d: Desk, now: int)
    requires Whole(d) && d.clock <= now
    ensures Whole(Desk(d.table, now))
  {
  }

  /** The file after a call, as its applicant's row holds it. */
  lemma ActedRow(a: Applicant, call: Call, clock: int, acted: Applicant)
    requires Timely(a, clock) && clock <= call.now
    requires acted == a.(file := After(a.file, call))
    ensures acted.ssn == a.ssn && Timely(acted, call.now)
    ensures InFlight(acted, acted.ssn) ==> InFlight(a, a.ssn)
  {
    ClosedStaysClosed(a, call);
    ActingKeepsTimely(a, call, clock);
  }

  lemma ActingKeepsWhole(d: Desk, i: nat, call: Call)
    requires Whole(d) && i < |d.table| && d.clock <= call.now
    ensures Whole(Desk(d.table[i := d.table[i].(file := After(d.table[i].file, call))], call.now))
  {
    var acted := d.table[i].(file := After(d.table[i].file, call));
    assert Timely(d.table[i], d.clock);
    ActedRow(d.table[i], call, d.clock, acted);
    ReplacingKeepsWhole(d, i, acted, call.now);
  }

  lemma PayingOffKeepsWhole(d: Desk, i: nat, now: int)
    requires Whole(d) && i < |d.table| && d.clock <= now
    ensures Whole(Desk(d.table[i := d.table[i].(paidOff := true)], now))
  {
    assert Timely(d.table[i], d.clock);
    ReplacingKeepsWhole(d, i, d.table[i].(paidOff := true), now);
  }

  lemma ActingServes(t: Table, i: nat, action: Action, who: Caller, now: int)
    ensures Serve(t, Act(i, action, who), now)
            == if i < |t| then t[i := t[i].(file := After(t[i].file, Call(action, who, now)))] else t
  {
  }

  lemma ServingKeepsWhole(d: Desk, r: Request, now: int, served: Table)
    requires Whole(d) && d.clock <= now && served == Serve(d.table, r, now)
    ensures Whole(Desk(served, now))
  {
    match r
    case Submit(ssn, amount) => SubmittingKeepsWhole(d, ssn, amount, now);
    case Act(i, action, who) =>
      ActingServes(d.table, i, action, who, now);
      if i < |d.table| { ActingKeepsWhole(d, i, Call(action, who, now)); } else { TimeKeepsWhole(d, now); }
    case RecordPayoff(i) =>
      if i < |d.table| { PayingOffKeepsWhole(d, i, now); } else { TimeKeepsWhole(d, now); }
  }

  lemma StepKeepsWhole(d: Desk, e: Event, next: Desk)
    requires Whole(d) && next == Take(d, e)
    ensures Whole(next)
  {
    assert next == Desk(next.table, next.clock);
    ServingKeepsWhole(d, e.request, next.clock, next.table);
  }

  /** What every step keeps, a run keeps. */
  lemma {:induction false} RunKeeps(d: Desk, events: seq<Event>, kept: Desk -> bool)
    requires kept(d)
    requires forall x, e | kept(x) :: kept(Take(x, e))
    ensures kept(Run(d, events))
    decreases |events|
  {
    if events != [] {
      RunKeeps(Take(d, events[0]), events[1..], kept);
    }
  }

  lemma RunKeepsWhole(d: Desk, events: seq<Event>)
    requires Whole(d)
    ensures Whole(Run(d, events))
  {
    var kept := (x: Desk) => Whole(x);
    forall x, e | kept(x) ensures kept(Take(x, e)) {
      StepKeepsWhole(x, e, Take(x, e));
    }
    RunKeeps(d, events, kept);
  }

  lemma ReachableIsWhole(d: Desk)
    requires Reachable(d)
    ensures Whole(d)
  {
    var events, start :| Run(Desk([], start), events) == d;
    RunKeepsWhole(Desk([], start), events);
  }

  /** However submissions and loan actions follow each other, an SSN never has two files in flight. */
  lemma OneFileInFlightPerSsn(d: Desk, i: nat, j: nat)
    requires Reachable(d) && i < |d.table| && j < |d.table| && d.table[i].ssn == d.table[j].ssn
    requires InFlight(d.table[i], d.table[i].ssn) && InFlight(d.table[j], d.table[j].ssn)
    ensures i == j
  {
    ReachableIsWhole(d);
  }

  /* -------------------------------------------------------------- the three rules */

  /** The rule on open funded loans can never be the one that blocks, on any table at all. */
  lemma FundedRuleIsNeverReached(t: Table, ssn: nat, now: int)
    ensures Blocked(t, ssn, now) != Some(FundedLoanOpen)
    ensures forall i | 0 <= i < |t| && OpenLoan(t[i], ssn) :: Blocked(t, ssn, now) == Some(ExactDuplicate)
  {
    forall i | 0 <= i < |t| && OpenLoan(t[i], ssn)
      ensures Latest(t, a => InFlight(a, ssn)).Some?
    {
      assert InFlight(t[i], ssn);
    }
  }

  /** A submission goes through exactly when no file is in flight and none declined was created in the last 90 days. */
  lemma AdmittedIff(t: Table, ssn: nat, now: int)
    ensures Blocked(t, ssn, now) == None <==>
            forall i | 0 <= i < |t| ::
              !InFlight(t[i], ssn) && (DeclinedFor(t[i], ssn) ==> t[i].createdAt + COOLDOWN <= now)
  {
    FundedRuleIsNeverReached(t, ssn, now);
    if Blocked(t, ssn, now) == None {
      forall i | 0 <= i < |t|
        ensures !InFlight(t[i], ssn) && (DeclinedFor(t[i], ssn) ==> t[i].createdAt + COOLDOWN <= now)
      {
        assert !RecentlyDeclined(t[i], ssn, now);
      }
    } else if Latest(t, a => InFlight(a, ssn)) == None {
      assert RecentlyDeclined(t[Latest(t, a => RecentlyDeclined(a, ssn, now)).value], ssn, now);
    }
  }

  /** A file that was declined, to be reconsidered from `eligible` on. */
  ghost predicate DeclinedUntil(a: Applicant, ssn: nat, eligible: int) {
    && a.ssn == ssn && a.file.status == Declined
    && a.file.decisionAt == Some(eligible - COOLDOWN)
    && a.file.reapplyDay == Some(DateOf(eligible))
  }

  lemma RecentDeclineHasItsDate(a: Applicant, clock: int, ssn: nat, now: int)
    requires Timely(a, clock) && RecentlyDeclined(a, ssn, now)
    ensures now < EligibleAt(a) && DeclinedUntil(a, ssn, EligibleAt(a))
  {
    CooldownDate(a.file.decisionAt.value);
  }

  /** In every reachable state a cooldown refusal names a date still to come, the one a declined file was given. */
  lemma CooldownNamesAFutureDate(d: Desk, ssn: nat, now: int)
    requires Reachable(d) && d.clock <= now
    requires Blocked(d.table, ssn, now).Some? && Blocked(d.table, ssn, now).value.DeclinedCooldown?
    ensures var eligible := Blocked(d.table, ssn, now).value.eligible;
            && now < eligible
            && exists a :: a in d.table && DeclinedUntil(a, ssn, eligible)
  {
    var i := Latest(d.table, a => RecentlyDeclined(a, ssn, now)).value;
    assert Timely(d.table[i], d.clock) by { ReachableIsWhole(d); }
    RecentDeclineHasItsDate(d.table[i], d.clock, ssn, now);
  }

  /** The reapply date given with a decline is still ahead. */
  ghost predicate PromisedLater(a: Applicant, ssn: nat, now: int) {
    DeclinedFor(a, ssn) && now < EligibleAt(a)
  }

  /**
    The cooldown is looked up by creation date but promised from the decision, so
    it is kept from some moment on exactly when, for each declined file, that date
    has passed by then or another (or the same) declined file was created no earlier
    than the decision. Otherwise a submission is let in too soon.
   */
  lemma ReapplyDateIsKeptIff(t: Table, ssn: nat, from: int)
    requires forall i | 0 <= i < |t| :: !InFlight(t[i], ssn)
    ensures (forall now, i | from <= now && 0 <= i < |t| && PromisedLater(t[i], ssn, now) ::
               Blocked(t, ssn, now) != None)
            <==>
            (forall i | 0 <= i < |t| && PromisedLater(t[i], ssn, from) ::
               exists j :: 0 <= j < |t| && DeclinedFor(t[j], ssn) && EligibleAt(t[i]) <= t[j].createdAt + COOLDOWN)
  {
    if forall i | 0 <= i < |t| && PromisedLater(t[i], ssn, from) ::
         exists j :: 0 <= j < |t| && DeclinedFor(t[j], ssn) && EligibleAt(t[i]) <= t[j].createdAt + COOLDOWN {
      forall now, i | from <= now && 0 <= i < |t| && PromisedLater(t[i], ssn, now)
        ensures Blocked(t, ssn, now) != None
      {
        assert PromisedLater(t[i], ssn, from);
        AdmittedIff(t, ssn, now);
      }
    } else {
      var i :| 0 <= i < |t| && PromisedLater(t[i], ssn, from)
        && forall j :: 0 <= j < |t| && DeclinedFor(t[j], ssn) ==> t[j].createdAt + COOLDOWN < EligibleAt(t[i]);
      var now := EligibleAt(t[i]) - 1;
      assert PromisedLater(t[i], ssn, now);
      AdmittedIff(t, ssn, now);
    }
  }

  /** Submitted on day 0 and declined on day 60, a file is promised another look on day 150. */
  function DeclinedOnDaySixty(ssn: nat, amount: real, who: Caller): seq<Event> {
    [Event(Submit(ssn, amount), 0), Event(Act(0, Decline([DuplicateApplication]), who), 60 * DAY)]
  }

  lemma DeclinedFile(amount: real, who: Caller)
    ensures var f := After(NewFile(amount, 0), Call(Decline([DuplicateApplication]), who, 60 * DAY));
            f.status == Declined && f.decision == DecidedDeclined && f.decisionAt == Some(60 * DAY)
  {
    EdgesClimb(PendingCall, Declined);
  }

  /** Yet on day 91 a new submission is let in: the promise is broken from the very start. */
  lemma ReapplyDateCanBeBroken(ssn: nat, amount: real, who: Caller)
    ensures var d := Run(Desk([], 0), DeclinedOnDaySixty(ssn, amount, who));
            && Reachable(d) && d.clock <= 91 * DAY
            && |d.table| == 1 && PromisedLater(d.table[0], ssn, 91 * DAY)
            && EligibleAt(d.table[0]) == 150 * DAY
            && Blocked(d.table, ssn, 91 * DAY) == None
  {
    var events := DeclinedOnDaySixty(ssn, amount, who);
    var d1 := Take(Desk([], 0), events[0]);
    var d2 := Take(d1, events[1]);
    AdmittedIff([], ssn, 0);
    assert d1.table == [Applicant(ssn, NewFile(amount, 0), 0, false)];
    DeclinedFile(amount, who);
    assert events[1..][1..] == [];
    assert Run(Desk([], 0), events) == Run(d1, events[1..]) == Run(d2, events[1..][1..]) == d2;
    AdmittedIff(d2.table, ssn, 91 * DAY);
  }
}
