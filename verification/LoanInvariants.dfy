/**
  What every run of loan actions keeps: the committed statuses follow the table,
  decisions are complete, and a link the tracker agrees to mint can be redeemed.
 */
module LoanInvariants {
  import opened Options
  import opened LoanStatus
  import opened LoanWorkflow

  datatype Call = Call(action: Action, who: Caller, now: int)

  /** The rows a call commits, none when it is refused. */
  function Commits(f: File, call: Call): seq<File> {
    match Perform(f, call.action, call.who, call.now)
    case Refused(_) => []
    case Done(commits, _) => commits
  }

  /** The row in the database after the call. */
  function After(f: File, call: Call): (g: File) {
    var commits := Commits(f, call);
    if commits == [] then f else commits[|commits| - 1]
  }

  /** Every row committed by the calls, in order. */
  function History(f: File, calls: seq<Call>): seq<File>
    decreases |calls|
  {
    if calls == [] then [] else Commits(f, calls[0]) + History(After(f, calls[0]), calls[1..])
  }

  function Final(f: File, calls: seq<Call>): File
    decreases |calls|
  {
    if calls == [] then f else Final(After(f, calls[0]), calls[1..])
  }

  /* ----------------------------------------------- the actions refine the table */

  /** From `from`, each committed status is the one before it or a legal edge away. */
  ghost predicate FollowsTable(from: Status, commits: seq<File>)
    decreases |commits|
  {
    commits == [] ||
    ((from == commits[0].status || CanTransition(from, commits[0].status))
     && FollowsTable(commits[0].status, commits[1..]))
  }

  /** At most two rows: one unchanged or a legal edge away, or two legal edges in a row. */
  ghost predicate Hops(from: Status, commits: seq<File>) {
    || |commits| == 0
    || (|commits| == 1 && (from == commits[0].status || CanTransition(from, commits[0].status)))
    || (|commits| == 2 && CanTransition(from, commits[0].status)
        && CanTransition(commits[0].status, commits[1].status))
  }

  lemma {:induction false} HopsFollowTable(from: Status, commits: seq<File>)
    requires Hops(from, commits)
    ensures FollowsTable(from, commits)
    decreases |commits|
  {
    if commits != [] {
      HopsFollowTable(commits[0].status, commits[1..]);
    }
  }

  lemma TwoCommitsHop(f: File, call: Call)
    requires call.action.RecordBankVerified? || call.action.ConfirmVerificationDeposit?
    ensures Hops(f.status, Commits(f, call))
  {
  }

  lemma ExitsHop(f: File, call: Call)
    requires call.action.Decline? || call.action.Withdraw? || call.action.Expire?
    ensures Hops(f.status, Commits(f, call))
  {
    EdgesClimb(f.status, Declined);
    EdgesClimb(f.status, Withdrawn);
    EdgesClimb(f.status, Expired);
  }

  lemma LinkCallsHop(f: File, call: Call)
    requires call.action.SendBankVerification? || call.action.SendLoanAgreement?
          || call.action.RecordAgreementSigned? || call.action.SendVerificationDeposit?
    ensures Hops(f.status, Commits(f, call))
  {
  }

  /** A one-commit action leaves its status or takes a legal edge; the others take two. */
  lemma ActionHops(f: File, call: Call)
    ensures Hops(f.status, Commits(f, call))
  {
    match call.action
    case UpdateStatus(_) =>
    case MarkAsCalledIn =>
    case SendBankVerification => LinkCallsHop(f, call);
    case RecordBankVerified => TwoCommitsHop(f, call);
    case SendLoanAgreement => LinkCallsHop(f, call);
    case RecordAgreementSigned => LinkCallsHop(f, call);
    case SendVerificationDeposit(_, _) => LinkCallsHop(f, call);
    case CountFailedAttempt =>
    case ConfirmVerificationDeposit => TwoCommitsHop(f, call);
    case Approve(_, _, _) =>
    case Decline(_) => ExitsHop(f, call);
    case Fund(_) =>
    case Withdraw => ExitsHop(f, call);
    case Expire => ExitsHop(f, call);
    case EditAmount(_, _) =>
  }

  /** Both hops of a two-hop action included. */
  lemma {:induction false} ActionFollowsTable(f: File, call: Call)
    ensures FollowsTable(f.status, Commits(f, call))
  {
    ActionHops(f, call);
    HopsFollowTable(f.status, Commits(f, call));
  }

  lemma {:induction false} TableConcat(from: Status, a: seq<File>, b: seq<File>)
    requires FollowsTable(from, a)
    requires FollowsTable(if a == [] then from else a[|a| - 1].status, b)
    ensures FollowsTable(from, a + b)
    decreases |a|
  {
    if a == [] {
      assert a + b == b;
    } else {
      assert (a + b)[1..] == a[1..] + b;
      TableConcat(a[0].status, a[1..], b);
    }
  }

  /** Every status ever committed is unchanged or a legal edge of the table. */
  lemma {:induction false} EveryRunFollowsTable(f: File, calls: seq<Call>)
    ensures FollowsTable(f.status, History(f, calls))
    decreases |calls|
  {
    if calls != [] {
      ActionFollowsTable(f, calls[0]);
      EveryRunFollowsTable(After(f, calls[0]), calls[1..]);
      TableConcat(f.status, Commits(f, calls[0]), History(After(f, calls[0]), calls[1..]));
    }
  }

  function StatusChanges(from: Status, commits: seq<File>): nat
    decreases |commits|
  {
    if commits == [] then 0
    else (if from == commits[0].status then 0 else 1) + StatusChanges(commits[0].status, commits[1..])
  }

  function LastStatus(from: Status, commits: seq<File>): Status {
    if commits == [] then from else commits[|commits| - 1].status
  }

  lemma {:induction false} ChangesClimb(from: Status, commits: seq<File>)
    requires FollowsTable(from, commits)
    ensures Height(from) + StatusChanges(from, commits) <= Height(LastStatus(from, commits))
    decreases |commits|
  {
    if commits != [] {
      EdgesClimb(from, commits[0].status);
      ChangesClimb(commits[0].status, commits[1..]);
    }
  }

  lemma AfterIsLast(f: File, call: Call)
    ensures After(f, call).status == LastStatus(f.status, Commits(f, call))
  {
  }

  /** No call ever brings a file down the ladder. */
  lemma {:induction false} RankNeverFalls(f: File, call: Call)
    ensures Height(f.status) <= Height(After(f, call).status)
  {
    ActionFollowsTable(f, call);
    AfterIsLast(f, call);
    ChangesClimb(f.status, Commits(f, call));
  }

  /** Nor takes back a call or a verified account. */
  lemma FactsNeverTakenBack(f: File, call: Call)
    ensures f.calledIn ==> After(f, call).calledIn
    ensures f.bankVerified ==> After(f, call).bankVerified
  {
    match call.action
    case UpdateStatus(_) =>
    case MarkAsCalledIn =>
    case SendBankVerification =>
    case RecordBankVerified =>
    case SendLoanAgreement =>
    case RecordAgreementSigned =>
    case SendVerificationDeposit(_, _) =>
    case CountFailedAttempt =>
    case ConfirmVerificationDeposit =>
    case Approve(_, _, _) =>
    case Decline(_) =>
    case Fund(_) =>
    case Withdraw =>
    case Expire =>
    case EditAmount(_, _) =>
  }

  /** A file born in PENDING_CALL changes status at most ten times, whatever happens to it. */
  lemma AtMostTenChanges(amount: real, born: int, calls: seq<Call>)
    ensures StatusChanges(PendingCall, History(NewFile(amount, born), calls)) <= 10
  {
    EveryRunFollowsTable(NewFile(amount, born), calls);
    ChangesClimb(PendingCall, History(NewFile(amount, born), calls));
  }

  /** A terminal status is never left. */
  lemma {:induction false} TerminalIsAbsorbing(f: File, calls: seq<Call>)
    requires IsTerminal(f.status)
    ensures forall i | 0 <= i < |History(f, calls)| :: History(f, calls)[i].status == f.status
    decreases |calls|
  {
    if calls != [] {
      TerminalCommitsStay(f, calls[0]);
      TerminalIsAbsorbing(After(f, calls[0]), calls[1..]);
    }
  }

  lemma TerminalCommitsStay(f: File, call: Call)
    requires IsTerminal(f.status)
    ensures forall i | 0 <= i < |Commits(f, call)| :: Commits(f, call)[i].status == f.status
  {
    var commits := Commits(f, call);
    TerminalIffNoExit(f.status);
    ActionFollowsTable(f, call);
    if commits != [] {
      assert !CanTransition(f.status, commits[0].status);
    }
    if |commits| > 1 {
      assert commits[1..][0] == commits[1];
      assert !CanTransition(commits[0].status, commits[1].status);
    }
  }

  /* --------------------------------------------------------- decisions are whole */

  ghost predicate DecisionsWhole(f: File) {
    && f.status != Received
    && (f.status == Declined <==> f.decision == DecidedDeclined)
    && (f.status == Declined ==>
          && f.reasonCodes != [] && KnownCodes(f.reasonCodes)
          && f.decisionAt.Some?
          && f.reapplyDay == Some(DateOf(f.decisionAt.value) + DECLINE_COOLDOWN_DAYS))
    && (f.status == Approved || f.status == Funded ==>
          && f.decision == DecidedApproved
          && f.termMonths.Some? && f.termMonths.value >= 1
          && f.apr.Some? && f.apr.value >= 0.0)
    && (f.status == Funded ==>
          && f.fundedAmount.Some? && f.fundedAgainst.Some?
          && 0.0 < f.fundedAmount.value <= f.fundedAgainst.value)
    && (f.decision == DecidedApproved ==> f.status in {Approved, Funded, Expired, Withdrawn})
    && (f.decision == DecidedWithdrawn ==> f.status == Withdrawn)
  }

  lemma CooldownDate(now: int)
    ensures DateOf(now + DECLINE_COOLDOWN_DAYS * DAY) == DateOf(now) + DECLINE_COOLDOWN_DAYS
  {
  }

  /** The fields a decision depends on are all that matters to `DecisionsWhole`. */
  lemma SameDecision(f: File, g: File)
    requires DecisionsWhole(f)
    requires g == f.(status := g.status, calledIn := g.calledIn, calledInBy := g.calledInBy,
                     bankVerified := g.bankVerified, agreementSentAt := g.agreementSentAt,
                     amount1 := g.amount1, amount2 := g.amount2, attempts := g.attempts,
                     confirmedAt := g.confirmedAt, amountRequested := g.amountRequested,
                     updatedAt := g.updatedAt)
    requires g.status == f.status
          || (CanTransition(f.status, g.status) && !DedicatedActionStatus(g.status))
    ensures DecisionsWhole(g)
  {
    EdgesClimb(f.status, g.status);
  }

  ghost predicate AllDecisionsWhole(commits: seq<File>) {
    forall g | g in commits :: DecisionsWhole(g)
  }

  lemma ApprovingKeepsDecisions(f: File, call: Call)
    requires DecisionsWhole(f) && (call.action.Approve? || call.action.Fund?)
    ensures AllDecisionsWhole(Commits(f, call))
  {
  }

  lemma DecliningKeepsDecisions(f: File, call: Call)
    requires DecisionsWhole(f) && call.action.Decline?
    ensures AllDecisionsWhole(Commits(f, call))
  {
    CooldownDate(call.now);
  }

  lemma WithdrawingKeepsDecisions(f: File, call: Call)
    requires DecisionsWhole(f) && call.action.Withdraw?
    ensures AllDecisionsWhole(Commits(f, call))
  {
  }

  lemma VerifyingKeepsDecisions(f: File, call: Call)
    requires DecisionsWhole(f) && call.action.RecordBankVerified?
    ensures AllDecisionsWhole(Commits(f, call))
  {
    var commits := Commits(f, call);
    if commits != [] { SameDecision(f, commits[0]); }
    if |commits| == 2 { SameDecision(commits[0], commits[1]); }
  }

  lemma ConfirmingKeepsDecisions(f: File, call: Call)
    requires DecisionsWhole(f) && call.action.ConfirmVerificationDeposit?
    ensures AllDecisionsWhole(Commits(f, call))
  {
    var commits := Commits(f, call);
    if commits != [] {
      SameDecision(f, commits[0]);
      SameDecision(commits[0], commits[1]);
    }
  }

  lemma ChangingStatusKeepsDecisions(f: File, call: Call)
    requires DecisionsWhole(f) && call.action.UpdateStatus?
    ensures AllDecisionsWhole(Commits(f, call))
  {
    var commits := Commits(f, call);
    if commits != [] { SameDecision(f, commits[0]); }
  }

  lemma AgreementKeepsDecisions(f: File, call: Call)
    requires DecisionsWhole(f) && (call.action.SendLoanAgreement? || call.action.RecordAgreementSigned?)
    ensures AllDecisionsWhole(Commits(f, call))
  {
    var commits := Commits(f, call);
    if commits != [] { SameDecision(f, commits[0]); }
  }

  lemma ContactKeepsDecisions(f: File, call: Call)
    requires DecisionsWhole(f) && (call.action.MarkAsCalledIn? || call.action.SendBankVerification?)
    ensures AllDecisionsWhole(Commits(f, call))
  {
    var commits := Commits(f, call);
    if commits != [] { SameDecision(f, commits[0]); }
  }

  lemma DepositKeepsDecisions(f: File, call: Call)
    requires DecisionsWhole(f) && (call.action.SendVerificationDeposit? || call.action.CountFailedAttempt?)
    ensures AllDecisionsWhole(Commits(f, call))
  {
    var commits := Commits(f, call);
    if commits != [] { SameDecision(f, commits[0]); }
  }

  lemma ExpiringKeepsDecisions(f: File, call: Call)
    requires DecisionsWhole(f) && call.action.Expire?
    ensures AllDecisionsWhole(Commits(f, call))
  {
    var commits := Commits(f, call);
    EdgesClimb(f.status, Expired);
    if commits != [] { SameDecision(f, commits[0]); }
  }

  lemma EditingKeepsDecisions(f: File, call: Call)
    requires DecisionsWhole(f) && call.action.EditAmount?
    ensures AllDecisionsWhole(Commits(f, call))
  {
    var commits := Commits(f, call);
    if commits != [] { SameDecision(f, commits[0]); }
  }

  lemma ActionKeepsDecisions(f: File, call: Call)
    requires DecisionsWhole(f)
    ensures AllDecisionsWhole(Commits(f, call))
  {
    match call.action
    case UpdateStatus(_) => ChangingStatusKeepsDecisions(f, call);
    case MarkAsCalledIn => ContactKeepsDecisions(f, call);
    case SendBankVerification => ContactKeepsDecisions(f, call);
    case RecordBankVerified => VerifyingKeepsDecisions(f, call);
    case SendLoanAgreement => AgreementKeepsDecisions(f, call);
    case RecordAgreementSigned => AgreementKeepsDecisions(f, call);
    case SendVerificationDeposit(_, _) => DepositKeepsDecisions(f, call);
    case CountFailedAttempt => DepositKeepsDecisions(f, call);
    case ConfirmVerificationDeposit => ConfirmingKeepsDecisions(f, call);
    case Approve(_, _, _) => ApprovingKeepsDecisions(f, call);
    case Decline(_) => DecliningKeepsDecisions(f, call);
    case Fund(_) => ApprovingKeepsDecisions(f, call);
    case Withdraw => WithdrawingKeepsDecisions(f, call);
    case Expire => ExpiringKeepsDecisions(f, call);
    case EditAmount(_, _) => EditingKeepsDecisions(f, call);
  }

  /** In every row ever committed, from birth on, decisions carry everything they oblige. */
  lemma {:induction false} EveryRunKeepsDecisions(f: File, calls: seq<Call>)
    requires DecisionsWhole(f)
    ensures forall g | g in History(f, calls) :: DecisionsWhole(g)
    ensures DecisionsWhole(Final(f, calls))
    decreases |calls|
  {
    if calls != [] {
      ActionKeepsDecisions(f, calls[0]);
      EveryRunKeepsDecisions(After(f, calls[0]), calls[1..]);
    }
  }

  lemma BornWhole(amount: real, now: int)
    ensures DecisionsWhole(NewFile(amount, now)) && LinksWhole(NewFile(amount, now))
  {
  }

  /** Someone at rest stays declined for good, and the reapply date never moves. */
  lemma {:induction false} DeclineIsFinal(f: File, calls: seq<Call>)
    requires f.status == Declined
    ensures Final(f, calls).status == Declined
    ensures Final(f, calls).decision == f.decision && Final(f, calls).reapplyDay == f.reapplyDay
    ensures Final(f, calls).reasonCodes == f.reasonCodes
    decreases |calls|
  {
    if calls != [] {
      DeclineIsFinal(After(f, calls[0]), calls[1..]);
    }
  }

  /* ------------------------------------------- what a call writes, and what it answers */

  /** The guards of an action, without its email override. */
  ghost predicate Accepted(f: File, a: Action, who: Caller, now: int) {
    Perform(f, a, who.(sendEmail := true), now).Done?
  }

  /** Actions that notify the borrower under the caller's override. */
  predicate Notifies(a: Action) {
    !a.CountFailedAttempt? && !a.Expire? && !a.EditAmount?
  }

  /** A second sending of the same thing, which changes no column. */
  predicate OnlyResends(f: File, a: Action) {
    || (a.SendBankVerification? && !PreVerification(f.status))
    || (a.SendLoanAgreement? && f.status == AgreementSent && f.agreementSentAt.Some?)
  }

  /**
    A call reports an error although it was carried out exactly when its guards
    accept it and it suppresses the notice without giving a reason; the rows it
    commits do not depend on the override.
   */
  lemma ErrorAfterCommitIff(f: File, call: Call)
    requires Notifies(call.action)
    ensures (Perform(f, call.action, call.who, call.now).Done?
             && Perform(f, call.action, call.who, call.now).reply == SuppressionReasonMissing)
            <==> (Accepted(f, call.action, call.who, call.now)
                  && !call.who.sendEmail && !call.who.hasReason)
    ensures Commits(f, call) == Commits(f, call.(who := call.who.(sendEmail := true)))
  {
  }

  /** Two runs of the same calls that differ in nothing but the email overrides. */
  ghost predicate SameButOverrides(calls: seq<Call>, others: seq<Call>) {
    && |calls| == |others|
    && forall i | 0 <= i < |calls| ::
         others[i] == calls[i].(who := others[i].who) && others[i].who.admin == calls[i].who.admin
  }

  /** Whether borrowers are told, and what the callers hear, never changes a file. */
  lemma {:induction false} OverridesChangeNoFile(f: File, calls: seq<Call>, others: seq<Call>)
    requires SameButOverrides(calls, others)
    ensures History(f, calls) == History(f, others) && Final(f, calls) == Final(f, others)
    decreases |calls|
  {
    if calls != [] {
      OverrideChangesNoCommit(f, calls[0], others[0].who);
      OverridesChangeNoFile(After(f, calls[0]), calls[1..], others[1..]);
    }
  }

  lemma OverrideChangesNoCommit(f: File, call: Call, who: Caller)
    requires who.admin == call.who.admin
    ensures Commits(f, call) == Commits(f, call.(who := who))
  {
    match call.action
    case UpdateStatus(_) =>
    case MarkAsCalledIn =>
    case SendBankVerification =>
    case RecordBankVerified =>
    case SendLoanAgreement =>
    case RecordAgreementSigned =>
    case SendVerificationDeposit(_, _) =>
    case CountFailedAttempt =>
    case ConfirmVerificationDeposit =>
    case Approve(_, _, _) =>
    case Decline(_) =>
    case Fund(_) =>
    case Withdraw =>
    case Expire =>
    case EditAmount(_, _) =>
  }

  /** An accepted call stamps the file, unless it only sends something again: then nothing is written. */
  lemma AcceptedCallStampsIff(f: File, call: Call)
    requires Perform(f, call.action, call.who, call.now).Done?
    ensures Commits(f, call) == [] <==> OnlyResends(f, call.action)
    ensures Commits(f, call) != [] ==> After(f, call).updatedAt == call.now
  {
    match call.action
    case UpdateStatus(_) =>
    case MarkAsCalledIn =>
    case SendBankVerification =>
    case RecordBankVerified =>
    case SendLoanAgreement =>
    case RecordAgreementSigned =>
    case SendVerificationDeposit(_, _) =>
    case CountFailedAttempt =>
    case ConfirmVerificationDeposit =>
    case Approve(_, _, _) =>
    case Decline(_) =>
    case Fund(_) =>
    case Withdraw =>
    case Expire =>
    case EditAmount(_, _) =>
  }

  /* ------------------------------------------- links that can still be redeemed */

  datatype SelfServicePurpose = VerifyBank | ConfirmDeposit

  /** The tracker agrees to mint a link. */
  predicate Actionable(f: File, purpose: SelfServicePurpose) {
    && !IsTerminal(f.status)
    && match purpose
       case VerifyBank => !f.bankVerified
       case ConfirmDeposit => f.confirmedAt == None && f.status == VerificationDepositSent
  }

  /** Redeeming the link in this state is turned away for the status or for missing amounts. */
  predicate RedemptionRefused(f: File, purpose: SelfServicePurpose) {
    match purpose
    case VerifyBank =>
      !f.bankVerified && f.status != BankVerificationPending && !PreVerification(f.status)
    case ConfirmDeposit =>
      && f.status != VerificationDepositConfirmed && f.confirmedAt == None
      && (f.status != VerificationDepositSent || f.amount1 == None || f.amount2 == None)
  }

  /** A live file past bank verification is verified; a deposit that went out has its two amounts. */
  ghost predicate LinksWhole(f: File) {
    && f.status != Received
    && (Height(f.status) >= 4 && !IsTerminal(f.status) ==> f.bankVerified)
    && (f.bankVerified ==> Height(f.status) >= 4)
    && (f.status == VerificationDepositSent ==>
          && f.amount1.Some? && 1 <= f.amount1.value <= 99
          && f.amount2.Some? && 1 <= f.amount2.value <= 99)
    && (f.confirmedAt.Some? ==> Height(f.status) >= 8)
  }

  /** The generic status change is not used to jump over the two actions that record what they claim. */
  predicate NoGenericEntry(a: Action) {
    a != UpdateStatus(BankVerificationComplete) && a != UpdateStatus(VerificationDepositSent)
  }

  ghost predicate AllLinksWhole(commits: seq<File>) {
    forall g | g in commits :: LinksWhole(g)
  }

  lemma StatusChangeKeepsLinks(f: File, call: Call)
    requires LinksWhole(f) && NoGenericEntry(call.action) && call.action.UpdateStatus?
    ensures AllLinksWhole(Commits(f, call))
  {
    EdgesClimb(f.status, call.action.to);
  }

  lemma ContactKeepsLinks(f: File, call: Call)
    requires LinksWhole(f)
    requires call.action.MarkAsCalledIn? || call.action.SendBankVerification? || call.action.RecordBankVerified?
    ensures AllLinksWhole(Commits(f, call))
  {
  }

  lemma AgreementKeepsLinks(f: File, call: Call)
    requires LinksWhole(f) && (call.action.SendLoanAgreement? || call.action.RecordAgreementSigned?)
    ensures AllLinksWhole(Commits(f, call))
  {
  }

  lemma DepositKeepsLinks(f: File, call: Call)
    requires LinksWhole(f)
    requires call.action.SendVerificationDeposit? || call.action.CountFailedAttempt?
          || call.action.ConfirmVerificationDeposit?
    ensures AllLinksWhole(Commits(f, call))
  {
  }

  lemma DecidingKeepsLinks(f: File, call: Call)
    requires LinksWhole(f)
    requires call.action.Approve? || call.action.Decline? || call.action.Fund?
    ensures AllLinksWhole(Commits(f, call))
  {
  }

  lemma EndingKeepsLinks(f: File, call: Call)
    requires LinksWhole(f)
    requires call.action.Withdraw? || call.action.Expire? || call.action.EditAmount?
    ensures AllLinksWhole(Commits(f, call))
  {
  }

  lemma ActionKeepsLinks(f: File, call: Call)
    requires LinksWhole(f) && NoGenericEntry(call.action)
    ensures AllLinksWhole(Commits(f, call))
  {
    match call.action
    case UpdateStatus(_) => StatusChangeKeepsLinks(f, call);
    case MarkAsCalledIn => ContactKeepsLinks(f, call);
    case SendBankVerification => ContactKeepsLinks(f, call);
    case RecordBankVerified => ContactKeepsLinks(f, call);
    case SendLoanAgreement => AgreementKeepsLinks(f, call);
    case RecordAgreementSigned => AgreementKeepsLinks(f, call);
    case SendVerificationDeposit(_, _) => DepositKeepsLinks(f, call);
    case CountFailedAttempt => DepositKeepsLinks(f, call);
    case ConfirmVerificationDeposit => DepositKeepsLinks(f, call);
    case Approve(_, _, _) => DecidingKeepsLinks(f, call);
    case Decline(_) => DecidingKeepsLinks(f, call);
    case Fund(_) => DecidingKeepsLinks(f, call);
    case Withdraw => EndingKeepsLinks(f, call);
    case Expire => EndingKeepsLinks(f, call);
    case EditAmount(_, _) => EndingKeepsLinks(f, call);
  }

  lemma {:induction false} EveryRunKeepsLinks(f: File, calls: seq<Call>)
    requires LinksWhole(f)
    requires forall i | 0 <= i < |calls| :: NoGenericEntry(calls[i].action)
    ensures LinksWhole(Final(f, calls))
    decreases |calls|
  {
    if calls != [] {
      ActionKeepsLinks(f, calls[0]);
      EveryRunKeepsLinks(After(f, calls[0]), calls[1..]);
    }
  }

  /** Exactly the files for which the tracker mints a link that cannot be used. */
  lemma DeadLinkIff(f: File, purpose: SelfServicePurpose)
    ensures Actionable(f, purpose) && RedemptionRefused(f, purpose) <==>
              match purpose
              case VerifyBank =>
                !f.bankVerified && (f.status == Received || 4 <= Height(f.status) <= 10)
              case ConfirmDeposit =>
                f.status == VerificationDepositSent && f.confirmedAt == None
                && (f.amount1 == None || f.amount2 == None)
  {
  }

  /** In every run without the two generic entries, a minted link is one that works. */
  lemma {:induction false} MintedLinksWork(amount: real, born: int, calls: seq<Call>, purpose: SelfServicePurpose)
    requires forall i | 0 <= i < |calls| :: NoGenericEntry(calls[i].action)
    ensures Actionable(Final(NewFile(amount, born), calls), purpose)
            ==> !RedemptionRefused(Final(NewFile(amount, born), calls), purpose)
  {
    BornWhole(amount, born);
    EveryRunKeepsLinks(NewFile(amount, born), calls);
    DeadLinkIff(Final(NewFile(amount, born), calls), purpose);
  }

  /** The hypothesis is needed: two generic changes make the tracker mint a dead link. */
  lemma {:induction false} GenericEntryMintsDeadLink(amount: real, born: int, who: Caller)
    ensures var calls := [Call(UpdateStatus(BankVerificationPending), who, born),
                          Call(UpdateStatus(BankVerificationComplete), who, born)];
            var f := Final(NewFile(amount, born), calls);
            Actionable(f, VerifyBank) && RedemptionRefused(f, VerifyBank)
  {
    var f0 := NewFile(amount, born);
    var c0 := Call(UpdateStatus(BankVerificationPending), who, born);
    var c1 := Call(UpdateStatus(BankVerificationComplete), who, born);
    var f1 := f0.(status := BankVerificationPending);
    assert After(f0, c0) == f1;
    assert After(f1, c1) == f1.(status := BankVerificationComplete);
    assert [c0, c1][1..] == [c1] && [c1][1..] == [];
    assert Final(f1, [c1]) == After(f1, c1);
  }

  lemma FourCalls(f: File, a: Call, b: Call, c: Call, d: Call)
    ensures Final(f, [a, b, c, d]) == After(After(After(After(f, a), b), c), d)
  {
    assert [a, b, c, d][1..] == [b, c, d] && [b, c, d][1..] == [c, d] && [c, d][1..] == [d] && [d][1..] == [];
    var g := After(After(f, a), b);
    assert Final(f, [a, b, c, d]) == Final(After(f, a), [b, c, d]) == Final(g, [c, d]);
    assert Final(g, [c, d]) == Final(After(g, c), [d]) == Final(After(After(g, c), d), []);
  }

  /** Three ordinary calls take a new file to a signed agreement, with no deposit amounts yet. */
  lemma SignedWithoutDeposit(amount: real, born: int, who: Caller)
    ensures var f2 := After(After(NewFile(amount, born), Call(RecordBankVerified, who, born)),
                            Call(SendLoanAgreement, who, born));
            var f3 := After(f2, Call(RecordAgreementSigned, who, born));
            f3.status == AgreementSigned && f3.bankVerified && f3.confirmedAt == None && f3.amount1 == None
  {
    var f1 := After(NewFile(amount, born), Call(RecordBankVerified, who, born));
    assert f1.status == BankVerificationComplete && f1.bankVerified && f1.confirmedAt == None && f1.amount1 == None;
  }

  /** So is the other one: a deposit declared sent by a generic change has no amounts to compare with. */
  lemma {:induction false} GenericDepositMintsDeadLink(amount: real, born: int, who: Caller)
    ensures var calls := [Call(RecordBankVerified, who, born), Call(SendLoanAgreement, who, born),
                          Call(RecordAgreementSigned, who, born),
                          Call(UpdateStatus(VerificationDepositSent), who, born)];
            var f := Final(NewFile(amount, born), calls);
            f.bankVerified && Actionable(f, ConfirmDeposit) && RedemptionRefused(f, ConfirmDeposit)
  {
    FourCalls(NewFile(amount, born), Call(RecordBankVerified, who, born), Call(SendLoanAgreement, who, born),
              Call(RecordAgreementSigned, who, born), Call(UpdateStatus(VerificationDepositSent), who, born));
    SignedWithoutDeposit(amount, born, who);
  }

  /* ----------------------------------------------------------- the expiry sweep */

  /** The sweep never expires a file that was saved within the last 45 days, nor one at rest. */
  lemma SweepTakesOnlyStaleFiles(f: File, call: Call)
    requires call.action == Expire
    ensures Commits(f, call) != [] <==>
              !IsTerminal(f.status) && call.now - f.updatedAt > INACTIVITY_DAYS * DAY
    ensures Commits(f, call) != [] ==> After(f, call).status == Expired && CanTransition(f.status, Expired)
  {
    EdgesClimb(f.status, Expired);
  }

  /**
    Sending something again is not activity: after any number of re-sends the file is
    as it was, and the sweep takes it exactly when 45 days have passed since the save
    before them.
   */
  lemma {:induction false} ResendsDoNotPostponeExpiry(f: File, calls: seq<Call>, sweep: Call)
    requires forall i | 0 <= i < |calls| :: OnlyResends(f, calls[i].action)
    requires sweep.action == Expire
    ensures Final(f, calls) == f && History(f, calls) == []
    ensures Commits(Final(f, calls), sweep) != [] <==>
              !IsTerminal(f.status) && sweep.now - f.updatedAt > INACTIVITY_DAYS * DAY
    decreases |calls|
  {
    if calls == [] {
      SweepTakesOnlyStaleFiles(f, sweep);
    } else {
      assert Commits(f, calls[0]) == [];
      ResendsDoNotPostponeExpiry(f, calls[1..], sweep);
    }
  }
}
