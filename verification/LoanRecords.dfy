/**
  Which calls are carried out, and what each column of an application says after any
  run of them: column by column, the last call that had something to say about it.
 */
module LoanRecords {
  import opened Options
  import opened LoanStatus
  import opened LoanWorkflow
  import opened LoanInvariants

  ghost predicate CarriedOut(f: File, call: Call) {
    Perform(f, call.action, call.who, call.now).Done?
  }

  /** Exactly the calls that are carried out, a failing notice included. */
  lemma CarriedOutIff(f: File, call: Call)
    ensures CarriedOut(f, call) <==>
              match call.action
              case UpdateStatus(to) => CanTransition(f.status, to) && to !in {Declined, Approved, Funded}
              case MarkAsCalledIn => f.status == PendingCall && call.who.admin != None
              case SendBankVerification => Height(f.status) < 11 && !f.bankVerified
              case RecordBankVerified => f.status in {PendingCall, InReview, BankVerificationPending}
              case SendLoanAgreement => f.status in {BankVerificationComplete, AgreementSent}
              case RecordAgreementSigned => f.status == AgreementSent
              case SendVerificationDeposit(cents1, cents2) =>
                f.status == AgreementSigned && 1 <= cents1 <= 99 && 1 <= cents2 <= 99
              case CountFailedAttempt => true
              case ConfirmVerificationDeposit => f.status == VerificationDepositSent
              case Approve(months, rate, _) => f.status == Underwriting && months >= 1 && rate >= 0.0
              case Decline(codes) => Height(f.status) < 11 && |codes| > 0 && forall c | c in codes :: !c.UnknownCode?
              case Fund(amount) => f.status == Approved && 0.0 < amount <= f.amountRequested
              case Withdraw => Height(f.status) < 11
              case Expire => Height(f.status) < 11 && call.now - f.updatedAt > 45 * 86_400_000
              case EditAmount(newAmount, others) => newAmount != f.amountRequested || others
  {
    EdgesAre(f.status, Declined);
  }

  /** An exit asked for, or a step, that the table does not have. */
  ghost predicate OffTheTable(from: Status, to: Status) {
    from != to && !CanTransition(from, to)
  }

  /** The status the call may start from is another one. */
  ghost predicate OutOfPlace(f: File, a: Action) {
    match a
    case MarkAsCalledIn => f.status != PendingCall
    case SendBankVerification => !f.bankVerified && Height(f.status) == 11
    case RecordBankVerified => f.status !in {PendingCall, InReview, BankVerificationPending}
    case SendLoanAgreement => f.status !in {BankVerificationComplete, AgreementSent}
    case RecordAgreementSigned => f.status != AgreementSent
    case SendVerificationDeposit(_, _) => f.status != AgreementSigned
    case ConfirmVerificationDeposit => f.status != VerificationDepositSent
    case Approve(_, _, _) => f.status != Underwriting
    case Fund(_) => f.status != Approved
    case Withdraw => Height(f.status) == 11
    case _ => false
  }

  /** The reason for which a call is refused. */
  ghost predicate Deserves(f: File, call: Call, why: Refusal) {
    match why
    case DedicatedActionOnly => call.action.UpdateStatus? && call.action.to in {Declined, Approved, Funded}
    case AlreadyInStatus =>
      || (call.action == UpdateStatus(f.status) && f.status !in {Declined, Approved, Funded})
      || (call.action.Decline? && f.status == Declined)
    case IllegalTransition =>
      || (call.action.UpdateStatus? && call.action.to !in {Declined, Approved, Funded}
          && OffTheTable(f.status, call.action.to))
      || (call.action.Decline? && OffTheTable(f.status, Declined))
    case WrongStatus => OutOfPlace(f, call.action)
    case AlreadyVerified => call.action.SendBankVerification? && f.bankVerified
    case AdminRequired => call.action.MarkAsCalledIn? && f.status == PendingCall && call.who.admin == None
    case BadAmount =>
      || (call.action.SendVerificationDeposit? && f.status == AgreementSigned
          && !(1 <= call.action.cents1 <= 99 && 1 <= call.action.cents2 <= 99))
      || (call.action.Fund? && f.status == Approved && !(0.0 < call.action.amount <= f.amountRequested))
    case BadTerms =>
      call.action.Approve? && f.status == Underwriting && !(call.action.months >= 1 && call.action.rate >= 0.0)
    case BadReasonCodes =>
      && call.action.Decline? && Height(f.status) < 11
      && (call.action.codes == [] || exists c :: c in call.action.codes && c.UnknownCode?)
    case NotStale => call.action.Expire? && (Height(f.status) == 11 || call.now - f.updatedAt <= 45 * 86_400_000)
    case NothingChanged =>
      call.action.EditAmount? && call.action.newAmount == f.amountRequested && !call.action.others
  }

  lemma TableRefusals(f: File, call: Call, why: Refusal)
    requires call.action.UpdateStatus? || call.action.Decline?
    ensures Perform(f, call.action, call.who, call.now) == Refused(why) <==> Deserves(f, call, why)
  {
    EdgesAre(f.status, Declined);
  }

  /** A call is refused for exactly the reason it deserves. */
  lemma RefusedBecause(f: File, call: Call, why: Refusal)
    ensures Perform(f, call.action, call.who, call.now) == Refused(why) <==> Deserves(f, call, why)
  {
    if call.action.UpdateStatus? || call.action.Decline? {
      TableRefusals(f, call, why);
    }
  }

  /* ------------------------------------------------------- who writes which column */

  function StatusTold(f: File, c: Call): Status {
    match c.action
    case UpdateStatus(to) => to
    case MarkAsCalledIn => BankVerificationPending
    case SendBankVerification => if Height(f.status) in {1, 2} then BankVerificationPending else f.status
    case RecordBankVerified => BankVerificationComplete
    case SendLoanAgreement => AgreementSent
    case RecordAgreementSigned => AgreementSigned
    case SendVerificationDeposit(_, _) => VerificationDepositSent
    case ConfirmVerificationDeposit => Underwriting
    case Approve(_, _, _) => Approved
    case Decline(_) => Declined
    case Fund(_) => Funded
    case Withdraw => Withdrawn
    case Expire => Expired
    case _ => f.status
  }

  function DecisionTold(f: File, c: Call): Decision {
    match c.action
    case Approve(_, _, _) => DecidedApproved
    case Decline(_) => DecidedDeclined
    case Withdraw => DecidedWithdrawn
    case _ => f.decision
  }

  /** An edit, or an approval that comes with a counter-offer. */
  function AmountTold(f: File, c: Call): real {
    match c.action
    case EditAmount(newAmount, _) => newAmount
    case Approve(_, _, offer) => if offer.Some? then offer.value else f.amountRequested
    case _ => f.amountRequested
  }

  function AttemptsTold(f: File, c: Call): nat {
    match c.action
    case SendVerificationDeposit(_, _) => 0
    case CountFailedAttempt => f.attempts + 1
    case _ => f.attempts
  }

  /** The row after a call that is carried out, column by column: who writes it, and what. */
  function Told(f: File, c: Call): File {
    File(
      StatusTold(f, c),
      f.calledIn || c.action.MarkAsCalledIn?,
      if c.action.MarkAsCalledIn? then c.who.admin else f.calledInBy,
      f.bankVerified || c.action.RecordBankVerified?,
      if c.action.SendLoanAgreement? && f.agreementSentAt == None then Some(c.now) else f.agreementSentAt,
      if c.action.SendVerificationDeposit? then Some(c.action.cents1) else f.amount1,
      if c.action.SendVerificationDeposit? then Some(c.action.cents2) else f.amount2,
      AttemptsTold(f, c),
      if c.action.ConfirmVerificationDeposit? then Some(c.now) else f.confirmedAt,
      DecisionTold(f, c),
      if c.action.Approve? || c.action.Decline? || c.action.Withdraw? then Some(c.now) else f.decisionAt,
      if c.action.Decline? then c.action.codes else f.reasonCodes,
      if c.action.Decline? then Some(c.now / 86_400_000 + 90) else f.reapplyDay,
      if c.action.Approve? then Some(c.action.months) else f.termMonths,
      if c.action.Approve? then Some(c.action.rate) else f.apr,
      AmountTold(f, c),
      if c.action.Fund? then Some(c.action.amount) else f.fundedAmount,
      if c.action.Fund? then Some(f.amountRequested) else f.fundedAgainst,
      if OnlyResends(f, c.action) then f.updatedAt else c.now)
  }

  predicate WorksOnContact(a: Action) {
    a.MarkAsCalledIn? || a.SendBankVerification? || a.RecordBankVerified?
  }

  predicate WorksOnDeposit(a: Action) {
    a.SendVerificationDeposit? || a.CountFailedAttempt? || a.ConfirmVerificationDeposit?
  }

  predicate WorksOnDecision(a: Action) {
    a.Approve? || a.Decline? || a.Fund? || a.Withdraw?
  }

  lemma ContactIsTold(f: File, c: Call)
    requires WorksOnContact(c.action) && CarriedOut(f, c)
    ensures After(f, c) == Told(f, c)
  {
  }

  lemma DepositIsTold(f: File, c: Call)
    requires WorksOnDeposit(c.action) && CarriedOut(f, c)
    ensures After(f, c) == Told(f, c)
  {
  }

  lemma DecisionIsTold(f: File, c: Call)
    requires WorksOnDecision(c.action) && CarriedOut(f, c)
    ensures After(f, c) == Told(f, c)
  {
    CooldownDate(c.now);
  }

  lemma UpkeepIsTold(f: File, c: Call)
    requires !WorksOnContact(c.action) && !WorksOnDeposit(c.action) && !WorksOnDecision(c.action) && CarriedOut(f, c)
    ensures After(f, c) == Told(f, c)
  {
  }

  /** After any call the row is as told, if the call is carried out, and as it was if not. */
  lemma AfterIsTold(f: File, c: Call)
    ensures After(f, c) == if CarriedOut(f, c) then Told(f, c) else f
  {
    if CarriedOut(f, c) {
      if WorksOnContact(c.action) {
        ContactIsTold(f, c);
      } else if WorksOnDeposit(c.action) {
        DepositIsTold(f, c);
      } else if WorksOnDecision(c.action) {
        DecisionIsTold(f, c);
      } else {
        UpkeepIsTold(f, c);
      }
    }
  }

  /** Two rows for a verified account that was not waiting for it and for a confirmed deposit, else one or none. */
  lemma RowsWritten(f: File, c: Call)
    ensures CarriedOut(f, c) && !OnlyResends(f, c.action) <==> Commits(f, c) != []
    ensures |Commits(f, c)| == 2 <==>
              || (c.action.RecordBankVerified? && f.status in {PendingCall, InReview})
              || (c.action.ConfirmVerificationDeposit? && f.status == VerificationDepositSent)
    ensures |Commits(f, c)| == 2 ==>
              Commits(f, c)[0]
              == (if c.action.RecordBankVerified? then f.(status := BankVerificationPending, updatedAt := c.now)
                  else f.(status := VerificationDepositConfirmed, confirmedAt := Some(c.now), updatedAt := c.now))
    ensures |Commits(f, c)| <= 2
  {
    AcceptedOrNot(f, c);
  }

  lemma AcceptedOrNot(f: File, c: Call)
    ensures Commits(f, c) == [] <==> !CarriedOut(f, c) || OnlyResends(f, c.action)
  {
    if CarriedOut(f, c) { AcceptedCallStampsIff(f, c); }
  }

  /**
    A call that is carried out is answered with an error exactly when it suppresses the
    notice to the borrower and gives no reason; the sweep, the count and an edit send none.
   */
  lemma AnswersErrorIff(f: File, c: Call)
    requires CarriedOut(f, c)
    ensures Perform(f, c.action, c.who, c.now).reply == SuppressionReasonMissing <==>
              && !c.who.sendEmail && !c.who.hasReason
              && !c.action.Expire? && !c.action.CountFailedAttempt? && !c.action.EditAmount?
  {
  }

  /* -------------------------------------------------- what the record says was done */

  /** What was recorded has its place on the ladder. */
  ghost predicate RecordsFit(f: File) {
    && (f.fundedAmount.Some? || f.fundedAgainst.Some? ==> f.status == Funded)
    && (f.termMonths.Some? || f.apr.Some? ==> Height(f.status) >= 10)
    && (f.reasonCodes != [] || f.reapplyDay.Some? ==> f.status == Declined)
    && (f.amount1.Some? || f.amount2.Some? ==> Height(f.status) >= 7)
    && (f.confirmedAt.Some? ==> Height(f.status) >= 9)
    && (f.bankVerified ==> Height(f.status) >= 4)
    && (f.calledIn || f.calledInBy.Some? ==> Height(f.status) >= 3)
  }

  lemma CallKeepsRecords(f: File, c: Call)
    requires RecordsFit(f)
    ensures RecordsFit(After(f, c))
  {
    AfterIsTold(f, c);
    RankNeverFalls(f, c);
    CarriedOutIff(f, c);
  }

  /** What a file can say was done to it. */
  datatype Fact =
    | CalledBy(admin: nat)
    | AccountVerified
    | DepositOf(cents1: int, cents2: int)
    | ConfirmedAt(when: int)
    | ApprovedFor(months: int, rate: real)
    | DeclinedFor(codes: seq<ReasonCode>, when: int)
    | FundedWith(amount: real, against: real)

  ghost predicate Says(f: File, fact: Fact) {
    match fact
    case CalledBy(admin) => f.calledIn && f.calledInBy == Some(admin)
    case AccountVerified => f.bankVerified
    case DepositOf(cents1, cents2) => f.amount1 == Some(cents1) && f.amount2 == Some(cents2)
    case ConfirmedAt(when) => f.confirmedAt == Some(when)
    case ApprovedFor(months, rate) => f.termMonths == Some(months) && f.apr == Some(rate)
    case DeclinedFor(codes, when) =>
      f.reasonCodes == codes && f.decisionAt == Some(when) && f.reapplyDay == Some(when / 86_400_000 + 90)
    case FundedWith(amount, against) => f.fundedAmount == Some(amount) && f.fundedAgainst == Some(against)
  }

  /** The call, made on this file, is what the fact is about. */
  ghost predicate Makes(f: File, c: Call, fact: Fact) {
    match fact
    case CalledBy(admin) => c.action.MarkAsCalledIn? && c.who.admin == Some(admin)
    case AccountVerified => c.action.RecordBankVerified?
    case DepositOf(cents1, cents2) => c.action == SendVerificationDeposit(cents1, cents2)
    case ConfirmedAt(when) => c.action.ConfirmVerificationDeposit? && c.now == when
    case ApprovedFor(months, rate) => c.action.Approve? && c.action.months == months && c.action.rate == rate
    case DeclinedFor(codes, when) => c.action == Decline(codes) && c.now == when
    case FundedWith(amount, against) => c.action == Fund(amount) && f.amountRequested == against
  }

  lemma FactIsMade(f: File, c: Call, fact: Fact)
    requires RecordsFit(f)
    ensures Says(After(f, c), fact) <==> Says(f, fact) || (CarriedOut(f, c) && Makes(f, c, fact))
  {
    AfterIsTold(f, c);
    CarriedOutIff(f, c);
  }

  /** At some moment of the run a call that makes the fact was carried out. */
  ghost predicate WasDone(f: File, calls: seq<Call>, fact: Fact)
    decreases |calls|
  {
    && calls != []
    && ((CarriedOut(f, calls[0]) && Makes(f, calls[0], fact)) || WasDone(After(f, calls[0]), calls[1..], fact))
  }

  lemma {:induction false} SaidIffSaidOrDone(f: File, calls: seq<Call>, fact: Fact)
    requires RecordsFit(f)
    ensures Says(Final(f, calls), fact) <==> Says(f, fact) || WasDone(f, calls, fact)
    decreases |calls|
  {
    if calls != [] {
      CallKeepsRecords(f, calls[0]);
      FactIsMade(f, calls[0], fact);
      SaidIffSaidOrDone(After(f, calls[0]), calls[1..], fact);
    }
  }

  /**
    Over every run from its birth a file says that something was done, by whom, with
    what amounts, terms, codes and date, if and only if a call to that effect was
    carried out at some moment of the run.
   */
  lemma {:induction false} SaidIffDone(asked: real, born: int, calls: seq<Call>, fact: Fact)
    ensures Says(Final(NewFile(asked, born), calls), fact) <==> WasDone(NewFile(asked, born), calls, fact)
  {
    SaidIffSaidOrDone(NewFile(asked, born), calls, fact);
  }

  /** A call to fund is carried out on an approved file within its amount; what it records is never changed. */
  lemma FundingIsRecorded(f: File, c: Call, later: seq<Call>)
    requires c.action.Fund?
    ensures Commits(f, c) != [] <==> f.status == Approved && 0.0 < c.action.amount <= f.amountRequested
    ensures Commits(f, c) != [] ==>
              && Final(After(f, c), later).fundedAmount == Some(c.action.amount)
              && Final(After(f, c), later).fundedAgainst == Some(f.amountRequested)
  {
    RowsWritten(f, c);
    CarriedOutIff(f, c);
    AfterIsTold(f, c);
    if Commits(f, c) != [] { FundedForGood(After(f, c), later); }
  }

  lemma {:induction false} FundedForGood(f: File, calls: seq<Call>)
    requires f.status == Funded
    ensures Final(f, calls).status == Funded
    ensures Final(f, calls).fundedAmount == f.fundedAmount && Final(f, calls).fundedAgainst == f.fundedAgainst
    decreases |calls|
  {
    if calls != [] {
      AfterIsTold(f, calls[0]);
      CarriedOutIff(f, calls[0]);
      FundedForGood(After(f, calls[0]), calls[1..]);
    }
  }
}
