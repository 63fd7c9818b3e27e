/**
  The loan actions of src/applications/services/application-workflow.service.ts,
  with the expiry sweep: what each one refuses, and which versions of the
  application row it commits, one entry for each `save()`.
 */
module LoanWorkflow {
  import opened Options
  import opened LoanStatus

  const DAY := 86_400_000
  const INACTIVITY_DAYS := 45
  const DECLINE_COOLDOWN_DAYS := 90

  datatype Decision = Undecided | DecidedApproved | DecidedDeclined | DecidedWithdrawn

  /** The Regulation B reason codes an adverse action may cite, and anything else a caller sends. */
  datatype ReasonCode =
    | InsufficientIncome | ExcessiveObligations | UnableToVerifyIncome | LengthOfEmployment
    | TemporaryOrIrregularEmployment | UnableToVerifyEmployment | InsufficientCreditFile
    | NoCreditFile | LimitedCreditExperience | DelinquentCreditObligations | GarnishmentOrLien
    | Bankruptcy | UnableToVerifyResidence | LengthOfResidence | TemporaryResidence
    | UnableToVerifyBankAccount | InsufficientDepositHistory | ValueOrTypeOfCollateral
    | CreditApplicationIncomplete | StateNotServed | DuplicateApplication
    | UnknownCode(text: string)

  /** The columns of an application that its life depends on. */
  datatype File = File(
    status: Status,
    calledIn: bool,
    calledInBy: Option<nat>,
    bankVerified: bool,
    agreementSentAt: Option<int>,
    amount1: Option<int>,
    amount2: Option<int>,
    attempts: nat,
    confirmedAt: Option<int>,
    decision: Decision,
    decisionAt: Option<int>,
    reasonCodes: seq<ReasonCode>,
    reapplyDay: Option<int>,
    termMonths: Option<int>,
    apr: Option<real>,
    amountRequested: real,
    fundedAmount: Option<real>,
    fundedAgainst: Option<real>,  // history only: the amount on file when the loan was funded
    updatedAt: int)

  /** A file as intake writes it. */
  function NewFile(amount: real, now: int): File {
    File(PendingCall, false, None, false, None, None, None, 0, None,
         Undecided, None, [], None, None, None, amount, None, None, now)
  }

  /** Who calls, and the email override: suppressing the notice needs a reason. */
  datatype Caller = Caller(admin: Option<nat>, sendEmail: bool, hasReason: bool)

  datatype Action =
    | UpdateStatus(to: Status)
    | MarkAsCalledIn
    | SendBankVerification
    | RecordBankVerified
    | SendLoanAgreement
    | RecordAgreementSigned
    | SendVerificationDeposit(cents1: int, cents2: int)
    | CountFailedAttempt
    | ConfirmVerificationDeposit
    | Approve(months: int, rate: real, counterOffer: Option<real>)
    | Decline(codes: seq<ReasonCode>)
    | Fund(amount: real)
    | Withdraw
    | Expire
    | EditAmount(newAmount: real, others: bool)  // `others`: some other field is changed as well

  datatype Refusal =
    | DedicatedActionOnly
    | AlreadyInStatus
    | IllegalTransition
    | WrongStatus
    | AlreadyVerified
    | AdminRequired
    | BadAmount
    | BadTerms
    | BadReasonCodes
    | NotStale
    | NothingChanged

  datatype Reply = Ok | SuppressionReasonMissing

  /** A refusal commits nothing; else the rows committed, none if no column changed, and what the caller is told. */
  datatype Outcome = Refused(why: Refusal) | Done(commits: seq<File>, reply: Reply)

  predicate KnownCodes(codes: seq<ReasonCode>) {
    forall i | 0 <= i < |codes| :: !codes[i].UnknownCode?
  }

  predicate PreVerification(s: Status) {
    s == PendingCall || s == InReview
  }

  predicate DedicatedActionStatus(s: Status) {
    s == Declined || s == Approved || s == Funded
  }

  /** Day number of an instant, as the date column stores it. */
  function DateOf(t: int): int {
    t / DAY
  }

  function AssertTransition(from: Status, to: Status): Option<Refusal> {
    if from == to then Some(AlreadyInStatus)
    else if !CanTransition(from, to) then Some(IllegalTransition)
    else None
  }

  /** What the caller hears once the row is committed: suppressing the notice without a reason is an error. */
  function ReplyTo(who: Caller): Reply {
    if !who.sendEmail && !who.hasReason then SuppressionReasonMissing else Ok
  }

  /** What saving `g` over `f` commits: nothing when no column changed, else the row with its new stamp. */
  function Saved(f: File, g: File, now: int): seq<File> {
    if g == f then [] else [g.(updatedAt := now)]
  }

  /** The engine shared by the buttons: commit first, then the email, whose override can still fail. */
  function RunAction(f: File, g: File, who: Caller, now: int): Outcome {
    Done(Saved(f, g, now), ReplyTo(who))
  }

  function TryUpdateStatus(f: File, to: Status, who: Caller, now: int): Outcome {
    if DedicatedActionStatus(to) then Refused(DedicatedActionOnly)
    else if AssertTransition(f.status, to).Some? then Refused(AssertTransition(f.status, to).value)
    else RunAction(f, f.(status := to), who, now)
  }

  function TryMarkAsCalledIn(f: File, who: Caller, now: int): Outcome {
    if f.status != PendingCall then Refused(WrongStatus)
    else if who.admin == None then Refused(AdminRequired)
    else
      RunAction(f, f.(status := BankVerificationPending, calledIn := true, calledInBy := who.admin), who, now)
  }

  function TrySendBankVerification(f: File, who: Caller, now: int): Outcome {
    if f.bankVerified then Refused(AlreadyVerified)
    else if IsTerminal(f.status) then Refused(WrongStatus)
    else
      RunAction(f, if PreVerification(f.status) then f.(status := BankVerificationPending) else f, who, now)
  }

  function TryRecordBankVerified(f: File, who: Caller, now: int): Outcome {
    if f.status != BankVerificationPending && !PreVerification(f.status) then Refused(WrongStatus)
    else
      var pending := f.(status := BankVerificationPending, updatedAt := now);
      var complete := pending.(status := BankVerificationComplete, bankVerified := true);
      Done(if f.status == BankVerificationPending then [complete] else [pending, complete], ReplyTo(who))
  }

  function TrySendLoanAgreement(f: File, who: Caller, now: int): Outcome {
    if f.status != AgreementSent && f.status != BankVerificationComplete then Refused(WrongStatus)
    else
      var sentAt := if f.agreementSentAt == None then Some(now) else f.agreementSentAt;
      RunAction(f, f.(status := AgreementSent, agreementSentAt := sentAt), who, now)
  }

  function TryRecordAgreementSigned(f: File, who: Caller, now: int): Outcome {
    if f.status != AgreementSent then Refused(WrongStatus)
    else RunAction(f, f.(status := AgreementSigned), who, now)
  }

  function TrySendVerificationDeposit(f: File, cents1: int, cents2: int, who: Caller, now: int): Outcome {
    if f.status != AgreementSigned then Refused(WrongStatus)
    else if !(1 <= cents1 <= 99 && 1 <= cents2 <= 99) then Refused(BadAmount)
    else
      RunAction(f, f.(status := VerificationDepositSent,
                      amount1 := Some(cents1), amount2 := Some(cents2), attempts := 0), who, now)
  }

  function TryCountFailedAttempt(f: File, now: int): Outcome {
    Done([f.(attempts := f.attempts + 1, updatedAt := now)], Ok)
  }

  function TryConfirmVerificationDeposit(f: File, who: Caller, now: int): Outcome {
    if f.status != VerificationDepositSent then Refused(WrongStatus)
    else
      var confirmed := f.(status := VerificationDepositConfirmed, confirmedAt := Some(now), updatedAt := now);
      Done([confirmed, confirmed.(status := Underwriting)], ReplyTo(who))
  }

  function TryApprove(f: File, months: int, rate: real, counterOffer: Option<real>, who: Caller, now: int): Outcome {
    if f.status != Underwriting then Refused(WrongStatus)
    else if months <= 0 || rate < 0.0 then Refused(BadTerms)
    else
      var amount := if counterOffer.Some? then counterOffer.value else f.amountRequested;
      RunAction(f, f.(status := Approved, decision := DecidedApproved, decisionAt := Some(now),
                      termMonths := Some(months), apr := Some(rate), amountRequested := amount), who, now)
  }

  function TryDecline(f: File, codes: seq<ReasonCode>, who: Caller, now: int): Outcome {
    if AssertTransition(f.status, Declined).Some? then Refused(AssertTransition(f.status, Declined).value)
    else if codes == [] || !KnownCodes(codes) then Refused(BadReasonCodes)
    else
      RunAction(f, f.(status := Declined, decision := DecidedDeclined, decisionAt := Some(now),
                      reasonCodes := codes,
                      reapplyDay := Some(DateOf(now + DECLINE_COOLDOWN_DAYS * DAY))), who, now)
  }

  function TryFund(f: File, amount: real, who: Caller, now: int): Outcome {
    if f.status != Approved then Refused(WrongStatus)
    else if amount <= 0.0 || amount > f.amountRequested then Refused(BadAmount)
    else
      RunAction(f, f.(status := Funded, fundedAmount := Some(amount),
                      fundedAgainst := Some(f.amountRequested)), who, now)
  }

  function TryWithdraw(f: File, who: Caller, now: int): Outcome {
    if IsTerminal(f.status) then Refused(WrongStatus)
    else
      RunAction(f, f.(status := Withdrawn, decision := DecidedWithdrawn, decisionAt := Some(now)), who, now)
  }

  function TryExpire(f: File, now: int): Outcome {
    if IsTerminal(f.status) || f.updatedAt >= now - INACTIVITY_DAYS * DAY then Refused(NotStale)
    else Done([f.(status := Expired, updatedAt := now)], Ok)
  }

  function TryEditAmount(f: File, newAmount: real, others: bool, now: int): Outcome {
    if newAmount == f.amountRequested && !others then Refused(NothingChanged)
    else Done([f.(amountRequested := newAmount, updatedAt := now)], Ok)
  }

  function Perform(f: File, a: Action, who: Caller, now: int): Outcome {
    match a
    case UpdateStatus(to) => TryUpdateStatus(f, to, who, now)
    case MarkAsCalledIn => TryMarkAsCalledIn(f, who, now)
    case SendBankVerification => TrySendBankVerification(f, who, now)
    case RecordBankVerified => TryRecordBankVerified(f, who, now)
    case SendLoanAgreement => TrySendLoanAgreement(f, who, now)
    case RecordAgreementSigned => TryRecordAgreementSigned(f, who, now)
    case SendVerificationDeposit(cents1, cents2) => TrySendVerificationDeposit(f, cents1, cents2, who, now)
    case CountFailedAttempt => TryCountFailedAttempt(f, now)
    case ConfirmVerificationDeposit => TryConfirmVerificationDeposit(f, who, now)
    case Approve(months, rate, counterOffer) => TryApprove(f, months, rate, counterOffer, who, now)
    case Decline(codes) => TryDecline(f, codes, who, now)
    case Fund(amount) => TryFund(f, amount, who, now)
    case Withdraw => TryWithdraw(f, who, now)
    case Expire => TryExpire(f, now)
    case EditAmount(newAmount, others) => TryEditAmount(f, newAmount, others, now)
  }

  /* -------------------------------------------------------------- the row itself */

  /** A loaded application: actions assign its columns one after another, and `saved` keeps every row written. */
  class Application {
    var row: File
    var saved: seq<File>

    /** Between calls the instance is as last written. */
    ghost predicate Valid()
      reads this
    {
      saved != [] && row == saved[|saved| - 1]
    }

    constructor (amount: real, now: int)
      ensures Valid() && row == NewFile(amount, now) && saved == [row]
    {
      row := NewFile(amount, now);
      saved := [NewFile(amount, now)];
    }

    /** After a call: nothing written by a refusal, else all commits in order, the row being the last one written. */
    twostate predicate Carries(outcome: Outcome)
      reads this
    {
      && Valid()
      && match outcome
         case Refused(_) => saved == old(saved)
         case Done(commits, _) => saved == old(saved) + commits
    }

    /** Writes the columns changed since the last save, with the stamp; no statement at all if there are none. */
    method Save(now: int) returns (written: seq<File>)
      requires saved != []
      modifies this
      ensures written == Saved(old(saved[|saved| - 1]), old(row), now)
      ensures saved == old(saved) + written && Valid()
    {
      written := [];
      if row != saved[|saved| - 1] {
        row := row.(updatedAt := now);
        written := [row];
        saved := saved + written;
      }
    }

    /** Stamps the row whatever changed: the edit of fields not modelled here, and the counter's own statement. */
    method SaveAnyway(now: int) returns (written: seq<File>)
      requires saved != []
      modifies this
      ensures written == [old(row).(updatedAt := now)]
      ensures saved == old(saved) + written && Valid()
    {
      row := row.(updatedAt := now);
      written := [row];
      saved := saved + written;
    }

    method Finish(who: Caller, now: int) returns (outcome: Outcome)
      requires saved != []
      modifies this
      ensures outcome == RunAction(old(saved[|saved| - 1]), old(row), who, now) && Carries(outcome)
    {
      var written := Save(now);
      var reply := Ok;
      if !who.sendEmail {
        if !who.hasReason { reply := SuppressionReasonMissing; }
      }
      outcome := Done(written, reply);
    }

    method ChangeStatus(to: Status, who: Caller, now: int) returns (outcome: Outcome)
      requires Valid()
      modifies this
      ensures outcome == TryUpdateStatus(old(row), to, who, now) && Carries(outcome)
    {
      if DedicatedActionStatus(to) { return Refused(DedicatedActionOnly); }
      var refusal := AssertTransition(row.status, to);
      if refusal.Some? { return Refused(refusal.value); }
      row := row.(status := to);
      outcome := Finish(who, now);
    }

    method CallIn(who: Caller, now: int) returns (outcome: Outcome)
      requires Valid()
      modifies this
      ensures outcome == TryMarkAsCalledIn(old(row), who, now) && Carries(outcome)
    {
      if row.status != PendingCall { return Refused(WrongStatus); }
      if who.admin == None { return Refused(AdminRequired); }
      row := row.(calledIn := true);
      row := row.(calledInBy := who.admin);
      row := row.(status := BankVerificationPending);
      outcome := Finish(who, now);
    }

    method RequestBankVerification(who: Caller, now: int) returns (outcome: Outcome)
      requires Valid()
      modifies this
      ensures outcome == TrySendBankVerification(old(row), who, now) && Carries(outcome)
    {
      if row.bankVerified { return Refused(AlreadyVerified); }
      if IsTerminal(row.status) { return Refused(WrongStatus); }
      if PreVerification(row.status) { row := row.(status := BankVerificationPending); }
      outcome := Finish(who, now);
    }

    method BankVerified(who: Caller, now: int) returns (outcome: Outcome)
      requires Valid()
      modifies this
      ensures outcome == TryRecordBankVerified(old(row), who, now) && Carries(outcome)
    {
      var pending := row.status == BankVerificationPending;
      if !pending && !PreVerification(row.status) { return Refused(WrongStatus); }
      var first := [];
      if !pending {
        row := row.(status := BankVerificationPending);
        first := Save(now);
      }
      row := row.(bankVerified := true);
      row := row.(status := BankVerificationComplete);
      var second := Finish(who, now);
      outcome := Done(first + second.commits, second.reply);
    }

    method SendAgreement(who: Caller, now: int) returns (outcome: Outcome)
      requires Valid()
      modifies this
      ensures outcome == TrySendLoanAgreement(old(row), who, now) && Carries(outcome)
    {
      var resend := row.status == AgreementSent;
      if !resend && row.status != BankVerificationComplete { return Refused(WrongStatus); }
      row := row.(status := AgreementSent);
      if row.agreementSentAt == None { row := row.(agreementSentAt := Some(now)); }
      outcome := Finish(who, now);
    }

    method AgreementSignedByBorrower(who: Caller, now: int) returns (outcome: Outcome)
      requires Valid()
      modifies this
      ensures outcome == TryRecordAgreementSigned(old(row), who, now) && Carries(outcome)
    {
      if row.status != AgreementSent { return Refused(WrongStatus); }
      row := row.(status := AgreementSigned);
      outcome := Finish(who, now);
    }

    method SendDeposit(cents1: int, cents2: int, who: Caller, now: int) returns (outcome: Outcome)
      requires Valid()
      modifies this
      ensures outcome == TrySendVerificationDeposit(old(row), cents1, cents2, who, now) && Carries(outcome)
    {
      if row.status != AgreementSigned { return Refused(WrongStatus); }
      if !(1 <= cents1 <= 99) { return Refused(BadAmount); }
      if !(1 <= cents2 <= 99) { return Refused(BadAmount); }
      row := row.(status := VerificationDepositSent);
      row := row.(amount1 := Some(cents1));
      row := row.(amount2 := Some(cents2));
      row := row.(attempts := 0);
      outcome := Finish(who, now);
    }

    method IncrementAttempts(now: int) returns (outcome: Outcome)
      requires Valid()
      modifies this
      ensures outcome == TryCountFailedAttempt(old(row), now) && Carries(outcome)
    {
      row := row.(attempts := row.attempts + 1);
      var written := SaveAnyway(now);
      outcome := Done(written, Ok);
    }

    method ConfirmDeposit(who: Caller, now: int) returns (outcome: Outcome)
      requires Valid()
      modifies this
      ensures outcome == TryConfirmVerificationDeposit(old(row), who, now) && Carries(outcome)
    {
      if row.status != VerificationDepositSent { return Refused(WrongStatus); }
      row := row.(status := VerificationDepositConfirmed);
      row := row.(confirmedAt := Some(now));
      var confirmed := Save(now);
      row := row.(status := Underwriting);
      var second := Finish(who, now);
      outcome := Done(confirmed + second.commits, second.reply);
    }

    method ApproveLoan(months: int, rate: real, counterOffer: Option<real>, who: Caller, now: int)
      returns (outcome: Outcome)
      requires Valid()
      modifies this
      ensures outcome == TryApprove(old(row), months, rate, counterOffer, who, now) && Carries(outcome)
    {
      if row.status != Underwriting { return Refused(WrongStatus); }
      if months <= 0 { return Refused(BadTerms); }
      if rate < 0.0 { return Refused(BadTerms); }
      row := row.(status := Approved);
      row := row.(decision := DecidedApproved);
      row := row.(decisionAt := Some(now));
      row := row.(termMonths := Some(months));
      row := row.(apr := Some(rate));
      if counterOffer.Some? { row := row.(amountRequested := counterOffer.value); }
      outcome := Finish(who, now);
    }

    method DeclineLoan(codes: seq<ReasonCode>, who: Caller, now: int) returns (outcome: Outcome)
      requires Valid()
      modifies this
      ensures outcome == TryDecline(old(row), codes, who, now) && Carries(outcome)
    {
      var refusal := AssertTransition(row.status, Declined);
      if refusal.Some? { return Refused(refusal.value); }
      if codes == [] { return Refused(BadReasonCodes); }
      if !KnownCodes(codes) { return Refused(BadReasonCodes); }
      row := row.(status := Declined);
      row := row.(decision := DecidedDeclined);
      row := row.(decisionAt := Some(now));
      row := row.(reasonCodes := codes);
      row := row.(reapplyDay := Some(DateOf(now + DECLINE_COOLDOWN_DAYS * DAY)));
      outcome := Finish(who, now);
    }

    method FundLoan(amount: real, who: Caller, now: int) returns (outcome: Outcome)
      requires Valid()
      modifies this
      ensures outcome == TryFund(old(row), amount, who, now) && Carries(outcome)
    {
      if row.status != Approved { return Refused(WrongStatus); }
      if amount <= 0.0 { return Refused(BadAmount); }
      if amount > row.amountRequested { return Refused(BadAmount); }
      row := row.(status := Funded);
      row := row.(fundedAmount := Some(amount));
      row := row.(fundedAgainst := Some(row.amountRequested));
      outcome := Finish(who, now);
    }

    method WithdrawApplication(who: Caller, now: int) returns (outcome: Outcome)
      requires Valid()
      modifies this
      ensures outcome == TryWithdraw(old(row), who, now) && Carries(outcome)
    {
      if IsTerminal(row.status) { return Refused(WrongStatus); }
      row := row.(status := Withdrawn);
      row := row.(decision := DecidedWithdrawn);
      row := row.(decisionAt := Some(now));
      outcome := Finish(who, now);
    }

    /** The detail service's edit, as far as the loan amount goes; `others` says whether it changes more. */
    method EditAmountRequested(newAmount: real, others: bool, now: int) returns (outcome: Outcome)
      requires Valid()
      modifies this
      ensures outcome == TryEditAmount(old(row), newAmount, others, now) && Carries(outcome)
    {
      if newAmount == row.amountRequested && !others { return Refused(NothingChanged); }
      row := row.(amountRequested := newAmount);
      var written := SaveAnyway(now);
      outcome := Done(written, Ok);
    }

    /** One row of the hourly sweep. */
    method ExpireIfStale(now: int) returns (outcome: Outcome)
      requires Valid()
      modifies this
      ensures outcome == TryExpire(old(row), now) && Carries(outcome)
    {
      if IsTerminal(row.status) || row.updatedAt >= now - INACTIVITY_DAYS * DAY { return Refused(NotStale); }
      row := row.(status := Expired);
      var written := Save(now);
      outcome := Done(written, Ok);
    }
  }
}
