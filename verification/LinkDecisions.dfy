/**
  What a borrower's request comes to: which link it may read, which branch it takes on
  the file it loaded, and what the file is once it has acted.
 */
module LinkDecisions {
  import opened Options
  import opened LoanStatus
  import W = LoanWorkflow
  import I = LoanInvariants
  import R = LoanRecords
  import opened ActionLinks
  import opened LinkProtocol
  import opened DepositAttempts

  /** The purpose a link must have been issued for. */
  ghost predicate RightPurpose(kind: Kind, purpose: Purpose) {
    match purpose
    case BankVerification => kind.VerifyAccount?
    case AgreementSignature => kind.SignAgreement?
    case DepositConfirmation => kind.ConfirmDeposit?
  }

  /** A request gets past reading its link exactly when that is for the purpose, unused, not superseded and in date. */
  lemma ReadsIff(s: System, r: nat, now: int)
    requires At(s, r, Arrived)
    ensures var q := s.requests[r];
            At(Take(s, Validate(r, now)), r, Validated) <==>
              && q.token in s.links && RightPurpose(q.kind, s.links[q.token].purpose)
              && Outstanding(s.links[q.token]) && now < s.links[q.token].expiresAt
  {
    LinkIsGoodIff(s.links, s.requests[r].token, PurposeOf(s.requests[r].kind), now);
  }

  /** Steps that only look: arriving, reading the link or the file, deciding. */
  ghost predicate OnlyLooks(step: Step) {
    step.Arrive? || step.Validate? || step.Load? || step.Decide?
  }

  lemma LookingChangesNothing(s: System, step: Step)
    requires OnlyLooks(step)
    ensures Take(s, step) == s.(requests := Take(s, step).requests)
  {
  }

  /** The request a step belongs to, if any. */
  function Actor(step: Step): Option<nat> {
    match step
    case Arrive(r, _, _) => Some(r)
    case Validate(r, _) => Some(r)
    case Claim(r, _) => Some(r)
    case Load(r) => Some(r)
    case Decide(r) => Some(r)
    case Count(r, _) => Some(r)
    case GiveBack(r) => Some(r)
    case Act(r, _) => Some(r)
    case _ => None
  }

  lemma OthersMoveNobody(s: System, step: Step)
    requires Actor(step) == None
    ensures Take(s, step).requests == s.requests && Take(s, step).log == s.log
  {
  }

  /** Nobody else moves a request, and what it came for never changes. */
  lemma RequestsKeepToThemselves(s: System, step: Step, r: nat)
    requires r in s.requests && Actor(step).Some?
    ensures var t := Take(s, step);
            && r in t.requests
            && t.requests[r].kind == s.requests[r].kind && t.requests[r].token == s.requests[r].token
            && (Actor(step) != Some(r) ==> t.requests[r] == s.requests[r])
  {
  }

  /** A link that was read is claimed exactly when nobody has used it meanwhile; else the request is over. */
  lemma ClaimingDoes(s: System, r: nat, now: int)
    requires At(s, r, Validated)
    ensures var q, t := s.requests[r], Take(s, Claim(r, now));
            && t.files == s.files && t.failures == s.failures
            && if q.token in s.links && s.links[q.token].consumedAt == None
               then At(t, r, HoldsLink) && t.log == s.log + [ClaimedLink(q.token)]
                    && t.links == s.links[q.token := s.links[q.token].(consumedAt := Some(now))]
               else At(t, r, Finished) && t.links == s.links && t.log == s.log
  {
  }

  /** The file is read as it is; should there be none, the request is over and its link stays spent. */
  lemma LoadingDoes(s: System, r: nat)
    requires At(s, r, HoldsLink)
    ensures var q, t := s.requests[r], Take(s, Load(r));
            && t.links == s.links
            && if q.app in s.files then At(t, r, Loaded(s.files[q.app])) else At(t, r, Finished)
  {
  }

  /** In every reachable state a request holds only a link of its own file, issued for what it does. */
  lemma HeldLinkFitsItsUse(steps: seq<Step>, r: nat)
    requires Holds(Run(START, steps), r)
    ensures var s := Run(START, steps);
            var q := s.requests[r];
            && q.token in s.links && s.links[q.token].app == q.app
            && RightPurpose(q.kind, s.links[q.token].purpose)
  {
    AtMostOneHolder(START, steps);
  }

  /** The file waits for its deposit to be confirmed, with amounts to compare and guesses left. */
  predicate Awaiting(f: W.File) {
    && f.status == VerificationDepositSent && f.confirmedAt == None
    && f.amount1.Some? && f.amount2.Some? && f.attempts < 10
  }

  /**
    In every reachable state, a request that decides on a file awaiting confirmation
    goes on to act exactly when the two amounts typed are the two on the file now, in
    either order, and to count a wrong guess exactly when they are not.
   */
  lemma DepositIsDecidedIff(steps: seq<Step>, r: nat)
    requires var s := Run(START, steps);
             && r in s.requests && s.requests[r].kind.ConfirmDeposit?
             && s.requests[r].stage.Loaded? && Awaiting(s.requests[r].stage.file)
    ensures var s := Run(START, steps);
            var q, t := s.requests[r], Take(s, Decide(r));
            && q.app in s.files && s.files[q.app].amount1.Some? && s.files[q.app].amount2.Some?
            && var same := multiset{q.kind.cents1, q.kind.cents2}
                        == multiset{s.files[q.app].amount1.value, s.files[q.app].amount2.value};
               (At(t, r, Acting) <==> same) && (At(t, r, Counting) <==> !same)
  {
    RunKeepsFit(START, steps);
    var s := Run(START, steps);
    var q := s.requests[r];
    assert StageFits(q, s.files[q.app]);
    MatchIgnoresOrder(q.kind.cents1, q.kind.cents2,
                      q.stage.file.amount1.value, q.stage.file.amount2.value);
  }

  /** The file is already where the request would bring it. */
  ghost predicate AlreadyThere(kind: Kind, f: W.File) {
    match kind
    case VerifyAccount => f.bankVerified
    case SignAgreement => f.status == AgreementSigned
    case ConfirmDeposit(_, _) => f.status == VerificationDepositConfirmed || f.confirmedAt != None
  }

  /** It is not in the state the link was meant for, and the link is handed back. */
  ghost predicate NotItsTime(kind: Kind, f: W.File) {
    match kind
    case VerifyAccount => false
    case SignAgreement => f.status != AgreementSigned && f.status != AgreementSent
    case ConfirmDeposit(_, _) =>
      && f.confirmedAt == None && f.status != VerificationDepositConfirmed
      && (f.status != VerificationDepositSent || f.amount1 == None || f.amount2 == None)
  }

  /** Ten wrong guesses have been counted on a file still waiting. */
  ghost predicate OutOfGuesses(kind: Kind, f: W.File) {
    && kind.ConfirmDeposit? && f.attempts >= 10
    && f.status == VerificationDepositSent && f.confirmedAt == None && f.amount1 != None && f.amount2 != None
  }

  /** The other ways a decision can go: nothing left to do, too late, too many guesses, or the act itself. */
  lemma DecidesIff(s: System, r: nat)
    requires r in s.requests && s.requests[r].stage.Loaded?
    ensures var kind, f, t := s.requests[r].kind, s.requests[r].stage.file, Take(s, Decide(r));
            && (At(t, r, Finished) <==> AlreadyThere(kind, f) || OutOfGuesses(kind, f))
            && (At(t, r, GivingBack) <==> NotItsTime(kind, f))
            && (!kind.ConfirmDeposit? ==>
                  (At(t, r, Acting) <==> !AlreadyThere(kind, f) && !NotItsTime(kind, f)))
  {
  }

  /** The file may still take the action. */
  ghost predicate Takes(kind: Kind, f: W.File) {
    match kind
    case VerifyAccount => f.status in {PendingCall, InReview, BankVerificationPending}
    case SignAgreement => f.status == AgreementSent
    case ConfirmDeposit(_, _) => f.status == VerificationDepositSent
  }

  /** What acting makes of the file. */
  function ActedOn(kind: Kind, f: W.File, now: int): W.File {
    match kind
    case VerifyAccount => f.(status := BankVerificationComplete, bankVerified := true, updatedAt := now)
    case SignAgreement => f.(status := AgreementSigned, updatedAt := now)
    case ConfirmDeposit(_, _) => f.(status := Underwriting, confirmedAt := Some(now), updatedAt := now)
  }

  /** The workflow's part: the action is carried out exactly when the file still takes it. */
  lemma ActionDoes(kind: Kind, f: W.File, now: int)
    ensures var call := I.Call(ActionOf(kind), BORROWER, now);
            && (I.Commits(f, call) != [] <==> Takes(kind, f))
            && I.After(f, call) == if Takes(kind, f) then ActedOn(kind, f, now) else f
  {
    var call := I.Call(ActionOf(kind), BORROWER, now);
    R.CarriedOutIff(f, call);
    R.RowsWritten(f, call);
    R.AfterIsTold(f, call);
  }

  /**
    In every reachable state a request about to act completes its action, and logs it,
    exactly when the file as it is then still takes it; otherwise the file stays.
   */
  lemma ActingDoes(steps: seq<Step>, r: nat, now: int)
    requires At(Run(START, steps), r, Acting)
    ensures var s := Run(START, steps);
            var q, t := s.requests[r], Take(s, Act(r, now));
            && q.app in s.files && At(t, r, Finished)
            && var f := s.files[q.app];
               if Takes(q.kind, f)
               then t.files == s.files[q.app := ActedOn(q.kind, f, now)] && t.log == s.log + [ActedOnLink(q.token)]
               else t.files == s.files && t.log == s.log
  {
    RunKeepsFit(START, steps);
    var s := Run(START, steps);
    ActionDoes(s.requests[r].kind, s.files[s.requests[r].app], now);
  }

  /** A wrong guess costs one attempt and nothing else, and leaves the link to be handed back. */
  lemma CountingCosts(steps: seq<Step>, r: nat, now: int)
    requires At(Run(START, steps), r, Counting)
    ensures var s := Run(START, steps);
            var q, t := s.requests[r], Take(s, Count(r, now));
            && q.app in s.files && At(t, r, GivingBack) && t.links == s.links && t.log == s.log
            && var f := s.files[q.app];
               t.files == s.files[q.app := f.(attempts := f.attempts + 1, updatedAt := now)]
  {
    RunKeepsFit(START, steps);
    var s := Run(START, steps);
    var call := I.Call(W.CountFailedAttempt, BORROWER, now);
    R.AfterIsTold(s.files[s.requests[r].app], call);
  }

  /** A link handed back is as it was before it was claimed: unused, and superseded if it had been meanwhile. */
  lemma GivingBackRestores(steps: seq<Step>, r: nat)
    requires At(Run(START, steps), r, GivingBack)
    ensures var s := Run(START, steps);
            var q, t := s.requests[r], Take(s, GiveBack(r));
            && At(t, r, Finished) && q.token in s.links && t.files == s.files
            && t.links == s.links[q.token := s.links[q.token].(consumedAt := None)]
            && t.log == s.log + [ReleasedLink(q.token)]
  {
    assert Holds(Run(START, steps), r);
    AtMostOneHolder(START, steps);
  }
}
