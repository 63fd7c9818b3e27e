/**
  How often the micro-deposit amounts can be guessed wrong on one file, under every
  interleaving: the limit of ten, plus whatever requests were already past the
  check when it was reached.
 */
module DepositAttempts {
  import opened Options
  import opened FiniteSets
  import opened LoanStatus
  import W = LoanWorkflow
  import I = LoanInvariants
  import opened ActionLinks
  import opened LinkProtocol

  /** The rank from which the amounts on file are fixed. */
  const DEPOSIT_SENT := 7

  /* ------------------------------------------------- what actions do to a file */

  lemma OnlySendingTouchesGuesses(f: W.File, call: I.Call)
    requires !call.action.CountFailedAttempt?
    ensures var g := I.After(f, call);
            || (g.attempts == f.attempts && g.amount1 == f.amount1 && g.amount2 == f.amount2)
            || (g.attempts == 0 && Height(f.status) < DEPOSIT_SENT)
  {
    match call.action
    case UpdateStatus(_) =>
    case MarkAsCalledIn =>
    case SendBankVerification =>
    case RecordBankVerified =>
    case SendLoanAgreement =>
    case RecordAgreementSigned =>
    case SendVerificationDeposit(_, _) =>
    case ConfirmVerificationDeposit =>
    case Approve(_, _, _) =>
    case Decline(_) =>
    case Fund(_) =>
    case Withdraw =>
    case Expire =>
    case EditAmount(_, _) =>
  }

  lemma CountingOnlyCounts(f: W.File, now: int)
    ensures var g := I.After(f, I.Call(W.CountFailedAttempt, BORROWER, now));
            && g.attempts == f.attempts + 1 && g.status == f.status
            && g.amount1 == f.amount1 && g.amount2 == f.amount2
  {
  }

  /* --------------------------------------- the counter tells the whole story */

  /** What a request that saw `f` may rely on about the file as it is now. */
  ghost predicate Foresaw(f: W.File, now: W.File) {
    && Height(f.status) <= Height(now.status)
    && (Height(f.status) >= DEPOSIT_SENT ==> f.amount1 == now.amount1 && f.amount2 == now.amount2)
  }

  /** The request's stage agrees with the file it works on. */
  ghost predicate StageFits(q: Request, f: W.File) {
    match q.stage
    case Loaded(seen) => Foresaw(seen, f)
    case Counting => q.kind.ConfirmDeposit? && Height(f.status) >= DEPOSIT_SENT
    case Acting =>
      q.kind.ConfirmDeposit? ==>
        && Height(f.status) >= DEPOSIT_SENT
        && f.amount1.Some? && f.amount2.Some?
        && AmountsMatch(q.kind.cents1, q.kind.cents2, f.amount1.value, f.amount2.value)
    case _ => true
  }

  predicate Working(stage: Stage) {
    stage.Loaded? || stage.Counting? || stage.Acting?
  }

  /** Before the deposit went out nothing was counted, and the counter is never wound back. */
  ghost predicate Counted(s: System) {
    && (forall x | x !in s.files :: Failures(s, x) == 0)
    && (forall x | x in s.files ::
          && Failures(s, x) == s.files[x].attempts
          && (Height(s.files[x].status) < DEPOSIT_SENT ==> s.files[x].attempts == 0))
  }

  ghost predicate StagesFit(s: System) {
    forall r | r in s.requests && Working(s.requests[r].stage) ::
      s.requests[r].app in s.files && StageFits(s.requests[r], s.files[s.requests[r].app])
  }

  lemma DecisionFits(kind: Kind, seen: W.File, f: W.File, q: Request)
    requires Foresaw(seen, f)
    requires q.kind == kind && q.stage == Decision(kind, seen)
    ensures StageFits(q, f)
  {
  }

  /** A file that moves on as files do keeps every working request in step. */
  lemma FileStepKeepsFit(q: Request, f: W.File, g: W.File)
    requires StageFits(q, f)
    requires Foresaw(f, g)
    ensures StageFits(q, g)
  {
  }

  lemma WorkflowForeseen(f: W.File, call: I.Call)
    requires !call.action.CountFailedAttempt?
    ensures Foresaw(f, I.After(f, call))
  {
    I.RankNeverFalls(f, call);
    OnlySendingTouchesGuesses(f, call);
  }

  /** Some action other than counting is taken on file `x`. */
  lemma FileStepKeepsCounted(s: System, x: nat, call: I.Call)
    requires Counted(s) && x in s.files && !call.action.CountFailedAttempt?
    ensures Counted(s.(files := s.files[x := I.After(s.files[x], call)]))
  {
    I.RankNeverFalls(s.files[x], call);
    OnlySendingTouchesGuesses(s.files[x], call);
  }

  lemma SameFilesKeepCounted(s: System, t: System)
    requires Counted(s) && t.files == s.files && t.failures == s.failures
    ensures Counted(t)
  {
  }

  lemma CountKeepsCounted(s: System, r: nat, now: int)
    requires Counted(s) && StagesFit(s)
    ensures Counted(DoCount(s, r, now))
  {
    if At(s, r, Counting) {
      CountingOnlyCounts(s.files[s.requests[r].app], now);
    }
  }

  lemma ActKeepsCounted(s: System, r: nat, now: int)
    requires Counted(s)
    ensures Counted(DoAct(s, r, now))
  {
    var t := DoAct(s, r, now);
    if t.files == s.files {
      SameFilesKeepCounted(s, t);
    } else {
      var x := s.requests[r].app;
      var call := I.Call(ActionOf(s.requests[r].kind), BORROWER, now);
      FileStepKeepsCounted(s, x, call);
      SameFilesKeepCounted(s.(files := s.files[x := I.After(s.files[x], call)]), t);
    }
  }

  predicate TouchesFiles(step: Step) {
    step.Count? || step.Act? || step.Workflow? || step.Open?
  }

  lemma FilesStay(s: System, step: Step)
    requires !TouchesFiles(step)
    ensures Take(s, step).files == s.files && Take(s, step).failures == s.failures
  {
  }

  lemma OpenKeepsCounted(s: System, x: nat, amount: real, now: int)
    requires Counted(s)
    ensures Counted(DoOpen(s, x, amount, now))
  {
  }

  lemma {:induction false} StepKeepsCounted(s: System, step: Step)
    requires Counted(s) && StagesFit(s)
    ensures Counted(Take(s, step))
  {
    if !TouchesFiles(step) {
      FilesStay(s, step);
      SameFilesKeepCounted(s, Take(s, step));
    } else {
      match step
      case Count(r, now) => CountKeepsCounted(s, r, now);
      case Act(r, now) => ActKeepsCounted(s, r, now);
      case Open(x, amount, now) => OpenKeepsCounted(s, x, amount, now);
      case Workflow(x, call) =>
        if x in s.files && !call.action.CountFailedAttempt? {
          FileStepKeepsCounted(s, x, call);
        }
    }
  }

  lemma FilesMoveKeepsFit(s: System, t: System, x: nat, call: I.Call)
    requires StagesFit(s) && x in s.files && !call.action.CountFailedAttempt?
    requires t.files == s.files[x := I.After(s.files[x], call)]
    requires forall r | r in t.requests && Working(t.requests[r].stage) ::
               r in s.requests && t.requests[r] == s.requests[r]
    ensures StagesFit(t)
  {
    WorkflowForeseen(s.files[x], call);
    forall r | r in t.requests && Working(t.requests[r].stage)
      ensures t.requests[r].app in t.files && StageFits(t.requests[r], t.files[t.requests[r].app])
    {
      if t.requests[r].app == x {
        FileStepKeepsFit(s.requests[r], s.files[x], t.files[x]);
      }
    }
  }

  lemma CountKeepsFit(s: System, r: nat, now: int)
    requires StagesFit(s)
    ensures StagesFit(DoCount(s, r, now))
  {
    var t := DoCount(s, r, now);
    if At(s, r, Counting) {
      var x := s.requests[r].app;
      CountingOnlyCounts(s.files[x], now);
      forall q | q in t.requests && Working(t.requests[q].stage)
        ensures t.requests[q].app in t.files && StageFits(t.requests[q], t.files[t.requests[q].app])
      {
        if t.requests[q].app == x {
          FileStepKeepsFit(s.requests[q], s.files[x], t.files[x]);
        }
      }
    }
  }

  lemma ActKeepsFit(s: System, r: nat, now: int)
    requires StagesFit(s)
    ensures StagesFit(DoAct(s, r, now))
  {
    if At(s, r, Acting) {
      var x, call := s.requests[r].app, I.Call(ActionOf(s.requests[r].kind), BORROWER, now);
      FilesMoveKeepsFit(s, Moved(s, r, Finished).(files := s.files[x := I.After(s.files[x], call)]), x, call);
    }
  }

  lemma DecideKeepsFit(s: System, r: nat)
    requires StagesFit(s)
    ensures StagesFit(DoDecide(s, r))
  {
    if r in s.requests && s.requests[r].stage.Loaded? {
      var q := DoDecide(s, r).requests[r];
      DecisionFits(q.kind, s.requests[r].stage.file, s.files[q.app], q);
    }
  }

  lemma LoadKeepsFit(s: System, r: nat)
    requires StagesFit(s)
    ensures StagesFit(DoLoad(s, r))
  {
  }

  lemma OpenKeepsFit(s: System, x: nat, amount: real, now: int)
    requires StagesFit(s)
    ensures StagesFit(DoOpen(s, x, amount, now))
  {
  }

  lemma WorkflowKeepsFit(s: System, x: nat, call: I.Call)
    requires StagesFit(s)
    ensures StagesFit(DoWorkflow(s, x, call))
  {
    if x in s.files && !call.action.CountFailedAttempt? {
      FilesMoveKeepsFit(s, DoWorkflow(s, x, call), x, call);
    }
  }

  lemma LinkStepKeepsFit(s: System, step: Step)
    requires StagesFit(s)
    requires !TouchesFiles(step) && !step.Load? && !step.Decide?
    ensures StagesFit(Take(s, step))
  {
  }

  lemma StepKeepsFit(s: System, step: Step)
    requires StagesFit(s)
    ensures StagesFit(Take(s, step))
  {
    match step
    case Load(r) => LoadKeepsFit(s, r);
    case Decide(r) => DecideKeepsFit(s, r);
    case Count(r, now) => CountKeepsFit(s, r, now);
    case Act(r, now) => ActKeepsFit(s, r, now);
    case Workflow(x, call) => WorkflowKeepsFit(s, x, call);
    case Open(x, amount, now) => OpenKeepsFit(s, x, amount, now);
    case _ => LinkStepKeepsFit(s, step);
  }

  /* --------------------------------------------------- guesses under way */

  /** Requests on file `x` that hold a deposit link. */
  function Guessers(s: System, x: nat): set<nat> {
    set r | r in s.requests && Holds(s, r) && s.requests[r].app == x && s.requests[r].kind.ConfirmDeposit?
  }

  /** Those among them that may still count a wrong guess. */
  function MayCount(s: System, x: nat): set<nat> {
    set r | r in s.requests && s.requests[r].app == x && s.requests[r].kind.ConfirmDeposit?
            && (s.requests[r].stage.Counting?
                || (s.requests[r].stage.Loaded? && s.requests[r].stage.file.attempts < MAX_DEPOSIT_ATTEMPTS))
  }

  /** Past the limit, every further count was already in hand. */
  ghost predicate WithinLimit(s: System, x: nat, m: nat) {
    x in s.files && s.files[x].attempts >= MAX_DEPOSIT_ATTEMPTS ==>
      s.files[x].attempts + |MayCount(s, x)| <= 9 + m
  }

  lemma CountSpendsOne(s: System, r: nat, now: int, x: nat)
    requires StagesFit(s) && At(s, r, Counting)
    ensures var t := DoCount(s, r, now);
            MayCount(t, x) == MayCount(s, x) - (if s.requests[r].app == x then {r} else {})
  {
  }

  lemma CountStaysWithinLimit(s: System, r: nat, now: int, x: nat, m: nat)
    requires StagesFit(s) && WithinLimit(s, x, m) && |Guessers(s, x)| <= m
    ensures WithinLimit(DoCount(s, r, now), x, m)
  {
    SubsetSize(MayCount(s, x), Guessers(s, x));
    if At(s, r, Counting) {
      CountingOnlyCounts(s.files[s.requests[r].app], now);
      CountSpendsOne(s, r, now, x);
      if s.requests[r].app == x {
        assert r in MayCount(s, x);
      }
    }
  }

  /** No step but counting raises the counter, and past the limit nobody new may count. */
  lemma OthersStayWithinLimit(s: System, step: Step, x: nat, m: nat)
    requires !step.Count? && StagesFit(s) && WithinLimit(s, x, m)
    ensures WithinLimit(Take(s, step), x, m)
  {
    var t := Take(s, step);
    if x in t.files && t.files[x].attempts >= MAX_DEPOSIT_ATTEMPTS {
      FileKeepsAttempts(s, step, x);
      forall r | r in MayCount(t, x) ensures r in MayCount(s, x) {
        NobodyNewMayCount(s, step, x, r);
      }
      SubsetSize(MayCount(t, x), MayCount(s, x));
    }
  }

  lemma ActKeepsAttempts(s: System, r: nat, now: int, x: nat)
    requires x in DoAct(s, r, now).files && DoAct(s, r, now).files[x].attempts > 0
    ensures x in s.files && s.files[x].attempts == DoAct(s, r, now).files[x].attempts
  {
    if At(s, r, Acting) && s.requests[r].app in s.files {
      OnlySendingTouchesGuesses(s.files[s.requests[r].app], I.Call(ActionOf(s.requests[r].kind), BORROWER, now));
    }
  }

  lemma WorkflowKeepsAttempts(s: System, y: nat, call: I.Call, x: nat)
    requires x in DoWorkflow(s, y, call).files && DoWorkflow(s, y, call).files[x].attempts > 0
    ensures x in s.files && s.files[x].attempts == DoWorkflow(s, y, call).files[x].attempts
  {
    if y in s.files && !call.action.CountFailedAttempt? {
      OnlySendingTouchesGuesses(s.files[y], call);
    }
  }

  lemma FileKeepsAttempts(s: System, step: Step, x: nat)
    requires !step.Count?
    requires x in Take(s, step).files && Take(s, step).files[x].attempts > 0
    ensures x in s.files && s.files[x].attempts == Take(s, step).files[x].attempts
  {
    match step
    case Act(r, now) => ActKeepsAttempts(s, r, now, x);
    case Workflow(y, call) => WorkflowKeepsAttempts(s, y, call, x);
    case Open(_, _, _) =>
    case _ => FilesStay(s, step);
  }

  /** Nothing but loading and deciding brings a request to the point of counting. */
  lemma OthersLetNobodyCount(s: System, step: Step, x: nat, r: nat)
    requires !step.Count? && !step.Load? && !step.Decide?
    requires r in MayCount(Take(s, step), x)
    ensures r in MayCount(s, x)
  {
  }

  lemma NobodyNewMayCount(s: System, step: Step, x: nat, r: nat)
    requires !step.Count?
    requires x in s.files && s.files[x].attempts >= MAX_DEPOSIT_ATTEMPTS
    requires r in MayCount(Take(s, step), x)
    ensures r in MayCount(s, x)
  {
    if !step.Load? && !step.Decide? {
      OthersLetNobodyCount(s, step, x, r);
    }
  }

  lemma StepStaysWithinLimit(s: System, step: Step, x: nat, m: nat)
    requires StagesFit(s) && WithinLimit(s, x, m) && |Guessers(s, x)| <= m
    ensures WithinLimit(Take(s, step), x, m)
  {
    if step.Count? {
      CountStaysWithinLimit(s, step.r, step.now, x, m);
    } else {
      OthersStayWithinLimit(s, step, x, m);
    }
  }

  /** At no moment of the run do more than `m` requests hold a deposit link of file `x`. */
  ghost predicate NeverMoreHolders(s: System, steps: seq<Step>, x: nat, m: nat)
    decreases |steps|
  {
    |Guessers(s, x)| <= m && (steps != [] ==> NeverMoreHolders(Take(s, steps[0]), steps[1..], x, m))
  }

  lemma {:induction false} GuessesStayBounded(s: System, steps: seq<Step>, x: nat, m: nat)
    requires StagesFit(s) && Counted(s) && WithinLimit(s, x, m)
    requires NeverMoreHolders(s, steps, x, m)
    ensures Failures(Run(s, steps), x) <= 9 + m
    decreases |steps|
  {
    if steps != [] {
      StepKeepsFit(s, steps[0]);
      StepKeepsCounted(s, steps[0]);
      StepStaysWithinLimit(s, steps[0], x, m);
      GuessesStayBounded(Take(s, steps[0]), steps[1..], x, m);
    }
  }

  /**
    Under every interleaving a file suffers at most 9 + m wrong guesses in its whole
    life, m being the most requests ever holding one of its deposit links at once.
   */
  lemma WrongGuessesAreBounded(steps: seq<Step>, x: nat, m: nat)
    requires NeverMoreHolders(START, steps, x, m)
    ensures Failures(Run(START, steps), x) <= 9 + m
  {
    GuessesStayBounded(START, steps, x, m);
  }

  /* --------------------------------------------- holders are bounded by links */

  function DepositLinks(s: System, x: nat): set<nat> {
    set t | t in s.links && ForPair(s.links[t], x, DepositConfirmation)
  }

  lemma {:induction false} InjectionSize(s: System, rs: set<nat>, ts: set<nat>)
    requires OneHolder(s)
    requires forall r | r in rs :: Holds(s, r) && s.requests[r].token in ts
    ensures |rs| <= |ts|
    decreases |rs|
  {
    if rs != {} {
      var r :| r in rs;
      var t := s.requests[r].token;
      forall q | q in rs - {r} ensures Holds(s, q) && s.requests[q].token in ts - {t} {
      }
      InjectionSize(s, rs - {r}, ts - {t});
      assert |rs - {r}| == |rs| - 1 && |ts - {t}| == |ts| - 1;
    }
  }

  lemma HoldersBoundedByLinks(s: System, x: nat)
    requires Safe(s)
    ensures |Guessers(s, x)| <= |DepositLinks(s, x)|
  {
    InjectionSize(s, Guessers(s, x), DepositLinks(s, x));
  }

  /** At no moment does file `x` have more than `n` deposit links in the table. */
  ghost predicate NeverMoreLinks(s: System, steps: seq<Step>, x: nat, n: nat)
    decreases |steps|
  {
    |DepositLinks(s, x)| <= n && (steps != [] ==> NeverMoreLinks(Take(s, steps[0]), steps[1..], x, n))
  }

  lemma {:induction false} FewLinksFewHolders(s: System, steps: seq<Step>, x: nat, n: nat)
    requires Safe(s) && NeverMoreLinks(s, steps, x, n)
    ensures NeverMoreHolders(s, steps, x, n)
    decreases |steps|
  {
    HoldersBoundedByLinks(s, x);
    if steps != [] {
      StepKeepsSafe(s, steps[0]);
      FewLinksFewHolders(Take(s, steps[0]), steps[1..], x, n);
    }
  }

  /** With a single deposit link the limit of ten wrong guesses is exact, however requests race. */
  lemma OneLinkTenGuesses(steps: seq<Step>, x: nat)
    requires NeverMoreLinks(START, steps, x, 1)
    ensures Failures(Run(START, steps), x) <= 10
  {
    FewLinksFewHolders(START, steps, x, 1);
    WrongGuessesAreBounded(steps, x, 1);
  }

  /* ------------------------------------------------ confirming takes a match */

  lemma {:induction false} RunKeepsFit(s: System, steps: seq<Step>)
    requires StagesFit(s)
    ensures StagesFit(Run(s, steps))
    decreases |steps|
  {
    if steps != [] {
      StepKeepsFit(s, steps[0]);
      RunKeepsFit(Take(s, steps[0]), steps[1..]);
    }
  }

  /** A deposit is confirmed only by amounts equal, as multisets, to those on the file at that moment. */
  lemma ConfirmingTakesAMatch(steps: seq<Step>, r: nat)
    requires var s := Run(START, steps);
             At(s, r, Acting) && s.requests[r].kind.ConfirmDeposit?
    ensures var s := Run(START, steps);
            var q := s.requests[r];
            && q.app in s.files
            && s.files[q.app].amount1.Some? && s.files[q.app].amount2.Some?
            && multiset{q.kind.cents1, q.kind.cents2}
               == multiset{s.files[q.app].amount1.value, s.files[q.app].amount2.value}
  {
    RunKeepsFit(START, steps);
    var s := Run(START, steps);
    var q := s.requests[r];
    assert StageFits(q, s.files[q.app]);
    MatchIgnoresOrder(q.kind.cents1, q.kind.cents2,
                      s.files[q.app].amount1.value, s.files[q.app].amount2.value);
  }
}
