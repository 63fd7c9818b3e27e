/**
  Borrower requests of src/applications/services/borrower-action.service.ts racing
  each other, re-issued links, the purge and every other action on the files.

  Each database statement is one step.  A request remembers how far it got; the
  steps of different requests interleave in any order, and a step that is not
  enabled leaves the system as it is, so a run is any sequence of steps at all.
 */
module LinkProtocol {
  import opened Options
  import opened LoanStatus
  import W = LoanWorkflow
  import I = LoanInvariants
  import opened ActionLinks

  const MAX_DEPOSIT_ATTEMPTS := 10

  datatype Kind = VerifyAccount | SignAgreement | ConfirmDeposit(cents1: int, cents2: int)

  function PurposeOf(k: Kind): Purpose {
    match k
    case VerifyAccount => BankVerification
    case SignAgreement => AgreementSignature
    case ConfirmDeposit(_, _) => DepositConfirmation
  }

  datatype Stage =
    | Arrived
    | Validated            // the link was read and found usable
    | HoldsLink            // the conditional update claimed it
    | Loaded(file: W.File) // the application row was read
    | Counting             // wrong amounts: an attempt is about to be counted
    | GivingBack           // the claim is about to be undone
    | Acting               // the workflow action is about to run
    | Finished

  datatype Request = Request(kind: Kind, token: nat, app: nat, stage: Stage)

  datatype Event = ClaimedLink(token: nat) | ReleasedLink(token: nat) | ActedOnLink(token: nat)

  datatype System = System(
    links: Links,
    next: nat,
    files: map<nat, W.File>,
    requests: map<nat, Request>,
    failures: map<nat, nat>,  // history: wrong guesses ever counted on a file
    log: seq<Event>)          // history: what happened to the links

  datatype Step =
    | Arrive(r: nat, kind: Kind, token: nat)
    | Validate(r: nat, now: int)
    | Claim(r: nat, now: int)
    | Load(r: nat)
    | Decide(r: nat)
    | Count(r: nat, now: int)
    | GiveBack(r: nat)
    | Act(r: nat, now: int)
    | Supersede(app: nat, purpose: Purpose, now: int)
    | Create(app: nat, purpose: Purpose, now: int)
    | Purge(olderThan: int)
    | Workflow(app: nat, call: I.Call)
    | Open(app: nat, amount: real, now: int)

  /* ------------------------------------------------- what a request does next */

  function Smaller(x: int, y: int): int { if x <= y then x else y }

  function Larger(x: int, y: int): int { if x <= y then y else x }

  /** Both pairs sorted, then compared position by position. */
  predicate AmountsMatch(cents1: int, cents2: int, expected1: int, expected2: int) {
    && Smaller(cents1, cents2) == Smaller(expected1, expected2)
    && Larger(cents1, cents2) == Larger(expected1, expected2)
  }

  lemma MatchIgnoresOrder(cents1: int, cents2: int, expected1: int, expected2: int)
    ensures AmountsMatch(cents1, cents2, expected1, expected2)
            <==> multiset{cents1, cents2} == multiset{expected1, expected2}
  {
    var s, e := multiset{cents1, cents2}, multiset{expected1, expected2};
    if s == e {
      assert cents1 in e && cents2 in e && expected1 in s && expected2 in s;
    }
    if AmountsMatch(cents1, cents2, expected1, expected2) {
      assert (cents1 == expected1 && cents2 == expected2) || (cents1 == expected2 && cents2 == expected1);
    }
  }

  /** The branch a request takes on the file it loaded. */
  function Decision(kind: Kind, f: W.File): Stage {
    match kind
    case VerifyAccount =>
      if f.bankVerified then Finished else Acting
    case SignAgreement =>
      if f.status == AgreementSigned then Finished
      else if f.status != AgreementSent then GivingBack
      else Acting
    case ConfirmDeposit(cents1, cents2) =>
      if f.status == VerificationDepositConfirmed || f.confirmedAt.Some? then Finished
      else if f.status != VerificationDepositSent then GivingBack
      else if f.amount1 == None || f.amount2 == None then GivingBack
      else if f.attempts >= MAX_DEPOSIT_ATTEMPTS then Finished
      else if AmountsMatch(cents1, cents2, f.amount1.value, f.amount2.value) then Acting
      else Counting
  }

  function ActionOf(kind: Kind): W.Action {
    match kind
    case VerifyAccount => W.RecordBankVerified
    case SignAgreement => W.RecordAgreementSigned
    case ConfirmDeposit(_, _) => W.ConfirmVerificationDeposit
  }

  /** The borrower's own options: the notice cannot be suppressed. */
  const BORROWER := W.Caller(None, true, false)

  predicate At(s: System, r: nat, stage: Stage) {
    r in s.requests && s.requests[r].stage == stage
  }

  function Moved(s: System, r: nat, stage: Stage): System
    requires r in s.requests
  {
    s.(requests := s.requests[r := s.requests[r].(stage := stage)])
  }

  function DoArrive(s: System, r: nat, kind: Kind, token: nat): System {
    if r in s.requests then s
    else s.(requests := s.requests[r := Request(kind, token, 0, Arrived)])
  }

  function DoValidate(s: System, r: nat, now: int): System {
    if !At(s, r, Arrived) then s
    else
      var q := s.requests[r];
      if RejectionReason(s.links, q.token, PurposeOf(q.kind), now).Some? then Moved(s, r, Finished)
      else s.(requests := s.requests[r := q.(app := s.links[q.token].app, stage := Validated)])
  }

  function DoClaim(s: System, r: nat, now: int): System {
    if !At(s, r, Validated) then s
    else if !Claimable(s.links, s.requests[r].token) then Moved(s, r, Finished)
    else
      Moved(s, r, HoldsLink).(links := Claimed(s.links, s.requests[r].token, now),
                              log := s.log + [ClaimedLink(s.requests[r].token)])
  }

  function DoLoad(s: System, r: nat): System {
    if !At(s, r, HoldsLink) then s
    else if s.requests[r].app !in s.files then Moved(s, r, Finished)
    else Moved(s, r, Loaded(s.files[s.requests[r].app]))
  }

  function DoDecide(s: System, r: nat): System {
    if r in s.requests && s.requests[r].stage.Loaded?
    then Moved(s, r, Decision(s.requests[r].kind, s.requests[r].stage.file))
    else s
  }

  function DoCount(s: System, r: nat, now: int): System {
    if !At(s, r, Counting) || s.requests[r].app !in s.files then s
    else
      var app := s.requests[r].app;
      var counted := I.After(s.files[app], I.Call(W.CountFailedAttempt, BORROWER, now));
      Moved(s, r, GivingBack).(files := s.files[app := counted],
                               failures := s.failures[app := Failures(s, app) + 1])
  }

  function DoGiveBack(s: System, r: nat): System {
    if !At(s, r, GivingBack) then s
    else
      Moved(s, r, Finished).(links := Released(s.links, s.requests[r].token),
                             log := s.log + [ReleasedLink(s.requests[r].token)])
  }

  function DoAct(s: System, r: nat, now: int): System {
    if !At(s, r, Acting) || s.requests[r].app !in s.files then s
    else
      var app := s.requests[r].app;
      var call := I.Call(ActionOf(s.requests[r].kind), BORROWER, now);
      if I.Commits(s.files[app], call) == [] then Moved(s, r, Finished)
      else
        Moved(s, r, Finished).(files := s.files[app := I.After(s.files[app], call)],
                               log := s.log + [ActedOnLink(s.requests[r].token)])
  }

  function DoCreate(s: System, app: nat, purpose: Purpose, now: int): System {
    s.(links := Created(s.links, s.next, app, purpose, now), next := s.next + 1)
  }

  function DoWorkflow(s: System, app: nat, call: I.Call): System {
    if app !in s.files || call.action.CountFailedAttempt? then s
    else s.(files := s.files[app := I.After(s.files[app], call)])
  }

  function DoOpen(s: System, app: nat, amount: real, now: int): System {
    if app in s.files then s else s.(files := s.files[app := W.NewFile(amount, now)])
  }

  function Failures(s: System, app: nat): nat {
    if app in s.failures then s.failures[app] else 0
  }

  function Take(s: System, step: Step): System {
    match step
    case Arrive(r, kind, token) => DoArrive(s, r, kind, token)
    case Validate(r, now) => DoValidate(s, r, now)
    case Claim(r, now) => DoClaim(s, r, now)
    case Load(r) => DoLoad(s, r)
    case Decide(r) => DoDecide(s, r)
    case Count(r, now) => DoCount(s, r, now)
    case GiveBack(r) => DoGiveBack(s, r)
    case Act(r, now) => DoAct(s, r, now)
    case Supersede(app, purpose, now) => s.(links := Revoked(s.links, app, purpose, now))
    case Create(app, purpose, now) => DoCreate(s, app, purpose, now)
    case Purge(olderThan) => s.(links := Purged(s.links, olderThan))
    case Workflow(app, call) => DoWorkflow(s, app, call)
    case Open(app, amount, now) => DoOpen(s, app, amount, now)
  }

  const START := System(map[], 0, map[], map[], map[], [])

  function Run(s: System, steps: seq<Step>): System
    decreases |steps|
  {
    if steps == [] then s else Run(Take(s, steps[0]), steps[1..])
  }

  lemma {:induction false} RunConcat(s: System, a: seq<Step>, b: seq<Step>)
    ensures Run(s, a + b) == Run(Run(s, a), b)
    decreases |a|
  {
    if a == [] {
      assert a + b == b;
    } else {
      assert (a + b)[1..] == a[1..] + b;
      RunConcat(Take(s, a[0]), a[1..], b);
    }
  }

  lemma TwoSteps(s: System, a: Step, b: Step)
    ensures Run(s, [a]) == Take(s, a)
    ensures Run(s, [a, b]) == Take(Take(s, a), b)
  {
    assert [a, b][1..] == [b];
    assert Run(s, [a, b]) == Run(Take(s, a), [b]);
    assert Run(Take(s, a), [b]) == Run(Take(Take(s, a), b), []);
    assert Run(s, [a]) == Run(Take(s, a), []);
  }

  lemma ThreeSteps(s: System, a: Step, b: Step, c: Step)
    ensures Run(s, [a, b, c]) == Take(Take(Take(s, a), b), c)
  {
    assert [a, b] + [c] == [a, b, c];
    RunConcat(s, [a, b], [c]);
    TwoSteps(s, a, b);
    TwoSteps(Take(Take(s, a), b), c, c);
  }

  lemma FourSteps(s: System, a: Step, b: Step, c: Step, d: Step)
    ensures Run(s, [a, b, c, d]) == Take(Take(Take(Take(s, a), b), c), d)
  {
    assert [a, b] + [c, d] == [a, b, c, d];
    RunConcat(s, [a, b], [c, d]);
    TwoSteps(s, a, b);
    TwoSteps(Take(Take(s, a), b), c, d);
  }

  /* ---------------------------------------------------- a link has one holder */

  predicate Holding(stage: Stage) {
    stage.HoldsLink? || stage.Loaded? || stage.Counting? || stage.GivingBack? || stage.Acting?
  }

  predicate Holds(s: System, r: nat) {
    r in s.requests && Holding(s.requests[r].stage)
  }

  /** Links are numbered below `next`; a request past validation names the right file and purpose. */
  ghost predicate WellFormed(s: System) {
    && (forall t | t in s.links :: t < s.next)
    && (forall r | r in s.requests && s.requests[r].stage.Validated? :: s.requests[r].token < s.next)
    && (forall r | r in s.requests && s.requests[r].stage.Validated? && s.requests[r].token in s.links ::
          ForPair(s.links[s.requests[r].token], s.requests[r].app, PurposeOf(s.requests[r].kind)))
    && (forall r | Holds(s, r) ::
          && s.requests[r].token in s.links
          && s.links[s.requests[r].token].consumedAt.Some?
          && ForPair(s.links[s.requests[r].token], s.requests[r].app, PurposeOf(s.requests[r].kind)))
  }

  ghost predicate OneHolder(s: System) {
    forall r1, r2 | Holds(s, r1) && Holds(s, r2) && s.requests[r1].token == s.requests[r2].token :: r1 == r2
  }

  ghost predicate Safe(s: System) {
    WellFormed(s) && OneHolder(s)
  }

  lemma DecisionIsPlain(kind: Kind, f: W.File)
    ensures Decision(kind, f) in {Finished, GivingBack, Acting, Counting}
  {
  }

  /** Moving one request along, without it gaining a link, is safe. */
  lemma MoveKeepsSafe(s: System, t: System, r: nat, stage: Stage)
    requires Safe(s) && r in s.requests
    requires Holding(stage) ==> Holding(s.requests[r].stage)
    requires !stage.Validated?
    requires t.links == s.links && t.next == s.next && t.requests == Moved(s, r, stage).requests
    ensures Safe(t)
  {
    forall q | Holds(t, q)
      ensures Holds(s, q) && t.requests[q].token == s.requests[q].token
    {
    }
  }

  /** Changing the table is safe while every consumed link stays as it is. */
  lemma TableChangeKeepsSafe(s: System, t: System)
    requires Safe(s)
    requires t.requests == s.requests && s.next <= t.next
    requires forall k | k in t.links :: k < t.next
    requires forall k | k in s.links && s.links[k].consumedAt.Some? :: k in t.links && t.links[k] == s.links[k]
    requires forall k | k in t.links && k < s.next ::
               k in s.links && ForPair(t.links[k], s.links[k].app, s.links[k].purpose)
    ensures Safe(t)
  {
    forall r | Holds(t, r) ensures Holds(s, r) {
    }
  }

  lemma ClaimKeepsSafe(s: System, r: nat, now: int)
    requires Safe(s)
    ensures Safe(DoClaim(s, r, now))
  {
    if At(s, r, Validated) {
      var t := DoClaim(s, r, now);
      if Claimable(s.links, s.requests[r].token) {
        forall q | Holds(t, q) && q != r ensures Holds(s, q) && t.requests[q].token != s.requests[r].token {
        }
      } else {
        MoveKeepsSafe(s, t, r, Finished);
      }
    }
  }

  lemma GiveBackKeepsSafe(s: System, r: nat)
    requires Safe(s)
    ensures Safe(DoGiveBack(s, r))
  {
    if At(s, r, GivingBack) {
      assert Holds(s, r);
      var t := DoGiveBack(s, r);
      forall q | Holds(t, q) ensures Holds(s, q) && q != r && t.requests[q].token != s.requests[r].token {
      }
    }
  }

  lemma ArrivalKeepsSafe(s: System, r: nat, kind: Kind, token: nat)
    requires Safe(s)
    ensures Safe(DoArrive(s, r, kind, token))
  {
    var t := DoArrive(s, r, kind, token);
    forall q | Holds(t, q) ensures Holds(s, q) && t.requests[q] == s.requests[q] {
    }
  }

  lemma ValidationKeepsSafe(s: System, r: nat, now: int)
    requires Safe(s)
    ensures Safe(DoValidate(s, r, now))
  {
    if At(s, r, Arrived) {
      var t := DoValidate(s, r, now);
      if t.requests[r].stage == Finished {
        MoveKeepsSafe(s, t, r, Finished);
      } else {
        forall q | Holds(t, q) ensures Holds(s, q) && q != r {
        }
      }
    }
  }

  lemma MovesKeepSafe(s: System, step: Step)
    requires Safe(s)
    requires step.Load? || step.Decide? || step.Count? || step.Act?
    ensures Safe(Take(s, step))
  {
    var t := Take(s, step);
    if t != s {
      var stage := t.requests[step.r].stage;
      if step.Decide? { DecisionIsPlain(s.requests[step.r].kind, s.requests[step.r].stage.file); }
      MoveKeepsSafe(s, t, step.r, stage);
    }
  }

  lemma TableStepsKeepSafe(s: System, step: Step)
    requires Safe(s)
    requires step.Supersede? || step.Create? || step.Purge? || step.Workflow? || step.Open?
    ensures Safe(Take(s, step))
  {
    TableChangeKeepsSafe(s, Take(s, step));
  }

  lemma {:induction false} StepKeepsSafe(s: System, step: Step)
    requires Safe(s)
    ensures Safe(Take(s, step))
  {
    match step
    case Arrive(r, kind, token) => ArrivalKeepsSafe(s, r, kind, token);
    case Validate(r, now) => ValidationKeepsSafe(s, r, now);
    case Claim(r, now) => ClaimKeepsSafe(s, r, now);
    case Load(_) => MovesKeepSafe(s, step);
    case Decide(_) => MovesKeepSafe(s, step);
    case Count(_, _) => MovesKeepSafe(s, step);
    case GiveBack(r) => GiveBackKeepsSafe(s, r);
    case Act(_, _) => MovesKeepSafe(s, step);
    case Supersede(_, _, _) => TableStepsKeepSafe(s, step);
    case Create(_, _, _) => TableStepsKeepSafe(s, step);
    case Purge(_) => TableStepsKeepSafe(s, step);
    case Workflow(_, _) => TableStepsKeepSafe(s, step);
    case Open(_, _, _) => TableStepsKeepSafe(s, step);
  }

  /** Whatever the interleaving, no two requests ever hold the same link. */
  lemma {:induction false} AtMostOneHolder(s: System, steps: seq<Step>)
    requires Safe(s)
    ensures Safe(Run(s, steps))
    decreases |steps|
  {
    if steps != [] {
      StepKeepsSafe(s, steps[0]);
      AtMostOneHolder(Take(s, steps[0]), steps[1..]);
    }
  }
}
