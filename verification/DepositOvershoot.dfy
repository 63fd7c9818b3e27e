/**
  The bound of nine plus the number of holders is attained: requests that read the
  same counter below the limit all count, one after the other.
 */
module DepositOvershoot {
  import opened Options
  import opened FiniteSets
  import opened LoanStatus
  import W = LoanWorkflow
  import I = LoanInvariants
  import opened ActionLinks
  import opened LinkProtocol
  import opened DepositAttempts

  /** A file waiting for its deposit to be confirmed, with guesses left. */
  predicate Guessable(f: W.File) {
    && f.status == VerificationDepositSent && f.confirmedAt == None
    && f.amount1.Some? && f.amount2.Some?
    && f.attempts < MAX_DEPOSIT_ATTEMPTS
  }

  predicate GuessesWrong(q: Request, f: W.File) {
    q.kind.ConfirmDeposit? && f.amount1.Some? && f.amount2.Some?
    && !AmountsMatch(q.kind.cents1, q.kind.cents2, f.amount1.value, f.amount2.value)
  }

  /** Request `r` on file `x` has got as far as `stage` with wrong amounts in hand. */
  predicate Wrong(s: System, r: nat, x: nat, stage: Stage) {
    At(s, r, stage) && s.requests[r].app == x && x in s.files && GuessesWrong(s.requests[r], s.files[x])
  }

  function ReadAll(rs: seq<nat>): seq<Step> {
    if rs == [] then [] else [Load(rs[0]), Decide(rs[0])] + ReadAll(rs[1..])
  }

  function CountAll(rs: seq<nat>, now: int): seq<Step> {
    if rs == [] then [] else [Count(rs[0], now)] + CountAll(rs[1..], now)
  }

  lemma LoadedWrong(s: System, r: nat, x: nat)
    requires Wrong(s, r, x, HoldsLink) && Guessable(s.files[x])
    ensures DoDecide(DoLoad(s, r), r) == Moved(s, r, Counting)
  {
    assert DoLoad(s, r).requests == Moved(s, r, Loaded(s.files[x])).requests;
    assert Decision(s.requests[r].kind, s.files[x]) == Counting;
    assert DoDecide(DoLoad(s, r), r).requests == Moved(s, r, Counting).requests;
  }

  lemma ReadOne(s: System, r: nat, x: nat)
    requires Wrong(s, r, x, HoldsLink) && Guessable(s.files[x])
    ensures Run(s, [Load(r), Decide(r)]) == Moved(s, r, Counting)
  {
    TwoSteps(s, Load(r), Decide(r));
    LoadedWrong(s, r, x);
  }

  /** Every holder reads the counter before anyone counts. */
  lemma {:induction false} ReadingAll(s: System, rs: seq<nat>, x: nat)
    requires x in s.files && Guessable(s.files[x]) && NoRepeats(rs)
    requires forall i | 0 <= i < |rs| :: Wrong(s, rs[i], x, HoldsLink)
    ensures var t := Run(s, ReadAll(rs));
            && t.files == s.files && t.failures == s.failures
            && (forall i | 0 <= i < |rs| :: Wrong(t, rs[i], x, Counting))
            && (forall r | r in s.requests && r !in rs :: r in t.requests && t.requests[r] == s.requests[r])
    decreases |rs|
  {
    if rs != [] {
      ReadOne(s, rs[0], x);
      RunConcat(s, [Load(rs[0]), Decide(rs[0])], ReadAll(rs[1..]));
      ReadingAll(Moved(s, rs[0], Counting), rs[1..], x);
    }
  }

  lemma CountingOne(s: System, r: nat, x: nat, now: int)
    requires Wrong(s, r, x, Counting) && Failures(s, x) == s.files[x].attempts
    ensures var t := DoCount(s, r, now);
            && x in t.files && t.files[x].attempts == s.files[x].attempts + 1
            && t.files[x].amount1 == s.files[x].amount1 && t.files[x].amount2 == s.files[x].amount2
            && Failures(t, x) == t.files[x].attempts
            && t.requests == Moved(s, r, GivingBack).requests
  {
    CountingOnlyCounts(s.files[x], now);
  }

  lemma {:induction false} CountingAll(s: System, rs: seq<nat>, x: nat, now: int)
    requires x in s.files && NoRepeats(rs) && Failures(s, x) == s.files[x].attempts
    requires forall i | 0 <= i < |rs| :: Wrong(s, rs[i], x, Counting)
    ensures Failures(Run(s, CountAll(rs, now)), x) == s.files[x].attempts + |rs|
    decreases |rs|
  {
    if rs != [] {
      var t := DoCount(s, rs[0], now);
      CountingOne(s, rs[0], x, now);
      assert CountAll(rs, now)[1..] == CountAll(rs[1..], now);
      forall i | 0 <= i < |rs[1..]| ensures Wrong(t, rs[1..][i], x, Counting) {
        assert Wrong(s, rs[i + 1], x, Counting);
      }
      CountingAll(t, rs[1..], x, now);
    }
  }

  /**
    While guesses are left, any number of requests that hold a link of the file with
    wrong amounts can all be counted; from nine, all but one of them pass the limit.
   */
  lemma {:induction false} LimitIsOvershot(s: System, rs: seq<nat>, x: nat, now: int)
    requires x in s.files && Guessable(s.files[x]) && Failures(s, x) == s.files[x].attempts
    requires NoRepeats(rs) && forall i | 0 <= i < |rs| :: Wrong(s, rs[i], x, HoldsLink)
    ensures Failures(Run(s, ReadAll(rs) + CountAll(rs, now)), x) == s.files[x].attempts + |rs|
  {
    ReadingAll(s, rs, x);
    RunConcat(s, ReadAll(rs), CountAll(rs, now));
    CountingAll(Run(s, ReadAll(rs)), rs, x, now);
  }

  /* ----------------------------------------------- a whole run, from the very start */

  const AT_FAULT := ConfirmDeposit(5, 5)  // the amounts sent are 1 and 2

  /** A file that has just had its deposit sent, and `k` wrong guesses counted on it. */
  predicate Waiting(s: System, x: nat, k: nat) {
    && x in s.files && s.files[x].status == VerificationDepositSent && s.files[x].confirmedAt == None
    && s.files[x].amount1 == Some(1) && s.files[x].amount2 == Some(2)
    && s.files[x].attempts == k && Failures(s, x) == k
  }

  /** Link `t` of file `x` is there to be redeemed at time 0. */
  predicate Redeemable(s: System, x: nat, t: nat) {
    t in s.links && s.links[t] == Link(x, DepositConfirmation, TTL, None, None)
  }

  /** What an admin does to a new file until its deposit has been sent. */
  const UNTIL_DEPOSIT: seq<I.Call> :=
    [ByAdmin(W.MarkAsCalledIn), ByAdmin(W.RecordBankVerified), ByAdmin(W.SendLoanAgreement),
     ByAdmin(W.RecordAgreementSigned), ByAdmin(W.SendVerificationDeposit(1, 2))]

  function ByAdmin(a: W.Action): I.Call {
    I.Call(a, W.Caller(Some(0), true, false), 0)
  }

  function Workflows(x: nat, calls: seq<I.Call>): seq<Step> {
    if calls == [] then [] else [Workflow(x, calls[0])] + Workflows(x, calls[1..])
  }

  lemma {:induction false} WorkflowsRun(s: System, x: nat, calls: seq<I.Call>)
    requires x in s.files && forall i | 0 <= i < |calls| :: !calls[i].action.CountFailedAttempt?
    ensures Run(s, Workflows(x, calls)) == s.(files := s.files[x := I.Final(s.files[x], calls)])
    decreases |calls|
  {
    if calls == [] {
      assert s.files[x := s.files[x]] == s.files;
    } else {
      var t := Take(s, Workflow(x, calls[0]));
      assert Workflows(x, calls)[1..] == Workflows(x, calls[1..]);
      WorkflowsRun(t, x, calls[1..]);
    }
  }

  /** Up to the agreement's being sent. */
  lemma AgreementReached(f: W.File)
    requires f == I.Final(W.NewFile(1.0, 0), UNTIL_DEPOSIT[..3])
    ensures f.status == AgreementSent && f.confirmedAt == None
  {
    var f0, c := W.NewFile(1.0, 0), UNTIL_DEPOSIT;
    var f1 := I.After(f0, c[0]);
    var f2 := I.After(f1, c[1]);
    assert f1.status == BankVerificationPending && f2.status == BankVerificationComplete && f2.confirmedAt == None;
    assert c[..3][1..] == [c[1], c[2]] && [c[1], c[2]][1..] == [c[2]] && [c[2]][1..] == [];
    assert f == I.Final(f1, [c[1], c[2]]) == I.Final(f2, [c[2]]) == I.Final(I.After(f2, c[2]), []);
  }

  /** And then the deposit's. */
  lemma DepositFollows(f: W.File)
    requires f.status == AgreementSent && f.confirmedAt == None
    ensures var g := I.After(I.After(f, ByAdmin(W.RecordAgreementSigned)), ByAdmin(W.SendVerificationDeposit(1, 2)));
            && g.status == VerificationDepositSent && g.confirmedAt == None
            && g.amount1 == Some(1) && g.amount2 == Some(2) && g.attempts == 0
  {
    assert I.After(f, ByAdmin(W.RecordAgreementSigned)) == f.(status := AgreementSigned, updatedAt := 0);
  }

  lemma LastTwoCalls(f: W.File, calls: seq<I.Call>, a: I.Call, b: I.Call, all: seq<I.Call>)
    requires all == calls + [a] + [b]
    ensures I.Final(f, all) == I.After(I.After(I.Final(f, calls), a), b)
  {
    FinalOfOneMore(f, calls, a);
    FinalOfOneMore(f, calls + [a], b);
  }

  lemma DepositReached()
    ensures var f := I.Final(W.NewFile(1.0, 0), UNTIL_DEPOSIT);
            && f.status == VerificationDepositSent && f.confirmedAt == None
            && f.amount1 == Some(1) && f.amount2 == Some(2) && f.attempts == 0
  {
    var early := I.Final(W.NewFile(1.0, 0), UNTIL_DEPOSIT[..3]);
    AgreementReached(early);
    DepositFollows(early);
    LastTwoCalls(W.NewFile(1.0, 0), UNTIL_DEPOSIT[..3], UNTIL_DEPOSIT[3], UNTIL_DEPOSIT[4], UNTIL_DEPOSIT);
  }

  lemma {:induction false} FinalOfOneMore(f: W.File, calls: seq<I.Call>, last: I.Call)
    ensures I.Final(f, calls + [last]) == I.After(I.Final(f, calls), last)
    decreases |calls|
  {
    if calls == [] {
      assert [last][1..] == [] && [] + [last] == [last];
      assert I.Final(f, [last]) == I.Final(I.After(f, last), []);
    } else {
      assert (calls + [last])[1..] == calls[1..] + [last];
      FinalOfOneMore(I.After(f, calls[0]), calls[1..], last);
    }
  }

  function OpenedWithDeposit(x: nat): seq<Step> {
    [Open(x, 1.0, 0)] + Workflows(x, UNTIL_DEPOSIT)
  }

  lemma {:induction false} WorkedOn(s: System, x: nat, f: W.File, calls: seq<I.Call>)
    requires s.files == map[x := f] && forall i | 0 <= i < |calls| :: !calls[i].action.CountFailedAttempt?
    ensures Run(s, Workflows(x, calls)) == s.(files := map[x := I.Final(f, calls)])
  {
    WorkflowsRun(s, x, calls);
    assert s.files[x := I.Final(f, calls)] == map[x := I.Final(f, calls)];
  }

  lemma {:induction false} OpenedAndWorkedOn(s: System, x: nat, calls: seq<I.Call>)
    requires s.files == map[] && forall i | 0 <= i < |calls| :: !calls[i].action.CountFailedAttempt?
    ensures Run(s, [Open(x, 1.0, 0)] + Workflows(x, calls))
            == s.(files := map[x := I.Final(W.NewFile(1.0, 0), calls)])
  {
    var born := Open(x, 1.0, 0);
    RunConcat(s, [born], Workflows(x, calls));
    TwoSteps(s, born, born);
    WorkedOn(Take(s, born), x, W.NewFile(1.0, 0), calls);
  }

  lemma DepositIsSent(x: nat)
    ensures var s := Run(START, OpenedWithDeposit(x));
            && Waiting(s, x, 0)
            && s.links == map[] && s.next == 0 && s.requests == map[] && s.failures == map[]
  {
    OpenedAndWorkedOn(START, x, UNTIL_DEPOSIT);
    DepositReached();
  }

  /** Racing issues: all supersede before any creates. */
  function Superseding(x: nat, m: nat): seq<Step> {
    if m == 0 then [] else [Supersede(x, DepositConfirmation, 0)] + Superseding(x, m - 1)
  }

  function Creating(x: nat, m: nat): seq<Step> {
    if m == 0 then [] else Creating(x, m - 1) + [Create(x, DepositConfirmation, 0)]
  }

  lemma {:induction false} NothingToSupersede(s: System, x: nat, m: nat)
    requires s.links == map[]
    ensures Run(s, Superseding(x, m)) == s
  {
    if m > 0 {
      var steps := Superseding(x, m);
      assert steps[1..] == Superseding(x, m - 1);
      assert Revoked(map[], x, DepositConfirmation, 0) == map[];
      NothingToSupersede(s, x, m - 1);
    }
  }

  lemma {:induction false} LinksAreCreated(s: System, x: nat, m: nat)
    requires s.links == map[] && s.next == 0
    ensures var t := Run(s, Creating(x, m));
            && t == s.(links := t.links, next := m)
            && forall k: nat | k < m :: Redeemable(t, x, k)
  {
    if m > 0 {
      LinksAreCreated(s, x, m - 1);
      var before := Run(s, Creating(x, m - 1));
      var step := Create(x, DepositConfirmation, 0);
      RunConcat(s, Creating(x, m - 1), [step]);
      TwoSteps(before, step, step);
      var t := Run(s, Creating(x, m));
      assert t.links == before.links[m - 1 := Link(x, DepositConfirmation, TTL, None, None)];
      forall k: nat | k < m ensures Redeemable(t, x, k) {
        if k < m - 1 { assert Redeemable(before, x, k); }
      }
    }
  }

  /** Request `r` claims link `t`. */
  function Claiming(r: nat, t: nat): seq<Step> {
    [Arrive(r, AT_FAULT, t), Validate(r, 0), Claim(r, 0)]
  }

  lemma LinkIsClaimed(s: System, x: nat, r: nat, t: nat)
    requires r !in s.requests && Redeemable(s, x, t)
    ensures Run(s, Claiming(r, t))
            == s.(requests := s.requests[r := Request(AT_FAULT, t, x, HoldsLink)],
                  links := s.links[t := s.links[t].(consumedAt := Some(0))],
                  log := s.log + [ClaimedLink(t)])
  {
    ThreeSteps(s, Arrive(r, AT_FAULT, t), Validate(r, 0), Claim(r, 0));
    var s1 := DoArrive(s, r, AT_FAULT, t);
    var s2 := DoValidate(s1, r, 0);
    assert s1.requests == s.requests[r := Request(AT_FAULT, t, 0, Arrived)];
    assert s2.requests == s.requests[r := Request(AT_FAULT, t, x, Validated)];
    assert DoClaim(s2, r, 0).requests == s.requests[r := Request(AT_FAULT, t, x, HoldsLink)];
  }

  /** One whole wrong guess, link handed back. */
  function Guessing(r: nat): seq<Step> {
    Claiming(r, 0) + ReadAll([r]) + CountAll([r], 0) + [GiveBack(r)]
  }

  lemma CountedFacts(s: System, x: nat, k: nat, r: nat)
    requires Waiting(s, x, k) && r in s.requests && s.requests[r] == Request(AT_FAULT, 0, x, Counting)
    ensures var t := DoCount(s, r, 0);
            && Waiting(t, x, k + 1) && t.links == s.links && t.next == s.next
            && t.requests == s.requests[r := Request(AT_FAULT, 0, x, GivingBack)]
  {
    assert I.After(s.files[x], I.Call(W.CountFailedAttempt, BORROWER, 0))
        == s.files[x].(attempts := k + 1, updatedAt := 0);
  }

  lemma ReadFacts(s: System, x: nat, k: nat, r: nat)
    requires Waiting(s, x, k) && k < MAX_DEPOSIT_ATTEMPTS
    requires r in s.requests && s.requests[r] == Request(AT_FAULT, 0, x, HoldsLink)
    ensures Run(s, ReadAll([r])) == s.(requests := s.requests[r := Request(AT_FAULT, 0, x, Counting)])
  {
    assert [r][1..] == [];
    assert ReadAll([r]) == [Load(r), Decide(r)];
    ReadOne(s, r, x);
  }

  lemma GuessRuns(s: System, r: nat)
    ensures var read := Run(Run(s, Claiming(r, 0)), ReadAll([r]));
            Run(s, Guessing(r)) == DoGiveBack(DoCount(read, r, 0), r)
  {
    var start, middle, finish := Claiming(r, 0), ReadAll([r]), [Count(r, 0), GiveBack(r)];
    assert CountAll([r], 0) == [Count(r, 0)] by { assert [r][1..] == []; }
    assert Guessing(r) == (start + middle) + finish;
    RunConcat(s, start, middle);
    RunConcat(s, start + middle, finish);
    TwoSteps(Run(s, start + middle), Count(r, 0), GiveBack(r));
  }

  lemma GivenBack(s: System, t: System, x: nat, r: nat)
    requires Redeemable(s, x, 0) && t.links == s.links[0 := s.links[0].(consumedAt := Some(0))]
    requires t.requests == s.requests[r := Request(AT_FAULT, 0, x, GivingBack)]
    ensures var u := DoGiveBack(t, r);
            && u.links == s.links && u.next == t.next && u.files == t.files && u.failures == t.failures
            && u.requests.Keys == s.requests.Keys + {r}
  {
  }

  lemma CountedAndHandedBack(s: System, t: System, x: nat, k: nat, r: nat)
    requires Waiting(t, x, k) && Redeemable(s, x, 0) && r !in s.requests
    requires t.links == s.links[0 := s.links[0].(consumedAt := Some(0))] && t.next == s.next
    requires t.requests == s.requests[r := Request(AT_FAULT, 0, x, Counting)]
    ensures var u := DoGiveBack(DoCount(t, r, 0), r);
            && Waiting(u, x, k + 1) && u.links == s.links && u.next == s.next
            && u.requests.Keys == s.requests.Keys + {r}
  {
    CountedFacts(t, x, k, r);
    var c := DoCount(t, r, 0);
    assert c.requests == s.requests[r := Request(AT_FAULT, 0, x, GivingBack)];
    GivenBack(s, c, x, r);
  }

  lemma ClaimedAndRead(s: System, x: nat, k: nat, r: nat)
    requires Waiting(s, x, k) && k < MAX_DEPOSIT_ATTEMPTS && r !in s.requests && Redeemable(s, x, 0)
    ensures Run(Run(s, Claiming(r, 0)), ReadAll([r]))
            == s.(requests := s.requests[r := Request(AT_FAULT, 0, x, Counting)],
                  links := s.links[0 := s.links[0].(consumedAt := Some(0))],
                  log := s.log + [ClaimedLink(0)])
  {
    LinkIsClaimed(s, x, r, 0);
    var claimed := Run(s, Claiming(r, 0));
    ReadFacts(claimed, x, k, r);
    assert claimed.requests[r := Request(AT_FAULT, 0, x, Counting)]
        == s.requests[r := Request(AT_FAULT, 0, x, Counting)];
  }

  /** The link is handed back just as it was, and the count is one higher. */
  lemma GuessIsCounted(s: System, x: nat, k: nat, r: nat)
    requires Waiting(s, x, k) && k < MAX_DEPOSIT_ATTEMPTS && r !in s.requests && Redeemable(s, x, 0)
    ensures var t := Run(s, Guessing(r));
            && Waiting(t, x, k + 1) && t.links == s.links && t.next == s.next
            && t.requests.Keys == s.requests.Keys + {r}
  {
    ClaimedAndRead(s, x, k, r);
    CountedAndHandedBack(s, Run(Run(s, Claiming(r, 0)), ReadAll([r])), x, k, r);
    GuessRuns(s, r);
  }

  /** The system between two guesses of such a series, the next request being number `n`. */
  ghost predicate Between(s: System, t: System, x: nat, n: nat) {
    && Waiting(t, x, n) && t.links == s.links && t.next == s.next
    && forall r | r in t.requests :: r < n
  }

  lemma OneMoreGuess(s: System, t: System, x: nat, n: nat)
    requires Redeemable(s, x, 0) && Between(s, t, x, n) && n < MAX_DEPOSIT_ATTEMPTS
    ensures Between(s, Run(t, Guessing(n)), x, n + 1)
  {
    GuessIsCounted(t, x, n, n);
  }

  function GuessingTimes(n: nat): seq<Step> {
    if n == 0 then [] else GuessingTimes(n - 1) + Guessing(n - 1)
  }

  lemma {:induction false} GuessesAreCounted(s: System, x: nat, n: nat)
    requires Waiting(s, x, 0) && n <= MAX_DEPOSIT_ATTEMPTS && Redeemable(s, x, 0) && s.requests == map[]
    ensures Between(s, Run(s, GuessingTimes(n)), x, n)
  {
    if n > 0 {
      GuessesAreCounted(s, x, n - 1);
      RunConcat(s, GuessingTimes(n - 1), Guessing(n - 1));
      OneMoreGuess(s, Run(s, GuessingTimes(n - 1)), x, n - 1);
    }
  }

  /** Requests `n`, `n + 1`, ... each claim a link of their own. */
  function ClaimingAll(n: nat, m: nat): seq<Step> {
    if m == 0 then [] else ClaimingAll(n, m - 1) + Claiming(n + (m - 1), m - 1)
  }

  function Claimers(n: nat, m: nat): (rs: seq<nat>)
    ensures |rs| == m && forall i | 0 <= i < m :: rs[i] == n + i
  {
    seq(m, i requires 0 <= i < m => n + i)
  }

  /** The requests from `n` on hold links 0 to `m - 1`. */
  ghost predicate AllHold(s: System, x: nat, n: nat, m: nat) {
    forall r: nat | n <= r < n + m :: r in s.requests && s.requests[r] == Request(AT_FAULT, r - n, x, HoldsLink)
  }

  lemma {:induction false} AllClaim(s: System, x: nat, n: nat, m: nat, links: nat)
    requires x in s.files && m <= links
    requires forall r | r in s.requests :: r < n
    requires forall k: nat | k < links :: Redeemable(s, x, k)
    ensures var t := Run(s, ClaimingAll(n, m));
            && t.files == s.files && t.failures == s.failures && AllHold(t, x, n, m)
            && (forall r | r in t.requests :: r < n + m)
            && (forall k: nat | m <= k < links :: Redeemable(t, x, k))
  {
    if m > 0 {
      AllClaim(s, x, n, m - 1, links);
      var before := Run(s, ClaimingAll(n, m - 1));
      LinkIsClaimed(before, x, n + (m - 1), m - 1);
      RunConcat(s, ClaimingAll(n, m - 1), Claiming(n + (m - 1), m - 1));
      OneMoreHolds(before, Run(s, ClaimingAll(n, m)), x, n, m, links);
    }
  }

  lemma OneMoreHolds(s: System, t: System, x: nat, n: nat, m: nat, links: nat)
    requires 0 < m <= links && AllHold(s, x, n, m - 1) && m - 1 in s.links
    requires t.requests == s.requests[n + (m - 1) := Request(AT_FAULT, m - 1, x, HoldsLink)]
    requires t.links == s.links[m - 1 := s.links[m - 1].(consumedAt := Some(0))]
    requires forall k: nat | m - 1 <= k < links :: Redeemable(s, x, k)
    ensures AllHold(t, x, n, m)
    ensures forall k: nat | m <= k < links :: Redeemable(t, x, k)
  {
    forall k: nat | m <= k < links ensures Redeemable(t, x, k) {
      assert Redeemable(s, x, k);
    }
  }

  /* ------------------------------------------------------- no more links than created */

  function Creations(steps: seq<Step>): nat {
    if steps == [] then 0 else (if steps[0].Create? then 1 else 0) + Creations(steps[1..])
  }

  lemma {:induction false} CreationsAdd(a: seq<Step>, b: seq<Step>)
    ensures Creations(a + b) == Creations(a) + Creations(b)
  {
    if a == [] {
      assert a + b == b;
    } else {
      assert (a + b)[1..] == a[1..] + b;
      CreationsAdd(a[1..], b);
    }
  }

  lemma {:induction false} NoCreations(steps: seq<Step>)
    requires forall i | 0 <= i < |steps| :: !steps[i].Create?
    ensures Creations(steps) == 0
  {
    if steps != [] { NoCreations(steps[1..]); }
  }

  lemma {:induction false} BelowIsSmall(ts: set<nat>, n: nat)
    requires forall t | t in ts :: t < n
    ensures |ts| <= n
  {
    if n > 0 {
      BelowIsSmall(ts - {n - 1}, n - 1);
      if n - 1 in ts {
        assert |ts - {n - 1}| == |ts| - 1;
      } else {
        assert ts - {n - 1} == ts;
      }
    }
  }

  lemma LinksAreNumbered(s: System, x: nat)
    requires Safe(s)
    ensures |DepositLinks(s, x)| <= s.next
  {
    BelowIsSmall(DepositLinks(s, x), s.next);
  }

  lemma StepCreates(s: System, step: Step)
    ensures Take(s, step).next == s.next + (if step.Create? then 1 else 0)
  {
  }

  lemma {:induction false} CreationsBoundLinks(s: System, steps: seq<Step>, x: nat, n: nat)
    requires Safe(s) && s.next + Creations(steps) <= n
    ensures NeverMoreLinks(s, steps, x, n)
    decreases |steps|
  {
    LinksAreNumbered(s, x);
    if steps != [] {
      StepKeepsSafe(s, steps[0]);
      StepCreates(s, steps[0]);
      CreationsBoundLinks(Take(s, steps[0]), steps[1..], x, n);
    }
  }

  /* -------------------------------------------------------------- the whole witness */

  function SetUp(x: nat, m: nat): seq<Step> {
    OpenedWithDeposit(x) + (Superseding(x, m) + Creating(x, m))
  }

  /** `n` guesses through the first link, then `m` requests through the `m` links at once. */
  function Overshooting(x: nat, n: nat, m: nat): seq<Step> {
    SetUp(x, m) + (GuessingTimes(n) + (ClaimingAll(n, m) + (ReadAll(Claimers(n, m)) + CountAll(Claimers(n, m), 0))))
  }

  lemma SetUpWorks(x: nat, m: nat)
    ensures var s := Run(START, SetUp(x, m));
            && Waiting(s, x, 0) && s.requests == map[] && s.next == m
            && forall k: nat | k < m :: Redeemable(s, x, k)
  {
    var s := Run(START, OpenedWithDeposit(x));
    DepositIsSent(x);
    NothingToSupersede(s, x, m);
    LinksAreCreated(s, x, m);
    RunConcat(s, Superseding(x, m), Creating(x, m));
    RunConcat(START, OpenedWithDeposit(x), Superseding(x, m) + Creating(x, m));
  }

  lemma AllCount(s: System, x: nat, n: nat, m: nat)
    requires n < MAX_DEPOSIT_ATTEMPTS && Waiting(s, x, n) && AllHold(s, x, n, m)
    ensures Failures(Run(s, ReadAll(Claimers(n, m)) + CountAll(Claimers(n, m), 0)), x) == n + m
  {
    forall i | 0 <= i < m ensures Wrong(s, Claimers(n, m)[i], x, HoldsLink) {
      assert s.requests[n + i].kind == AT_FAULT;
    }
    LimitIsOvershot(s, Claimers(n, m), x, 0);
  }

  /** The part of the run after the set-up. */
  lemma GuessingOvershoots(s: System, x: nat, n: nat, m: nat)
    requires n < MAX_DEPOSIT_ATTEMPTS && m >= 1
    requires Waiting(s, x, 0) && s.requests == map[] && forall k: nat | k < m :: Redeemable(s, x, k)
    ensures var last := ReadAll(Claimers(n, m)) + CountAll(Claimers(n, m), 0);
            Failures(Run(s, GuessingTimes(n) + (ClaimingAll(n, m) + last)), x) == n + m
  {
    var last := ReadAll(Claimers(n, m)) + CountAll(Claimers(n, m), 0);
    var t := Run(s, GuessingTimes(n));
    GuessesAreCounted(s, x, n);
    forall k: nat | k < m ensures Redeemable(t, x, k) {
      assert Redeemable(s, x, k);
    }
    AllClaim(t, x, n, m, m);
    AllCount(Run(t, ClaimingAll(n, m)), x, n, m);
    RunConcat(t, ClaimingAll(n, m), last);
    RunConcat(s, GuessingTimes(n), ClaimingAll(n, m) + last);
  }

  lemma OvershootingCounts(x: nat, n: nat, m: nat)
    requires n < MAX_DEPOSIT_ATTEMPTS && m >= 1
    ensures Failures(Run(START, Overshooting(x, n, m)), x) == n + m
  {
    var rest := GuessingTimes(n) + (ClaimingAll(n, m) + (ReadAll(Claimers(n, m)) + CountAll(Claimers(n, m), 0)));
    SetUpWorks(x, m);
    RunConcat(START, SetUp(x, m), rest);
    GuessingOvershoots(Run(START, SetUp(x, m)), x, n, m);
  }

  lemma {:induction false} CreatingCreates(x: nat, m: nat)
    ensures Creations(Creating(x, m)) == m && Creations(Superseding(x, m)) == 0
  {
    if m > 0 {
      CreatingCreates(x, m - 1);
      CreationsAdd(Creating(x, m - 1), [Create(x, DepositConfirmation, 0)]);
      CreationsAdd([Supersede(x, DepositConfirmation, 0)], Superseding(x, m - 1));
      assert [Create(x, DepositConfirmation, 0)][1..] == [];
      assert [Supersede(x, DepositConfirmation, 0)][1..] == [];
    }
  }

  lemma {:induction false} ReadingCreatesNothing(rs: seq<nat>)
    ensures Creations(ReadAll(rs)) == 0 && Creations(CountAll(rs, 0)) == 0
  {
    if rs != [] {
      ReadingCreatesNothing(rs[1..]);
      CreationsAdd([Load(rs[0]), Decide(rs[0])], ReadAll(rs[1..]));
      CreationsAdd([Count(rs[0], 0)], CountAll(rs[1..], 0));
      NoCreations([Load(rs[0]), Decide(rs[0])]);
      NoCreations([Count(rs[0], 0)]);
    }
  }

  lemma {:induction false} ClaimingCreatesNothing(n: nat, m: nat)
    ensures Creations(ClaimingAll(n, m)) == 0
  {
    if m > 0 {
      ClaimingCreatesNothing(n, m - 1);
      CreationsAdd(ClaimingAll(n, m - 1), Claiming(n + (m - 1), m - 1));
      NoCreations(Claiming(n + (m - 1), m - 1));
    }
  }

  lemma {:induction false} WorkflowsCreateNothing(x: nat, calls: seq<I.Call>)
    ensures Creations(Workflows(x, calls)) == 0
  {
    if calls != [] {
      WorkflowsCreateNothing(x, calls[1..]);
      assert Workflows(x, calls)[1..] == Workflows(x, calls[1..]);
    }
  }

  lemma {:induction false} GuessingCreatesNothing(n: nat)
    ensures Creations(GuessingTimes(n)) == 0
  {
    if n > 0 {
      var r := n - 1;
      GuessingCreatesNothing(r);
      CreationsAdd(GuessingTimes(r), Guessing(r));
      CreationsAdd(Claiming(r, 0) + ReadAll([r]) + CountAll([r], 0), [GiveBack(r)]);
      CreationsAdd(Claiming(r, 0) + ReadAll([r]), CountAll([r], 0));
      CreationsAdd(Claiming(r, 0), ReadAll([r]));
      ReadingCreatesNothing([r]);
      NoCreations(Claiming(r, 0));
      NoCreations([GiveBack(r)]);
    }
  }

  lemma SetUpCreates(x: nat, m: nat)
    ensures Creations(SetUp(x, m)) == m
  {
    CreationsAdd(OpenedWithDeposit(x), Superseding(x, m) + Creating(x, m));
    CreationsAdd(Superseding(x, m), Creating(x, m));
    CreationsAdd([Open(x, 1.0, 0)], Workflows(x, UNTIL_DEPOSIT));
    NoCreations([Open(x, 1.0, 0)]);
    WorkflowsCreateNothing(x, UNTIL_DEPOSIT);
    CreatingCreates(x, m);
  }

  lemma OvershootingCreates(x: nat, n: nat, m: nat)
    ensures Creations(Overshooting(x, n, m)) == m
  {
    var last := ReadAll(Claimers(n, m)) + CountAll(Claimers(n, m), 0);
    CreationsAdd(SetUp(x, m), GuessingTimes(n) + (ClaimingAll(n, m) + last));
    CreationsAdd(GuessingTimes(n), ClaimingAll(n, m) + last);
    CreationsAdd(ClaimingAll(n, m), last);
    CreationsAdd(ReadAll(Claimers(n, m)), CountAll(Claimers(n, m), 0));
    SetUpCreates(x, m);
    GuessingCreatesNothing(n);
    ClaimingCreatesNothing(n, m);
    ReadingCreatesNothing(Claimers(n, m));
  }

  lemma Attaining(x: nat, n: nat, m: nat) returns (steps: seq<Step>)
    requires n < MAX_DEPOSIT_ATTEMPTS && m >= 1
    ensures NeverMoreHolders(START, steps, x, m) && Failures(Run(START, steps), x) == n + m
  {
    steps := Overshooting(x, n, m);
    OvershootingCounts(x, n, m);
    OvershootingCreates(x, n, m);
    CreationsBoundLinks(START, steps, x, m);
    FewLinksFewHolders(START, steps, x, m);
  }

  /**
    The bound is attained from the very start: for every `m` some run, in which never
    more than `m` requests hold one of the file's deposit links, counts 9 + m wrong guesses.
   */
  lemma BoundIsAttained(x: nat, m: nat)
    requires m >= 1
    ensures exists steps ::
              NeverMoreHolders(START, steps, x, m) && Failures(Run(START, steps), x) == 9 + m
  {
    var steps := Attaining(x, MAX_DEPOSIT_ATTEMPTS - 1, m);
    assert NeverMoreHolders(START, steps, x, m) && Failures(Run(START, steps), x) == 9 + m;
  }
}
