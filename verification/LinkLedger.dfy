/**
  What the log of a run says about each link: claims and releases alternate, so a
  link authorises at most one completed action; a superseded link stays superseded.
 */
module LinkLedger {
  import opened Options
  import W = LoanWorkflow
  import opened ActionLinks
  import opened LinkProtocol

  /** Claims minus releases of one link. */
  function Balance(log: seq<Event>, token: nat): int {
    if log == [] then 0
    else
      Balance(log[..|log| - 1], token)
      + match log[|log| - 1] {
          case ClaimedLink(k) => if k == token then 1 else 0
          case ReleasedLink(k) => if k == token then -1 else 0
          case ActedOnLink(_) => 0
        }
  }

  function ActionsOn(log: seq<Event>, token: nat): nat {
    if log == [] then 0
    else ActionsOn(log[..|log| - 1], token) + (if log[|log| - 1] == ActedOnLink(token) then 1 else 0)
  }

  function Releases(log: seq<Event>, token: nat): nat {
    if log == [] then 0
    else Releases(log[..|log| - 1], token) + (if log[|log| - 1] == ReleasedLink(token) then 1 else 0)
  }

  function Consumed(links: Links, token: nat): int {
    if token in links && links[token].consumedAt.Some? then 1 else 0
  }

  /** At every moment of the log each link had been claimed once more than released, or equally often. */
  ghost predicate Bracketed(log: seq<Event>) {
    forall n: nat, t: nat | n <= |log| :: 0 <= Balance(log[..n], t) <= 1
  }

  /** The link is in some request's hands. */
  ghost predicate Held(s: System, token: nat) {
    exists r :: Holds(s, r) && s.requests[r].token == token
  }

  ghost predicate BalanceKept(s: System) {
    forall t: nat :: Balance(s.log, t) == Consumed(s.links, t)
  }

  /** A link that was acted on stays consumed, in nobody's hands, and is acted on once. */
  ghost predicate ActionsFinal(s: System) {
    forall t: nat :: ActionsOn(s.log, t) == 0
                  || (ActionsOn(s.log, t) == 1 && Consumed(s.links, t) == 1 && !Held(s, t))
  }

  ghost predicate Ledger(s: System) {
    Safe(s) && Bracketed(s.log) && BalanceKept(s) && ActionsFinal(s)
  }

  lemma Appended(log: seq<Event>, e: Event, t: nat)
    ensures Balance(log + [e], t) == Balance(log, t)
              + match e { case ClaimedLink(k) => if k == t then 1 else 0
                          case ReleasedLink(k) => if k == t then -1 else 0
                          case ActedOnLink(_) => 0 }
    ensures ActionsOn(log + [e], t) == ActionsOn(log, t) + (if e == ActedOnLink(t) then 1 else 0)
  {
    assert (log + [e])[..|log|] == log;
  }

  lemma BracketedAppend(log: seq<Event>, e: Event)
    requires Bracketed(log)
    requires forall t: nat :: 0 <= Balance(log + [e], t) <= 1
    ensures Bracketed(log + [e])
  {
    forall n: nat, t: nat | n <= |log| + 1 ensures 0 <= Balance((log + [e])[..n], t) <= 1 {
      if n <= |log| {
        assert (log + [e])[..n] == log[..n];
        assert 0 <= Balance(log[..n], t) <= 1;
      } else {
        assert (log + [e])[..n] == log + [e];
      }
    }
  }

  /** A step that leaves the log, the holders and what is consumed alone keeps the ledger. */
  lemma QuietStep(s: System, t: System)
    requires Ledger(s) && Safe(t)
    requires t.log == s.log
    requires forall k: nat :: Consumed(t.links, k) == Consumed(s.links, k)
    requires forall k: nat | Held(t, k) :: Held(s, k)
    ensures Ledger(t)
  {
  }

  /** A step that appends `e` about `token`, and changes only that link and who holds it. */
  lemma LoggedStep(s: System, t: System, e: Event, token: nat)
    requires Ledger(s) && Safe(t)
    requires t.log == s.log + [e]
    requires e.token == token
    requires forall k: nat | k != token :: Consumed(t.links, k) == Consumed(s.links, k)
    requires forall k: nat | k != token && Held(t, k) :: Held(s, k)
    requires match e
             case ClaimedLink(_) => Consumed(s.links, token) == 0 && Consumed(t.links, token) == 1
             case ReleasedLink(_) => Consumed(s.links, token) == 1 && Consumed(t.links, token) == 0
                                     && Held(s, token)
             case ActedOnLink(_) => Consumed(s.links, token) == 1 && Consumed(t.links, token) == 1
                                    && Held(s, token) && !Held(t, token)
    ensures Ledger(t)
  {
    forall k: nat
      ensures Balance(t.log, k) == Consumed(t.links, k)
      ensures ActionsOn(t.log, k) == ActionsOn(s.log, k) + (if e == ActedOnLink(k) then 1 else 0)
    {
      Appended(s.log, e, k);
      assert Balance(s.log, k) == Consumed(s.links, k);
    }
    BracketedAppend(s.log, e);
    forall k: nat
      ensures ActionsOn(t.log, k) == 0
           || (ActionsOn(t.log, k) == 1 && Consumed(t.links, k) == 1 && !Held(t, k))
    {
      assert ActionsOn(s.log, k) == 0
          || (ActionsOn(s.log, k) == 1 && Consumed(s.links, k) == 1 && !Held(s, k));
    }
  }

  lemma ConsumedIffHeldFacts(s: System, r: nat)
    requires Safe(s) && Holds(s, r)
    ensures Consumed(s.links, s.requests[r].token) == 1
    ensures Held(s, s.requests[r].token)
    ensures forall q | Holds(s, q) && s.requests[q].token == s.requests[r].token :: q == r
  {
  }

  lemma ClaimKeepsLedger(s: System, r: nat, now: int)
    requires Ledger(s)
    requires At(s, r, Validated) && Claimable(s.links, s.requests[r].token)
    requires Safe(DoClaim(s, r, now))
    ensures Ledger(DoClaim(s, r, now))
  {
    var t := DoClaim(s, r, now);
    var token := s.requests[r].token;
    forall k: nat | k != token && Held(t, k) ensures Held(s, k) {
      var q :| Holds(t, q) && t.requests[q].token == k;
      assert Holds(s, q);
    }
    LoggedStep(s, t, ClaimedLink(token), token);
  }

  lemma GiveBackKeepsLedger(s: System, r: nat)
    requires Ledger(s) && At(s, r, GivingBack)
    requires Safe(DoGiveBack(s, r))
    ensures Ledger(DoGiveBack(s, r))
  {
    var t := DoGiveBack(s, r);
    var token := s.requests[r].token;
    ConsumedIffHeldFacts(s, r);
    forall k: nat | k != token && Held(t, k) ensures Held(s, k) {
      var q :| Holds(t, q) && t.requests[q].token == k;
      assert Holds(s, q);
    }
    LoggedStep(s, t, ReleasedLink(token), token);
  }

  lemma ActKeepsLedger(s: System, r: nat, now: int)
    requires Ledger(s) && At(s, r, Acting)
    requires Safe(DoAct(s, r, now)) && DoAct(s, r, now).log != s.log
    ensures Ledger(DoAct(s, r, now))
  {
    var t := DoAct(s, r, now);
    var token := s.requests[r].token;
    ConsumedIffHeldFacts(s, r);
    forall q | Holds(t, q) ensures Holds(s, q) && q != r && t.requests[q].token == s.requests[q].token {
    }
    LoggedStep(s, t, ActedOnLink(token), token);
  }

  predicate LogsSomething(s: System, step: Step) {
    Take(s, step).log != s.log
  }

  lemma LogGrows(log: seq<Event>)
    ensures forall e: Event :: log + [e] != log
  {
    forall e: Event ensures log + [e] != log {
      assert |log + [e]| == |log| + 1;
    }
  }

  lemma QuietHolders(s: System, step: Step)
    requires !LogsSomething(s, step)
    ensures forall q | Holds(Take(s, step), q) ::
              Holds(s, q) && Take(s, step).requests[q].token == s.requests[q].token
  {
    LogGrows(s.log);
    if step.Decide? && step.r in s.requests && s.requests[step.r].stage.Loaded? {
      DecisionIsPlain(s.requests[step.r].kind, s.requests[step.r].stage.file);
    }
  }

  lemma QuietLinks(s: System, step: Step)
    requires !LogsSomething(s, step) && s.next !in s.links
    ensures forall k: nat :: Consumed(Take(s, step).links, k) == Consumed(s.links, k)
  {
    LogGrows(s.log);
  }

  lemma StepKeepsLedger(s: System, step: Step)
    requires Ledger(s)
    ensures Ledger(Take(s, step))
  {
    StepKeepsSafe(s, step);
    if LogsSomething(s, step) {
      match step
      case Claim(r, now) => ClaimKeepsLedger(s, r, now);
      case GiveBack(r) => GiveBackKeepsLedger(s, r);
      case Act(r, now) => ActKeepsLedger(s, r, now);
    } else {
      QuietHolders(s, step);
      QuietLinks(s, step);
      QuietStep(s, Take(s, step));
    }
  }

  lemma {:induction false} RunKeepsLedger(s: System, steps: seq<Step>)
    requires Ledger(s)
    ensures Ledger(Run(s, steps))
    decreases |steps|
  {
    if steps != [] {
      StepKeepsLedger(s, steps[0]);
      RunKeepsLedger(Take(s, steps[0]), steps[1..]);
    }
  }

  /** Under every interleaving a link completes at most one action. */
  lemma OneActionPerLink(steps: seq<Step>, token: nat)
    ensures ActionsOn(Run(START, steps).log, token) <= 1
  {
    RunKeepsLedger(START, steps);
  }

  lemma {:induction false} BalanceOfQuietStretch(log: seq<Event>, i: nat, j: nat, token: nat)
    requires i <= j <= |log|
    requires forall k | i <= k < j :: log[k] != ClaimedLink(token)
    ensures Balance(log[..i], token) - Balance(log[..j], token)
         == Releases(log[..j], token) - Releases(log[..i], token)
  {
    if i < j {
      BalanceOfQuietStretch(log, i, j - 1, token);
      assert log[..j][..j - 1] == log[..j - 1];
    }
  }

  lemma ClaimsInLog(log: seq<Event>, token: nat, i: nat, j: nat)
    requires Bracketed(log)
    requires i < j < |log| && log[i] == log[j] == ClaimedLink(token)
    requires forall k | i < k < j :: log[k] != ClaimedLink(token)
    ensures Releases(log[..j], token) - Releases(log[..i], token) == 1
  {
    assert log[..i + 1][..i] == log[..i] && log[..j + 1][..j] == log[..j];
    assert 0 <= Balance(log[..i], token) && Balance(log[..i + 1], token) <= 1;
    assert 0 <= Balance(log[..j], token) && Balance(log[..j + 1], token) <= 1;
    BalanceOfQuietStretch(log, i + 1, j, token);
  }

  /** Two successful claims of one link, with no other between them, have exactly one release between them. */
  lemma ClaimsAreSeparatedByOneRelease(steps: seq<Step>, token: nat, i: nat, j: nat)
    requires i < j < |Run(START, steps).log|
    requires Run(START, steps).log[i] == Run(START, steps).log[j] == ClaimedLink(token)
    requires forall k | i < k < j :: Run(START, steps).log[k] != ClaimedLink(token)
    ensures Releases(Run(START, steps).log[..j], token) - Releases(Run(START, steps).log[..i], token) == 1
  {
    RunKeepsLedger(START, steps);
    ClaimsInLog(Run(START, steps).log, token, i, j);
  }

  /* -------------------------------------------------- superseded for good */

  /** Revoked, or no longer in the table and its number never handed out again. */
  ghost predicate Dead(s: System, token: nat) {
    token < s.next && (token in s.links ==> s.links[token].revokedAt.Some?)
  }

  lemma StepKeepsDead(s: System, step: Step, token: nat)
    requires Dead(s, token)
    ensures Dead(Take(s, step), token)
  {
  }

  lemma {:induction false} SupersededForGood(s: System, steps: seq<Step>, token: nat)
    requires Dead(s, token)
    ensures Dead(Run(s, steps), token)
    decreases |steps|
  {
    if steps != [] {
      StepKeepsDead(s, steps[0], token);
      SupersededForGood(Take(s, steps[0]), steps[1..], token);
    }
  }

  lemma StepLogsAtMostOne(s: System, step: Step)
    ensures var t := Take(s, step);
            t.log == s.log || (t.log != [] && t.log[..|t.log| - 1] == s.log)
  {
  }

  lemma StepReleases(s: System, step: Step, token: nat)
    ensures var t := Take(s, step);
            && Releases(t.log, token) >= Releases(s.log, token)
            && (t.log == s.log + [ReleasedLink(token)] ==> Releases(t.log, token) > Releases(s.log, token))
  {
    StepLogsAtMostOne(s, step);
  }

  lemma {:induction false} ReleasesGrow(s: System, steps: seq<Step>, token: nat)
    ensures Releases(Run(s, steps).log, token) >= Releases(s.log, token)
    decreases |steps|
  {
    if steps != [] {
      StepReleases(s, steps[0], token);
      ReleasesGrow(Take(s, steps[0]), steps[1..], token);
    }
  }

  lemma GiveBackKeepsConsumed(s: System, r: nat, token: nat)
    requires Consumed(s.links, token) == 1
    ensures var t := DoGiveBack(s, r);
            t.log == s.log + [ReleasedLink(token)] || (token in t.links && t.links[token] == s.links[token])
  {
  }

  lemma OthersKeepConsumed(s: System, step: Step, token: nat)
    requires Safe(s) && Consumed(s.links, token) == 1 && !step.GiveBack?
    ensures Consumed(Take(s, step).links, token) == 1
    ensures Take(s, step).links[token].consumedAt == s.links[token].consumedAt
  {
  }

  lemma StepKeepsConsumed(s: System, step: Step, token: nat)
    requires Safe(s) && Consumed(s.links, token) == 1
    ensures var t := Take(s, step);
            || (Consumed(t.links, token) == 1 && t.links[token].consumedAt == s.links[token].consumedAt)
            || t.log == s.log + [ReleasedLink(token)]
  {
    if step.GiveBack? {
      GiveBackKeepsConsumed(s, step.r, token);
    } else {
      OthersKeepConsumed(s, step, token);
    }
  }

  /**
    Through any interleaving, purges included, a consumed link stays in the table with
    its mark until it is released, and only a release makes it purgeable.
   */
  lemma {:induction false} ConsumedUntilReleased(s: System, steps: seq<Step>, token: nat)
    requires Safe(s) && Consumed(s.links, token) == 1
    ensures var t := Run(s, steps);
            || (Consumed(t.links, token) == 1 && t.links[token].consumedAt == s.links[token].consumedAt)
            || Releases(t.log, token) > Releases(s.log, token)
    decreases |steps|
  {
    if steps != [] {
      var next := Take(s, steps[0]);
      StepKeepsSafe(s, steps[0]);
      StepKeepsConsumed(s, steps[0], token);
      StepReleases(s, steps[0], token);
      ReleasesGrow(next, steps[1..], token);
      if Consumed(next.links, token) == 1 {
        ConsumedUntilReleased(next, steps[1..], token);
      }
    }
  }

  /* ------------------------------------------- superseded, and acted on all the same */

  /** Whoever names the link has yet to read it, or is done. */
  ghost predicate NobodyHasRead(s: System, token: nat) {
    forall r | r in s.requests && s.requests[r].token == token ::
      s.requests[r].stage == Arrived || s.requests[r].stage == Finished
  }

  /** A superseded link is turned away when it is read. */
  lemma LateReadIsRejected(s: System, r: nat, now: int, token: nat)
    requires Dead(s, token) && NobodyHasRead(s, token)
    ensures NobodyHasRead(DoValidate(s, r, now), token)
  {
  }

  lemma OthersReadNothing(s: System, step: Step, token: nat)
    requires NobodyHasRead(s, token) && !step.Validate?
    ensures NobodyHasRead(Take(s, step), token)
  {
  }

  lemma {:induction false} UnreadStaysUnread(s: System, steps: seq<Step>, token: nat)
    requires Dead(s, token) && NobodyHasRead(s, token)
    ensures NobodyHasRead(Run(s, steps), token)
    decreases |steps|
  {
    if steps != [] {
      var step := steps[0];
      if step.Validate? {
        LateReadIsRejected(s, step.r, step.now, token);
      } else {
        OthersReadNothing(s, step, token);
      }
      StepKeepsDead(s, step, token);
      UnreadStaysUnread(Take(s, step), steps[1..], token);
    }
  }

  /**
    A superseded link that is still unused can come into somebody's hands, in some run,
    if and only if somebody had read it before it was superseded.
   */
  lemma {:induction false} SupersededLinkIsClaimedIff(s: System, token: nat)
    requires Safe(s) && Dead(s, token) && token in s.links && s.links[token].consumedAt == None
    ensures (exists steps :: Held(Run(s, steps), token))
            <==> (exists r :: At(s, r, Validated) && s.requests[r].token == token)
  {
    if r :| At(s, r, Validated) && s.requests[r].token == token {
      TwoSteps(s, Claim(r, 0), Claim(r, 0));
      assert Holds(Run(s, [Claim(r, 0)]), r);
      assert Held(Run(s, [Claim(r, 0)]), token);
    } else {
      forall r | r in s.requests && s.requests[r].token == token
        ensures s.requests[r].stage == Arrived || s.requests[r].stage == Finished
      {
        assert !Holds(s, r) && !At(s, r, Validated);
      }
      assert NobodyHasRead(s, token);
      forall steps ensures !Held(Run(s, steps), token) {
        UnreadStaysUnread(s, steps, token);
      }
    }
  }

  /** A link of a new file is read, superseded by a newer one, and only then claimed. */
  function ReadThenSuperseded(app: nat, amount: real): seq<Step> {
    [Open(app, amount, 0), Create(app, BankVerification, 0), Arrive(0, VerifyAccount, 0), Validate(0, 0)]
    + [Supersede(app, BankVerification, 0), Create(app, BankVerification, 0)]
  }

  lemma ReadLink(app: nat, amount: real)
    ensures var s := Run(START, ReadThenSuperseded(app, amount)[..4]);
            && s.requests == map[0 := Request(VerifyAccount, 0, app, Validated)] && s.next == 1 && s.log == []
            && s.links == map[0 := Link(app, BankVerification, TTL, None, None)]
            && s.files == map[app := W.NewFile(amount, 0)]
  {
    var steps := ReadThenSuperseded(app, amount);
    assert steps[..4] == [steps[0], steps[1], steps[2], steps[3]];
    FourSteps(START, steps[0], steps[1], steps[2], steps[3]);
  }

  lemma SupersededLink(app: nat, amount: real)
    ensures var s := Run(START, ReadThenSuperseded(app, amount));
            && s.requests == map[0 := Request(VerifyAccount, 0, app, Validated)] && s.log == []
            && 0 in s.links && s.links[0] == Link(app, BankVerification, TTL, None, Some(0)) && s.next == 2
            && s.files == map[app := W.NewFile(amount, 0)]
  {
    var steps := ReadThenSuperseded(app, amount);
    var supersede, create := Supersede(app, BankVerification, 0), Create(app, BankVerification, 0);
    ReadLink(app, amount);
    assert steps == steps[..4] + [supersede, create];
    RunConcat(START, steps[..4], [supersede, create]);
    TwoSteps(Run(START, steps[..4]), supersede, create);
  }

  lemma ClaimedFileIsVerified(s: System, app: nat, amount: real)
    requires s.requests == map[0 := Request(VerifyAccount, 0, app, Validated)] && s.log == []
    requires 0 in s.links && s.links[0] == Link(app, BankVerification, TTL, None, Some(0))
    requires s.files == map[app := W.NewFile(amount, 0)]
    ensures var t := DoDecide(DoLoad(DoClaim(s, 0, 0), 0), 0);
            && t.requests == map[0 := Request(VerifyAccount, 0, app, Acting)] && t.log == [ClaimedLink(0)]
            && t.links == s.links[0 := s.links[0].(consumedAt := Some(0))] && t.files == s.files && t.next == s.next
  {
    var c := DoClaim(s, 0, 0);
    assert c.requests == map[0 := Request(VerifyAccount, 0, app, HoldsLink)];
    assert DoLoad(c, 0).requests == map[0 := Request(VerifyAccount, 0, app, Loaded(s.files[app]))];
  }

  lemma VerifiedFile(s: System, app: nat, amount: real)
    requires s.requests == map[0 := Request(VerifyAccount, 0, app, Acting)] && s.log == [ClaimedLink(0)]
    requires s.files == map[app := W.NewFile(amount, 0)]
    ensures var t := DoAct(s, 0, 0);
            && t.links == s.links && t.next == s.next && t.log == [ClaimedLink(0), ActedOnLink(0)]
            && app in t.files && t.files[app].bankVerified
  {
  }

  /** The claim, the look at the file and the action, one after the other. */
  const ACTING_STEPS := [Claim(0, 0), Load(0), Decide(0), Act(0, 0)]

  lemma ActingRuns(s: System)
    ensures Run(s, ACTING_STEPS) == DoAct(DoDecide(DoLoad(DoClaim(s, 0, 0), 0), 0), 0, 0)
  {
    FourSteps(s, Claim(0, 0), Load(0), Decide(0), Act(0, 0));
  }

  lemma ReaderActs(s: System, app: nat, amount: real)
    requires s.requests == map[0 := Request(VerifyAccount, 0, app, Validated)] && s.log == []
    requires 0 in s.links && s.links[0] == Link(app, BankVerification, TTL, None, Some(0))
    requires s.files == map[app := W.NewFile(amount, 0)]
    ensures var t := Run(s, ACTING_STEPS);
            && Dead(t, 0) == Dead(s, 0) && t.log == [ClaimedLink(0), ActedOnLink(0)]
            && app in t.files && t.files[app].bankVerified
  {
    ActingRuns(s);
    ClaimedFileIsVerified(s, app, amount);
    VerifiedFile(DoDecide(DoLoad(DoClaim(s, 0, 0), 0), 0), app, amount);
  }

  /** So an action can be completed through a link that was superseded before it was even claimed. */
  lemma {:induction false} SupersededLinkCanAct(app: nat, amount: real)
    ensures var s := Run(START, ReadThenSuperseded(app, amount));
            var t := Run(START, ReadThenSuperseded(app, amount) + ACTING_STEPS);
            && Dead(s, 0) && s.log == []
            && Dead(t, 0) && t.log == [ClaimedLink(0), ActedOnLink(0)]
            && app in t.files && t.files[app].bankVerified
  {
    SupersededLink(app, amount);
    ReaderActs(Run(START, ReadThenSuperseded(app, amount)), app, amount);
    RunConcat(START, ReadThenSuperseded(app, amount), ACTING_STEPS);
  }
}
