/**
  How many links of one file and purpose can be live at once.  Served one call at a
  time the answer is one, and it is the newest; in a race two calls can break it,
  and these are exactly the steps that do.
 */
module LinkUniqueness {
  import opened Options
  import opened ActionLinks
  import opened LinkProtocol
  import opened LoanStatus
  import I = LoanInvariants

  /** The link is live: neither consumed nor superseded (it may still expire). */
  predicate Live(s: System, t: nat) {
    t in s.links && Outstanding(s.links[t])
  }

  ghost predicate SamePair(s: System, t: nat, u: nat) {
    t in s.links && u in s.links && ForPair(s.links[t], s.links[u].app, s.links[u].purpose)
  }

  ghost predicate AtMostOneLive(s: System) {
    forall t, u | Live(s, t) && Live(s, u) && SamePair(s, t, u) :: t == u
  }

  /** Creating beside a live link, or handing back a link beside which another is live. */
  ghost predicate Doubles(s: System, step: Step) {
    match step
    case Create(app, purpose, _) => exists t :: Live(s, t) && ForPair(s.links[t], app, purpose)
    case GiveBack(r) =>
      && At(s, r, GivingBack)
      && s.requests[r].token in s.links && s.links[s.requests[r].token].revokedAt == None
      && exists t :: Live(s, t) && SamePair(s, t, s.requests[r].token)
    case _ => false
  }

  lemma CreateDoublesIff(s: System, app: nat, purpose: Purpose, now: int)
    requires Safe(s) && AtMostOneLive(s)
    ensures AtMostOneLive(DoCreate(s, app, purpose, now)) <==> !Doubles(s, Create(app, purpose, now))
  {
    var t := DoCreate(s, app, purpose, now);
    var made := s.next;
    assert made !in s.links && Live(t, made);
    if u :| Live(s, u) && ForPair(s.links[u], app, purpose) {
      assert Live(t, u) && SamePair(t, u, made) && u != made;
    } else {
      forall u, v | Live(t, u) && Live(t, v) && SamePair(t, u, v) ensures u == v {
        assert u != made ==> Live(s, u);
        assert v != made ==> Live(s, v);
        if u != made && v != made { assert SamePair(s, u, v); }
      }
    }
  }

  lemma GiveBackDoublesIff(s: System, r: nat)
    requires Safe(s) && AtMostOneLive(s) && At(s, r, GivingBack)
    ensures AtMostOneLive(DoGiveBack(s, r)) <==> !Doubles(s, GiveBack(r))
  {
    assert Holds(s, r);
    var token := s.requests[r].token;
    var t := DoGiveBack(s, r);
    forall u | Live(t, u) && u != token ensures Live(s, u) && t.links[u] == s.links[u] {
    }
    if Doubles(s, GiveBack(r)) {
      var u :| Live(s, u) && SamePair(s, u, token);
      assert u != token && Live(t, u) && Live(t, token) && SamePair(t, u, token);
    } else {
      forall u, v | Live(t, u) && Live(t, v) && SamePair(t, u, v) ensures u == v {
        if u != token && v != token {
          assert SamePair(s, u, v);
        } else if u != token {
          assert SamePair(s, u, token);
        } else if v != token {
          assert SamePair(s, v, token);
        }
      }
    }
  }

  lemma ShrinkingKeepsOneLive(s: System, t: System)
    requires AtMostOneLive(s)
    requires forall k | Live(t, k) :: Live(s, k) && t.links[k] == s.links[k]
    ensures AtMostOneLive(t)
  {
    forall u, v | Live(t, u) && Live(t, v) && SamePair(t, u, v) ensures u == v {
      assert SamePair(s, u, v);
    }
  }

  /** Outside those two steps a link that is live was live, and has not changed. */
  lemma LiveWasThere(s: System, step: Step, k: nat)
    requires !step.Create? && !(step.GiveBack? && At(s, step.r, GivingBack))
    requires Live(Take(s, step), k)
    ensures Live(s, k) && Take(s, step).links[k] == s.links[k]
  {
  }

  lemma OtherStepKeepsOneLive(s: System, step: Step)
    requires AtMostOneLive(s)
    requires !step.Create? && !(step.GiveBack? && At(s, step.r, GivingBack))
    ensures AtMostOneLive(Take(s, step))
  {
    var t := Take(s, step);
    forall k | Live(t, k) ensures Live(s, k) && t.links[k] == s.links[k] {
      LiveWasThere(s, step, k);
    }
    ShrinkingKeepsOneLive(s, t);
  }

  /** Every step but those two, and only those two, keeps at most one live link a pair. */
  lemma OneLiveLinkIff(s: System, step: Step)
    requires Safe(s) && AtMostOneLive(s)
    ensures AtMostOneLive(Take(s, step)) <==> !Doubles(s, step)
  {
    if step.Create? {
      CreateDoublesIff(s, step.app, step.purpose, step.now);
    } else if step.GiveBack? && At(s, step.r, GivingBack) {
      GiveBackDoublesIff(s, step.r);
    } else {
      OtherStepKeepsOneLive(s, step);
    }
  }

  /* --------------------------------------------------------- one call at a time */

  /** The newest number among the links of a pair is the only one that can be live. */
  ghost predicate NewestLive(s: System) {
    forall t, u | Live(s, t) && u in s.links && SamePair(s, u, t) :: u <= t
  }

  lemma NewestIsOnly(s: System)
    requires NewestLive(s)
    ensures AtMostOneLive(s)
  {
    forall t, u | Live(s, t) && Live(s, u) && SamePair(s, t, u) ensures t == u {
      assert SamePair(s, u, t);
    }
  }

  /** A service call, carried through without another in between. */
  datatype ServiceCall =
    | IssueLink(app: nat, purpose: Purpose, now: int)
    | Redeem(r: nat, kind: Kind, token: nat, now: int)
    | PurgeLinks(olderThan: int)
    | OtherAction(app: nat, call: I.Call)
    | OpenFile(app: nat, amount: real, now: int)

  /** The call's statements in order; those its branch does not reach are not enabled. */
  function StepsOf(c: ServiceCall): seq<Step> {
    match c
    case IssueLink(app, purpose, now) => [Supersede(app, purpose, now), Create(app, purpose, now)]
    case Redeem(r, kind, token, now) =>
      [Arrive(r, kind, token), Validate(r, now), Claim(r, now), Load(r), Decide(r),
       Count(r, now), GiveBack(r), Act(r, now)]
    case PurgeLinks(olderThan) => [Purge(olderThan)]
    case OtherAction(app, call) => [Workflow(app, call)]
    case OpenFile(app, amount, now) => [Open(app, amount, now)]
  }

  function Serve(s: System, calls: seq<ServiceCall>): System
    decreases |calls|
  {
    if calls == [] then s else Serve(Run(s, StepsOf(calls[0])), calls[1..])
  }

  lemma SupersedingKeepsNewest(s: System, app: nat, purpose: Purpose, now: int)
    requires NewestLive(s)
    ensures var t := Take(s, Supersede(app, purpose, now));
            NewestLive(t) && forall k | Live(t, k) :: !ForPair(t.links[k], app, purpose)
  {
    var t := Take(s, Supersede(app, purpose, now));
    forall k, u | Live(t, k) && u in t.links && SamePair(t, u, k) ensures u <= k {
      assert Live(s, k) && SamePair(s, u, k);
    }
  }

  lemma CreatingKeepsNewest(s: System, app: nat, purpose: Purpose, now: int)
    requires Safe(s) && NewestLive(s)
    requires forall k | Live(s, k) :: !ForPair(s.links[k], app, purpose)
    ensures var t := Take(s, Create(app, purpose, now));
            NewestLive(t) && t.requests == s.requests
            && Live(t, s.next) && ForPair(t.links[s.next], app, purpose)
  {
    var t := Take(s, Create(app, purpose, now));
    forall k, u | Live(t, k) && u in t.links && SamePair(t, u, k) ensures u <= k {
      if k != s.next {
        assert Live(s, k) && u != s.next && SamePair(s, u, k);
      }
    }
  }

  lemma IssueKeepsNewest(s: System, app: nat, purpose: Purpose, now: int)
    requires Safe(s) && NewestLive(s)
    ensures var t := Run(s, StepsOf(IssueLink(app, purpose, now)));
            NewestLive(t) && t.requests == s.requests
            && Live(t, s.next) && ForPair(t.links[s.next], app, purpose)
  {
    var supersede, create := Supersede(app, purpose, now), Create(app, purpose, now);
    TwoSteps(s, supersede, create);
    StepKeepsSafe(s, supersede);
    SupersedingKeepsNewest(s, app, purpose, now);
    CreatingKeepsNewest(Take(s, supersede), app, purpose, now);
  }

  /** Only the redeemed link can differ after a redemption, and only by being consumed. */
  ghost predicate OnlyConsumes(s: System, t: System, token: nat) {
    && t.links.Keys == s.links.Keys
    && (forall k | k in s.links && k != token :: t.links[k] == s.links[k])
    && (token in s.links ==> t.links[token] == s.links[token].(consumedAt := t.links[token].consumedAt))
    && (token in s.links && s.links[token].consumedAt.Some? ==> t.links[token] == s.links[token])
  }

  /** Everything but one link's consumption mark, and request `r`, is as before. */
  ghost predicate OwnStep(s: System, t: System, r: nat, token: nat) {
    && t.links.Keys == s.links.Keys
    && (forall k | k in s.links && k != token :: t.links[k] == s.links[k])
    && (token in s.links ==> t.links[token] == s.links[token].(consumedAt := t.links[token].consumedAt))
    && t.requests.Keys == s.requests.Keys
    && r in s.requests && s.requests[r].token == token && t.requests[r].token == token
    && (forall q | q in s.requests && q != r :: t.requests[q] == s.requests[q])
  }

  predicate StepOf(step: Step, r: nat) {
    match step
    case Validate(q, _) => q == r
    case Claim(q, _) => q == r
    case Load(q) => q == r
    case Decide(q) => q == r
    case Count(q, _) => q == r
    case GiveBack(q) => q == r
    case Act(q, _) => q == r
    case _ => false
  }

  lemma LinkStepIsOwn(s: System, step: Step, r: nat)
    requires r in s.requests && StepOf(step, r) && (step.Validate? || step.Claim?)
    ensures OwnStep(s, Take(s, step), r, s.requests[r].token)
  {
  }

  lemma GiveBackIsOwn(s: System, r: nat)
    requires r in s.requests
    ensures OwnStep(s, DoGiveBack(s, r), r, s.requests[r].token)
  {
  }

  lemma ReadingStepIsOwn(s: System, step: Step, r: nat)
    requires r in s.requests && StepOf(step, r) && (step.Load? || step.Decide?)
    ensures OwnStep(s, Take(s, step), r, s.requests[r].token)
  {
  }

  lemma FileStepIsOwn(s: System, step: Step, r: nat)
    requires r in s.requests && StepOf(step, r) && (step.Count? || step.Act?)
    ensures OwnStep(s, Take(s, step), r, s.requests[r].token)
  {
  }

  lemma FinishedStaysPut(s: System, step: Step, r: nat)
    requires At(s, r, Finished) && StepOf(step, r)
    ensures Take(s, step) == s
  {
  }

  lemma StepIsOwn(s: System, step: Step, r: nat)
    requires r in s.requests && StepOf(step, r)
    ensures OwnStep(s, Take(s, step), r, s.requests[r].token)
    ensures At(s, r, Finished) ==> Take(s, step) == s
  {
    if At(s, r, Finished) {
      FinishedStaysPut(s, step, r);
    } else if step.Load? || step.Decide? {
      ReadingStepIsOwn(s, step, r);
    } else if step.Count? || step.Act? {
      FileStepIsOwn(s, step, r);
    } else if step.GiveBack? {
      GiveBackIsOwn(s, r);
    } else {
      LinkStepIsOwn(s, step, r);
    }
  }

  lemma {:induction false} StepsAreOwn(s: System, steps: seq<Step>, r: nat)
    requires r in s.requests && forall i | 0 <= i < |steps| :: StepOf(steps[i], r)
    ensures OwnStep(s, Run(s, steps), r, s.requests[r].token)
    ensures At(s, r, Finished) ==> Run(s, steps) == s
    decreases |steps|
  {
    if steps != [] {
      StepIsOwn(s, steps[0], r);
      StepsAreOwn(Take(s, steps[0]), steps[1..], r);
    }
  }

  lemma ArrivedAndValidated(s: System, r: nat, kind: Kind, token: nat, now: int)
    requires r !in s.requests
    ensures var t := DoValidate(DoArrive(s, r, kind, token), r, now);
            && t.links == s.links && r in t.requests && t.requests[r].token == token
            && (At(t, r, Finished) || (token in s.links && s.links[token].consumedAt == None))
  {
  }

  lemma OwnStepsOnlyConsume(s: System, steps: seq<Step>, r: nat, token: nat)
    requires r in s.requests && s.requests[r].token == token
    requires forall i | 0 <= i < |steps| :: StepOf(steps[i], r)
    requires At(s, r, Finished) || (token in s.links && s.links[token].consumedAt == None)
    ensures OnlyConsumes(s, Run(s, steps), token)
  {
    StepsAreOwn(s, steps, r);
  }

  lemma RedeemOnlyConsumes(s: System, r: nat, kind: Kind, token: nat, now: int)
    requires r !in s.requests
    ensures OnlyConsumes(s, Run(s, StepsOf(Redeem(r, kind, token, now))), token)
  {
    var first := [Arrive(r, kind, token), Validate(r, now)];
    var rest := [Claim(r, now), Load(r), Decide(r), Count(r, now), GiveBack(r), Act(r, now)];
    assert StepsOf(Redeem(r, kind, token, now)) == first + rest;
    RunConcat(s, first, rest);
    TwoSteps(s, Arrive(r, kind, token), Validate(r, now));
    ArrivedAndValidated(s, r, kind, token, now);
    OwnStepsOnlyConsume(Run(s, first), rest, r, token);
  }

  lemma OnlyConsumesKeepsNewest(s: System, t: System, token: nat)
    requires NewestLive(s) && OnlyConsumes(s, t, token)
    ensures NewestLive(t)
  {
    forall k, u | Live(t, k) && u in t.links && SamePair(t, u, k) ensures u <= k {
      assert k in s.links && u in s.links;
      assert k != token ==> t.links[k] == s.links[k];
      assert u != token ==> t.links[u] == s.links[u];
      assert Live(s, k) && SamePair(s, u, k);
    }
  }

  lemma PurgeKeepsNewest(s: System, olderThan: int)
    requires NewestLive(s)
    ensures NewestLive(Take(s, Purge(olderThan)))
  {
    var t := Take(s, Purge(olderThan));
    forall k, u | Live(t, k) && u in t.links && SamePair(t, u, k) ensures u <= k {
      assert Live(s, k) && SamePair(s, u, k);
    }
  }

  lemma RedeemKeepsNewest(s: System, r: nat, kind: Kind, token: nat, now: int)
    requires NewestLive(s) && r !in s.requests
    ensures NewestLive(Run(s, StepsOf(Redeem(r, kind, token, now))))
  {
    RedeemOnlyConsumes(s, r, kind, token, now);
    OnlyConsumesKeepsNewest(s, Run(s, StepsOf(Redeem(r, kind, token, now))), token);
  }

  lemma OtherCallKeepsNewest(s: System, step: Step)
    requires NewestLive(s) && (step.Workflow? || step.Open?)
    ensures NewestLive(Run(s, [step]))
  {
    TwoSteps(s, step, step);
    OnlyConsumesKeepsNewest(s, Take(s, step), 0);
  }

  lemma CallKeepsNewest(s: System, c: ServiceCall)
    requires Safe(s) && NewestLive(s)
    requires c.Redeem? ==> c.r !in s.requests
    ensures NewestLive(Run(s, StepsOf(c)))
  {
    match c
    case IssueLink(app, purpose, now) => IssueKeepsNewest(s, app, purpose, now);
    case Redeem(r, kind, token, now) => RedeemKeepsNewest(s, r, kind, token, now);
    case PurgeLinks(olderThan) =>
      TwoSteps(s, Purge(olderThan), Purge(olderThan));
      PurgeKeepsNewest(s, olderThan);
    case OtherAction(app, call) => OtherCallKeepsNewest(s, Workflow(app, call));
    case OpenFile(app, amount, now) => OtherCallKeepsNewest(s, Open(app, amount, now));
  }

  /** Each redemption is a request of its own. */
  ghost predicate FreshRequests(s: System, calls: seq<ServiceCall>)
    decreases |calls|
  {
    calls == [] ||
    ((calls[0].Redeem? ==> calls[0].r !in s.requests) && FreshRequests(Run(s, StepsOf(calls[0])), calls[1..]))
  }

  lemma {:induction false} ServedOneByOne(s: System, calls: seq<ServiceCall>)
    requires Safe(s) && NewestLive(s) && FreshRequests(s, calls)
    ensures NewestLive(Serve(s, calls))
    decreases |calls|
  {
    if calls != [] {
      AtMostOneHolder(s, StepsOf(calls[0]));
      CallKeepsNewest(s, calls[0]);
      ServedOneByOne(Run(s, StepsOf(calls[0])), calls[1..]);
    }
  }

  /** When calls do not overlap, a file has at most one live link per purpose, the newest issued. */
  lemma OneLiveLinkWhenServedOneByOne(calls: seq<ServiceCall>)
    requires FreshRequests(START, calls)
    ensures AtMostOneLive(Serve(START, calls)) && NewestLive(Serve(START, calls))
  {
    ServedOneByOne(START, calls);
    NewestIsOnly(Serve(START, calls));
  }

  /* ------------------------------------------------- calls that overlap with care */

  /** Some request holds a link of the pair that has not been superseded. */
  ghost predicate PairHeld(s: System, app: nat, purpose: Purpose) {
    exists r :: Holds(s, r) && s.requests[r].token in s.links
                && ForPair(s.links[s.requests[r].token], app, purpose)
                && s.links[s.requests[r].token].revokedAt == None
  }

  /** The link is live, or may come back to life: nobody superseded it, and it is unused or in someone's hands. */
  ghost predicate MayLive(s: System, t: nat) {
    && t in s.links && s.links[t].revokedAt == None
    && (s.links[t].consumedAt == None || exists r :: Holds(s, r) && s.requests[r].token == t)
  }

  ghost predicate OneMayLive(s: System) {
    forall t, u | MayLive(s, t) && MayLive(s, u) && SamePair(s, t, u) :: t == u
  }

  lemma OneMayLiveIsOneLive(s: System)
    requires OneMayLive(s)
    ensures AtMostOneLive(s)
  {
    forall t, u | Live(s, t) && Live(s, u) && SamePair(s, t, u) ensures t == u {
      assert MayLive(s, t) && MayLive(s, u);
    }
  }

  /** No link that could not live before can live now. */
  lemma FewerMayLive(s: System, t: System)
    requires OneMayLive(s)
    requires forall k | MayLive(t, k) ::
               MayLive(s, k) && t.links[k].app == s.links[k].app && t.links[k].purpose == s.links[k].purpose
    ensures OneMayLive(t)
  {
    forall k, u | MayLive(t, k) && MayLive(t, u) && SamePair(t, k, u) ensures k == u {
      assert SamePair(s, k, u);
    }
  }

  /** A holder held its link before the step, or claims it now. */
  lemma HolderWasThere(s: System, step: Step, r: nat)
    requires Holds(Take(s, step), r)
    ensures r in s.requests && Take(s, step).requests[r].token == s.requests[r].token
    ensures Holds(s, r) || (step.Claim? && step.r == r && Claimable(s.links, s.requests[r].token))
  {
    match step
    case Arrive(_, _, _) =>
    case Validate(_, _) =>
    case Claim(_, _) =>
    case Load(_) =>
    case Decide(_) =>
    case Count(_, _) =>
    case GiveBack(_) =>
    case Act(_, _) =>
    case Supersede(_, _, _) =>
    case Create(_, _, _) =>
    case Purge(_) =>
    case Workflow(_, _) =>
    case Open(_, _, _) =>
  }

  lemma LinkWasThere(s: System, step: Step, k: nat)
    requires !step.Create? && k in Take(s, step).links
    ensures k in s.links && ForPair(Take(s, step).links[k], s.links[k].app, s.links[k].purpose)
    ensures Take(s, step).links[k].revokedAt == None ==> s.links[k].revokedAt == None
  {
  }

  /** Only the request that holds a link can make it unconsumed. */
  lemma GivenBackByHolder(s: System, step: Step, k: nat)
    requires !step.Create? && k in Take(s, step).links && k in s.links
    requires Take(s, step).links[k].consumedAt == None && s.links[k].consumedAt.Some?
    ensures step.GiveBack? && Holds(s, step.r) && s.requests[step.r].token == k
  {
  }

  lemma MightHaveLived(s: System, step: Step, k: nat)
    requires !step.Create? && MayLive(Take(s, step), k)
    ensures MayLive(s, k)
  {
    var t := Take(s, step);
    LinkWasThere(s, step, k);
    if s.links[k].consumedAt.Some? {
      if t.links[k].consumedAt == None {
        GivenBackByHolder(s, step, k);
      } else {
        var r :| Holds(t, r) && t.requests[r].token == k;
        HolderWasThere(s, step, r);
      }
    }
  }

  /** Every step but a creation leaves no more links that may live than there were. */
  lemma StepKeepsOneMayLive(s: System, step: Step)
    requires OneMayLive(s) && !step.Create?
    ensures OneMayLive(Take(s, step))
  {
    var t := Take(s, step);
    forall k | MayLive(t, k)
      ensures MayLive(s, k) && t.links[k].app == s.links[k].app && t.links[k].purpose == s.links[k].purpose
    {
      MightHaveLived(s, step, k);
      LinkWasThere(s, step, k);
    }
    FewerMayLive(s, t);
  }

  /** An issue carried through at once, while nobody holds a link of the pair, leaves only the new one. */
  lemma IssueKeepsOneMayLive(s: System, app: nat, purpose: Purpose, now: int, later: int)
    requires Safe(s) && OneMayLive(s) && !PairHeld(s, app, purpose)
    ensures OneMayLive(Take(Take(s, Supersede(app, purpose, now)), Create(app, purpose, later)))
  {
    var a := Take(s, Supersede(app, purpose, now));
    var t := Take(a, Create(app, purpose, later));
    forall k | MayLive(t, k) && k != s.next
      ensures MayLive(s, k) && t.links[k] == s.links[k] && !ForPair(s.links[k], app, purpose)
    {
      if s.links[k].consumedAt.Some? {
        var r :| Holds(t, r) && t.requests[r].token == k;
        assert Holds(s, r) && s.requests[r].token == k;
      }
    }
    forall k, u | MayLive(t, k) && MayLive(t, u) && SamePair(t, k, u) ensures k == u {
      if k != s.next && u != s.next { assert SamePair(s, k, u); }
    }
  }

  /**
    Any interleaving in which a link is created only right after its pair's links were
    superseded, and not while a request holds one of them.
   */
  ghost predicate Careful(s: System, steps: seq<Step>)
    decreases |steps|
  {
    || steps == []
    || (!steps[0].Create? && Careful(Take(s, steps[0]), steps[1..]))
    || (&& |steps| >= 2 && steps[0].Supersede? && steps[1].Create?
        && steps[1].app == steps[0].app && steps[1].purpose == steps[0].purpose
        && !PairHeld(s, steps[0].app, steps[0].purpose)
        && Careful(Take(Take(s, steps[0]), steps[1]), steps[2..]))
  }

  /** In every state of the run each pair has at most one live link. */
  ghost predicate AlwaysOneLive(s: System, steps: seq<Step>)
    decreases |steps|
  {
    AtMostOneLive(s) && (steps != [] ==> AlwaysOneLive(Take(s, steps[0]), steps[1..]))
  }

  lemma {:induction false} CarefulRunsKeepOneLive(s: System, steps: seq<Step>)
    requires Safe(s) && OneMayLive(s) && Careful(s, steps)
    ensures AlwaysOneLive(s, steps)
    decreases |steps|
  {
    OneMayLiveIsOneLive(s);
    if steps != [] {
      var next := Take(s, steps[0]);
      StepKeepsSafe(s, steps[0]);
      if !steps[0].Create? && Careful(next, steps[1..]) {
        StepKeepsOneMayLive(s, steps[0]);
        CarefulRunsKeepOneLive(next, steps[1..]);
      } else {
        StepKeepsSafe(next, steps[1]);
        StepKeepsOneMayLive(s, steps[0]);
        OneMayLiveIsOneLive(next);
        IssueKeepsOneMayLive(s, steps[0].app, steps[0].purpose, steps[0].now, steps[1].now);
        assert steps[1..][1..] == steps[2..] && steps[1..][0] == steps[1];
        CarefulRunsKeepOneLive(Take(next, steps[1]), steps[2..]);
      }
    }
  }

  /**
    However requests, purges and actions interleave, each file has at most one live
    link per purpose in every state, as long as issues are atomic and none falls
    between a claim of the pair's link and its release.
   */
  lemma OneLiveLinkUnderCare(steps: seq<Step>)
    requires Careful(START, steps)
    ensures AlwaysOneLive(START, steps)
  {
    CarefulRunsKeepOneLive(START, steps);
  }

  /* -------------------------------------------------------------- two live links */

  /** Two issues whose statements interleave leave both their links live. */
  lemma RacingIssuesLeaveTwoLinks(app: nat, purpose: Purpose, now: int)
    ensures var s := Run(START, [Supersede(app, purpose, now), Supersede(app, purpose, now),
                                 Create(app, purpose, now), Create(app, purpose, now)]);
            Live(s, 0) && Live(s, 1) && SamePair(s, 0, 1)
  {
    FourSteps(START, Supersede(app, purpose, now), Supersede(app, purpose, now),
              Create(app, purpose, now), Create(app, purpose, now));
  }

  lemma HeldLinkSurvivesIssue(s: System, r: nat, now: int)
    requires At(s, r, GivingBack)
    requires s.requests[r].token in s.links && s.requests[r].token < s.next
    requires s.links[s.requests[r].token].consumedAt.Some? && s.links[s.requests[r].token].revokedAt == None
    requires ForPair(s.links[s.requests[r].token], s.requests[r].app, PurposeOf(s.requests[r].kind))
    ensures var q := s.requests[r];
            var t := Take(Take(Take(s, Supersede(q.app, PurposeOf(q.kind), now)),
                               Create(q.app, PurposeOf(q.kind), now)), GiveBack(r));
            Live(t, q.token) && Live(t, s.next) && SamePair(t, q.token, s.next)
  {
  }

  /** A link re-issued while the old one is held comes back to life beside the new one. */
  lemma IssueWhileHeldLeavesTwoLinks(s: System, r: nat, now: int)
    requires Safe(s) && At(s, r, GivingBack)
    requires Holds(s, r) && s.links[s.requests[r].token].revokedAt == None
    ensures var q := s.requests[r];
            var t := Run(s, [Supersede(q.app, PurposeOf(q.kind), now), Create(q.app, PurposeOf(q.kind), now),
                             GiveBack(r)]);
            Live(t, q.token) && Live(t, s.next) && SamePair(t, q.token, s.next) && q.token != s.next
  {
    var q := s.requests[r];
    ThreeSteps(s, Supersede(q.app, PurposeOf(q.kind), now), Create(q.app, PurposeOf(q.kind), now), GiveBack(r));
    HeldLinkSurvivesIssue(s, r, now);
  }

  /** A signature attempted too early: the link of a new file is claimed, and about to be handed back. */
  function EarlySignature(app: nat, amount: real): seq<Step> {
    [Open(app, amount, 0), Supersede(app, AgreementSignature, 0), Create(app, AgreementSignature, 0),
     Arrive(0, SignAgreement, 0)]
    + [Validate(0, 0), Claim(0, 0), Load(0), Decide(0)]
  }

  lemma LinkOfNewFile(app: nat, amount: real)
    ensures var s := Run(START, EarlySignature(app, amount)[..4]);
            && s.requests == map[0 := Request(SignAgreement, 0, 0, Arrived)] && s.next == 1
            && s.links == map[0 := Link(app, AgreementSignature, TTL, None, None)]
            && app in s.files && s.files[app].status == PendingCall
  {
    var steps := EarlySignature(app, amount);
    assert steps[..4] == [steps[0], steps[1], steps[2], steps[3]];
    FourSteps(START, steps[0], steps[1], steps[2], steps[3]);
  }

  lemma EarlySignatureIsClaimed(s: System)
    requires s.requests == map[0 := Request(SignAgreement, 0, 0, Arrived)]
    requires 0 in s.links && s.links[0] == Link(s.links[0].app, AgreementSignature, TTL, None, None)
    ensures var t := DoClaim(DoValidate(s, 0, 0), 0, 0);
            && t.requests == map[0 := Request(SignAgreement, 0, s.links[0].app, HoldsLink)]
            && 0 in t.links && t.links[0].revokedAt == None
            && t.files == s.files && t.next == s.next
  {
    var v := DoValidate(s, 0, 0);
    assert v.requests == map[0 := Request(SignAgreement, 0, s.links[0].app, Validated)];
  }

  lemma EarlySignatureIsTurnedAway(s: System, app: nat)
    requires s.requests == map[0 := Request(SignAgreement, 0, app, HoldsLink)]
    requires app in s.files && s.files[app].status == PendingCall
    ensures DoDecide(DoLoad(s, 0), 0)
            == s.(requests := map[0 := Request(SignAgreement, 0, app, GivingBack)])
  {
    var l := DoLoad(s, 0);
    assert l.requests == map[0 := Request(SignAgreement, 0, app, Loaded(s.files[app]))];
    assert Decision(SignAgreement, s.files[app]) == GivingBack;
  }

  lemma EarlySignatureHoldsItsLink(app: nat, amount: real)
    ensures var s := Run(START, EarlySignature(app, amount));
            && At(s, 0, GivingBack) && s.next == 1
            && s.requests[0].app == app && s.requests[0].token == 0 && s.requests[0].kind == SignAgreement
            && 0 in s.links && s.links[0].revokedAt == None
  {
    var steps := EarlySignature(app, amount);
    var s := Run(START, steps[..4]);
    LinkOfNewFile(app, amount);
    EarlySignatureIsClaimed(s);
    EarlySignatureIsTurnedAway(DoClaim(DoValidate(s, 0, 0), 0, 0), app);
    FourSteps(s, Validate(0, 0), Claim(0, 0), Load(0), Decide(0));
    assert steps == steps[..4] + [Validate(0, 0), Claim(0, 0), Load(0), Decide(0)];
    RunConcat(START, steps[..4], [Validate(0, 0), Claim(0, 0), Load(0), Decide(0)]);
  }

  /** So, from the very start, an issue between a claim and its release leaves two live links of one file. */
  lemma {:induction false} IssueDuringRedemptionLeavesTwoLinks(app: nat, amount: real)
    ensures var issue := [Supersede(app, AgreementSignature, 0), Create(app, AgreementSignature, 0)];
            var s := Run(START, EarlySignature(app, amount) + (issue + [GiveBack(0)]));
            Live(s, 0) && Live(s, 1) && SamePair(s, 0, 1)
  {
    var steps := EarlySignature(app, amount);
    EarlySignatureHoldsItsLink(app, amount);
    AtMostOneHolder(START, steps);
    IssueWhileHeldLeavesTwoLinks(Run(START, steps), 0, 0);
    var issue := [Supersede(app, AgreementSignature, 0), Create(app, AgreementSignature, 0)];
    assert issue + [GiveBack(0)] == [issue[0], issue[1], GiveBack(0)];
    RunConcat(START, steps, issue + [GiveBack(0)]);
  }
}
