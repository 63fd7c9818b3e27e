/**
  The resolving loop without its round cap: it ends, for every submission time,
  every list of transactional sends and every choice of sequences.

  Each change pushes a send at least a millisecond later, and the k-th earliest
  send never climbs past the k-th rung of a ladder of evenings that no rule can
  push a send beyond: 18:00 on a Tuesday to Saturday, more than three and a half
  hours after the last transactional send.
 */
module DripTermination {
  import opened DripSchedule
  import opened DripSorting
  import opened DripRules

  /** First Tuesday after the local day of `last`. */
  function LadderStart(last: int, zone: int): (d: int)
    ensures (d + 4) % 7 == 2
    ensures LocalDay(last, zone) < d <= LocalDay(last, zone) + 7
  {
    var next := LocalDay(last, zone) + 1;
    next + (5 - next) % 7
  }

  /** Rung `k`: five evenings a week, Tuesday to Saturday, at 18:00 local. */
  function RungDay(k: nat, last: int, zone: int): int {
    LadderStart(last, zone) + 7 * (k / 5) + k % 5
  }

  function Rung(k: nat, last: int, zone: int): int {
    Instant(RungDay(k, last, zone), 18, 0, zone)
  }

  function LadderTotal(n: nat, last: int, zone: int): int {
    if n == 0 then 0 else LadderTotal(n - 1, last, zone) + Rung(n - 1, last, zone)
  }

  function TotalTime(s: seq<Send>): int {
    if s == [] then 0 else TotalTime(s[..|s| - 1]) + s[|s| - 1].at
  }

  /** No send and no transactional event is later than `last`. */
  ghost predicate NoneAfter(s: seq<Send>, c: Setting, last: int) {
    && (forall i | 0 <= i < |s| :: s[i].at <= last)
    && (forall i | 0 <= i < |c.transactional| :: c.transactional[i] <= last)
  }

  /* ------------------------------------------------------- no rule passes a rung */

  /** `t` is a time no rule can push an earlier send beyond. */
  ghost predicate Safe(t: int, c: Setting) {
    && 8 <= LocalHour(t, c.zone) < 21
    && 2 <= Weekday(t, c.zone)
    && forall i | 0 <= i < |c.transactional| :: c.transactional[i] + CONFLICT_WINDOW + CONFLICT_SHIFT <= t
  }

  lemma RungIsSafe(k: nat, c: Setting, last: int)
    requires forall i | 0 <= i < |c.transactional| :: c.transactional[i] <= last
    ensures Safe(Rung(k, last, c.zone), c)
    ensures Rung(k, last, c.zone) > last
  {
    InstantReads(RungDay(k, last, c.zone), 18, 0, c.zone);
    assert (RungDay(k, last, c.zone) + 4) % 7 == 2 + k % 5;
  }

  lemma RungsAreSpaced(k: nat, last: int, zone: int)
    ensures Rung(k + 1, last, zone) - Rung(k, last, zone) >= MIN_GAP
  {
    assert RungDay(k + 1, last, zone) >= RungDay(k, last, zone) + 1;
  }

  lemma WeekendStaysBelow(s: Send, c: Setting, t: int)
    requires Safe(t, c) && s.at <= t
    ensures s.at <= WeekendRule(s, c).at <= t
  {
    if s.slot.isFinal && LandsOnSunday(s.at, c.zone) {
      assert LocalDay(s.at, c.zone) <= LocalDay(t, c.zone);
      assert LocalDay(s.at, c.zone) + 2 <= LocalDay(t, c.zone);
    }
  }

  lemma QuietStaysBelow(s: Send, c: Setting, t: int)
    requires Safe(t, c) && s.at <= t
    ensures s.at <= QuietRule(s, c).at <= t
  {
    if InQuietHours(s.at, c.zone) {
      QuietMovesForward(s.at, c.zone);
      assert LocalDay(s.at, c.zone) <= LocalDay(t, c.zone);
    }
  }

  lemma ConflictStaysBelow(s: Send, c: Setting, t: int)
    requires Safe(t, c) && s.at <= t
    ensures s.at <= ConflictRule(s, c).at <= t
  {
    if ConflictsWithTransactional(s.at, c.transactional) {
      var i :| 0 <= i < |c.transactional| && Near(c.transactional[i], s.at);
      assert c.transactional[i] + CONFLICT_WINDOW + CONFLICT_SHIFT <= t;
    }
  }

  lemma {:induction false} StepRulesStayBelow(s: Send, c: Setting, t: int)
    requires Safe(t, c) && s.at <= t
    ensures s.at <= StepRules(s, c).at <= t
  {
    WeekendStaysBelow(s, c, t);
    QuietStaysBelow(WeekendRule(s, c), c, t);
    ConflictStaysBelow(QuietRule(WeekendRule(s, c), c), c, t);
  }

  /* ---------------------------------------- the k-th earliest is below rung k */

  function CountUpTo(s: seq<Send>, t: int): (n: nat)
    ensures n <= |s|
  {
    if s == [] then 0
    else CountUpTo(s[..|s| - 1], t) + (if s[|s| - 1].at <= t then 1 else 0)
  }

  /** At least k+1 sends sit at or below rung k, for every k. */
  ghost predicate OnLadder(s: seq<Send>, last: int, zone: int) {
    forall k: nat | k < |s| :: CountUpTo(s, Rung(k, last, zone)) > k
  }

  lemma {:induction false} AllBelow(s: seq<Send>, t: int)
    requires forall i | 0 <= i < |s| :: s[i].at <= t
    ensures CountUpTo(s, t) == |s|
  {
    if s != [] { AllBelow(s[..|s| - 1], t); }
  }

  lemma {:induction false} NoneBelow(s: seq<Send>, t: int)
    requires forall i | 0 <= i < |s| :: s[i].at > t
    ensures CountUpTo(s, t) == 0
  {
    if s != [] { NoneBelow(s[..|s| - 1], t); }
  }

  lemma {:induction false} CountOfConcat(a: seq<Send>, b: seq<Send>, t: int)
    ensures CountUpTo(a + b, t) == CountUpTo(a, t) + CountUpTo(b, t)
  {
    if b == [] {
      assert a + b == a;
    } else {
      assert (a + b)[..|a + b| - 1] == a + b[..|b| - 1];
      CountOfConcat(a, b[..|b| - 1], t);
    }
  }

  lemma SortMeasures(s: seq<Send>, t: int)
    ensures CountUpTo(StableSort(s), t) == CountUpTo(s, t)
    ensures TotalTime(StableSort(s)) == TotalTime(s)
  {
    StableSortSorts(s);
    var count, one := (q: seq<Send>) => CountUpTo(q, t), (x: Send) => if x.at <= t then 1 else 0;
    var time, at := (q: seq<Send>) => TotalTime(q), (x: Send) => x.at;
    assert AddsUp(count, one) by {
      forall q ensures AddsLast(count, one, q) {
      }
    }
    assert AddsUp(time, at) by {
      forall q ensures AddsLast(time, at, q) {
      }
    }
    ReorderedTotal(s, StableSort(s), count, one);
    ReorderedTotal(s, StableSort(s), time, at);
  }

  lemma {:induction false} CountGrows(s: seq<Send>, r: seq<Send>, t: int)
    requires |s| == |r|
    requires forall i | 0 <= i < |s| :: s[i].at <= t ==> r[i].at <= t
    ensures CountUpTo(s, t) <= CountUpTo(r, t)
  {
    if s != [] { CountGrows(s[..|s| - 1], r[..|s| - 1], t); }
  }

  lemma SortedBelowRung(s: seq<Send>, k: nat, t: int)
    requires Sorted(s) && k < |s| && CountUpTo(s, t) > k
    ensures s[k].at <= t
  {
    if s[k].at > t {
      assert s == s[..k] + s[k..];
      CountOfConcat(s[..k], s[k..], t);
      NoneBelow(s[k..], t);
    }
  }

  lemma BelowRungCounts(s: seq<Send>, k: nat, t: int)
    requires k < |s|
    requires forall i | 0 <= i <= k :: s[i].at <= t
    ensures CountUpTo(s, t) > k
  {
    assert s == s[..k + 1] + s[k + 1..];
    CountOfConcat(s[..k + 1], s[k + 1..], t);
    AllBelow(s[..k + 1], t);
  }

  lemma {:induction false} RungsGrow(i: nat, k: nat, last: int, zone: int)
    requires i <= k
    ensures Rung(i, last, zone) <= Rung(k, last, zone)
  {
    if i < k {
      RungsGrow(i, k - 1, last, zone);
      RungsAreSpaced(k - 1, last, zone);
    }
  }

  lemma {:induction false} GapPassBelowRungs(s: seq<Send>, k: nat, last: int, zone: int)
    requires k <= |s|
    requires forall i: nat | i < |s| :: s[i].at <= Rung(i, last, zone)
    ensures forall i: nat | i < k :: GapPass(s, k)[i].at <= Rung(i, last, zone)
  {
    if k > 1 {
      GapPassBelowRungs(s, k - 1, last, zone);
      RungsAreSpaced(k - 2, last, zone);
    }
  }

  /** A round keeps the k-th earliest send below rung k. */
  lemma RoundStaysOnLadder(s: seq<Send>, c: Setting, last: int)
    requires forall i | 0 <= i < |c.transactional| :: c.transactional[i] <= last
    requires OnLadder(s, last, c.zone)
    ensures OnLadder(Round(s, c), last, c.zone)
  {
    var r := RulesPass(s, c);
    var t := StableSort(r);
    StableSortSorts(r);
    forall k: nat | k < |s| ensures t[k].at <= Rung(k, last, c.zone) {
      var rung := Rung(k, last, c.zone);
      RungIsSafe(k, c, last);
      forall i | 0 <= i < |s| && s[i].at <= rung ensures r[i].at <= rung {
        StepRulesStayBelow(s[i], c, rung);
      }
      CountGrows(s, r, rung);
      SortMeasures(r, rung);
      SortedBelowRung(t, k, rung);
    }
    GapPassBelowRungs(t, |t|, last, c.zone);
    var g := GapPass(t, |t|);
    forall k: nat | k < |g| ensures CountUpTo(g, Rung(k, last, c.zone)) > k {
      forall i | 0 <= i <= k ensures g[i].at <= Rung(k, last, c.zone) {
        RungsGrow(i, k, last, c.zone);
      }
      BelowRungCounts(g, k, Rung(k, last, c.zone));
    }
  }

  /* ------------------------------------------- every changing round climbs */

  lemma {:induction false} TotalGrows(s: seq<Send>, r: seq<Send>)
    requires |s| == |r|
    requires forall i | 0 <= i < |s| :: r[i].at >= s[i].at
    ensures TotalTime(r) >= TotalTime(s)
    ensures (exists i | 0 <= i < |s| :: r[i].at > s[i].at) ==> TotalTime(r) > TotalTime(s)
  {
    if s != [] { TotalGrows(s[..|s| - 1], r[..|s| - 1]); }
  }

  lemma StepRulesClimb(s: Send, c: Setting)
    ensures StepRules(s, c).at >= s.at
    ensures StepRules(s, c) != s ==> StepRules(s, c).at > s.at
  {
    var w := WeekendRule(s, c);
    if InQuietHours(w.at, c.zone) { QuietMovesForward(w.at, c.zone); }
  }

  lemma {:induction false} GapPassClimbs(s: seq<Send>, k: nat)
    requires k <= |s|
    ensures forall i | 0 <= i < k :: GapPass(s, k)[i].at >= s[i].at
    ensures forall i | 0 <= i < k :: GapPass(s, k)[i] != s[i] ==> GapPass(s, k)[i].at > s[i].at
  {
    if k > 1 { GapPassClimbs(s, k - 1); }
  }

  lemma ChangingRoundClimbs(s: seq<Send>, c: Setting)
    requires RoundChanges(s, c)
    ensures TotalTime(Round(s, c)) > TotalTime(s)
  {
    var r := RulesPass(s, c);
    var t := StableSort(r);
    var g := GapPass(t, |t|);
    forall i | 0 <= i < |s| ensures r[i].at >= s[i].at && (r[i] != s[i] ==> r[i].at > s[i].at) {
      StepRulesClimb(s[i], c);
    }
    TotalGrows(s, r);
    SortMeasures(r, 0);
    GapPassClimbs(t, |t|);
    TotalGrows(t, g);
    if r != s {
      var i :| 0 <= i < |s| && r[i] != s[i];
    } else {
      var i :| 0 <= i < |t| && g[i] != t[i];
    }
  }

  /** The k-th send is at or before the k-th rung. */
  ghost predicate BelowRungs(s: seq<Send>, last: int, zone: int) {
    forall k: nat | k < |s| :: s[k].at <= Rung(k, last, zone)
  }

  lemma {:induction false} LadderBoundsTotal(s: seq<Send>, last: int, zone: int)
    requires BelowRungs(s, last, zone)
    ensures TotalTime(s) <= LadderTotal(|s|, last, zone)
  {
    if s != [] { LadderBoundsTotal(s[..|s| - 1], last, zone); }
  }

  lemma SortedOnLadder(s: seq<Send>, last: int, zone: int)
    requires OnLadder(s, last, zone)
    ensures BelowRungs(StableSort(s), last, zone)
  {
    StableSortSorts(s);
    forall k: nat | k < |s| ensures StableSort(s)[k].at <= Rung(k, last, zone) {
      SortMeasures(s, Rung(k, last, zone));
      SortedBelowRung(StableSort(s), k, Rung(k, last, zone));
    }
  }

  lemma OnLadderBoundsTotal(s: seq<Send>, last: int, zone: int)
    requires OnLadder(s, last, zone)
    ensures TotalTime(s) <= LadderTotal(|s|, last, zone)
  {
    SortedOnLadder(s, last, zone);
    SortMeasures(s, 0);
    LadderBoundsTotal(StableSort(s), last, zone);
  }

  lemma {:induction false} SettlesByTotal(s: seq<Send>, c: Setting, last: int, slack: nat)
    requires forall i | 0 <= i < |c.transactional| :: c.transactional[i] <= last
    requires OnLadder(s, last, c.zone)
    requires LadderTotal(|s|, last, c.zone) - TotalTime(s) <= slack
    ensures SettlesWithin(s, c, slack + 1)
    decreases slack
  {
    if RoundChanges(s, c) {
      RoundStaysOnLadder(s, c, last);
      ChangingRoundClimbs(s, c);
      OnLadderBoundsTotal(Round(s, c), last, c.zone);
      SettlesByTotal(Round(s, c), c, last, slack - 1);
    }
  }

  lemma PlanStartsOnLadder(s: seq<Send>, c: Setting, last: int)
    requires NoneAfter(s, c, last)
    ensures OnLadder(s, last, c.zone)
    ensures TotalTime(s) <= LadderTotal(|s|, last, c.zone)
  {
    forall k: nat | k < |s| ensures CountUpTo(s, Rung(k, last, c.zone)) > k {
      RungIsSafe(k, c, last);
      AllBelow(s, Rung(k, last, c.zone));
    }
    OnLadderBoundsTotal(s, last, c.zone);
  }

  lemma ResolveStaysOnLadder(s: seq<Send>, c: Setting, last: int, rounds: nat)
    requires forall i | 0 <= i < |c.transactional| :: c.transactional[i] <= last
    requires OnLadder(s, last, c.zone)
    ensures OnLadder(Resolve(s, c, rounds), last, c.zone)
  {
    var kept := (t: seq<Send>) => OnLadder(t, last, c.zone);
    forall t, next | kept(t) && IsRound(t, next, c) ensures kept(next) {
      RoundStaysOnLadder(t, c, last);
    }
    assert KeptByRounds(kept, c);
    ResolveKeeps(s, c, rounds, kept);
  }

  /**
    Without the cap the loop always ends on a round that changes nothing, after at
    most as many rounds as the ladder leaves milliseconds to climb, with every rule
    holding and the k-th send at or before the k-th rung.
   */
  lemma {:induction false} UncappedLoopTerminates(s: seq<Send>, c: Setting, last: int, rounds: nat)
    requires NoneAfter(s, c, last)
    requires rounds > LadderTotal(|s|, last, c.zone) - TotalTime(s)
    ensures SettlesWithin(s, c, rounds)
    ensures RulesHold(StableSort(Resolve(s, c, rounds)), c)
    ensures BelowRungs(StableSort(Resolve(s, c, rounds)), last, c.zone)
  {
    PlanStartsOnLadder(s, c, last);
    SettlesByTotal(s, c, last, rounds - 1);
    SettlesMonotone(s, c, rounds, rounds + 1);
    ResolveSettles(s, c, rounds);
    ResolveStaysOnLadder(s, c, last, rounds);
    SortedOnLadder(Resolve(s, c, rounds), last, c.zone);
  }

  lemma {:induction false} LastExists(s: seq<Send>, transactional: seq<int>) returns (last: int)
    ensures forall i | 0 <= i < |s| :: s[i].at <= last
    ensures forall i | 0 <= i < |transactional| :: transactional[i] <= last
  {
    last := 0;
    for i := 0 to |s|
      invariant forall j | 0 <= j < i :: s[j].at <= last
    {
      if s[i].at > last { last := s[i].at; }
    }
    for i := 0 to |transactional|
      invariant forall j | 0 <= j < |s| :: s[j].at <= last
      invariant forall j | 0 <= j < i :: transactional[j] <= last
    {
      if transactional[i] > last { last := transactional[i]; }
    }
  }

  /** For every submission, zone, list of transactional sends and choice of sequences. */
  lemma EveryScheduleSettles(submitted: int, c: Setting, keys: set<SequenceKey>)
    ensures exists rounds: nat :: SettlesWithin(StartingPlan(submitted, c, keys), c, rounds)
  {
    var plan := StartingPlan(submitted, c, keys);
    var last := LastExists(plan, c.transactional);
    PlanStartsOnLadder(plan, c, last);
    UncappedLoopTerminates(plan, c, last, LadderTotal(|plan|, last, c.zone) - TotalTime(plan) + 1);
  }

  /** Even a plan cut off by the cap never promises a send later than its rung. */
  lemma {:induction false} ScheduleStaysOnLadder(submitted: int, c: Setting, keys: set<SequenceKey>, last: int)
    requires NoneAfter(StartingPlan(submitted, c, keys), c, last)
    ensures var plan := Schedule(submitted, c, keys);
            forall k: nat | k < |plan| :: plan[k].at <= Rung(k, last, c.zone)
  {
    var plan := StartingPlan(submitted, c, keys);
    PlanStartsOnLadder(plan, c, last);
    ResolveStaysOnLadder(plan, c, last, MAX_ROUNDS);
    SortedOnLadder(Resolve(plan, c, MAX_ROUNDS), last, c.zone);
  }
}
