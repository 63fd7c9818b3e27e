/**
  From lists of times back to schedules: with transactional sends more than nine hours
  apart every plan settles within five rounds, so the cap is never what stops the loop.
 */
module DripSparseSchedule {
  import opened DripSchedule
  import opened DripSorting
  import opened DripRules
  import opened DripIntakePlan
  import opened DripSparse

  /* --------------------------------------------------------- a round, on its times */

  lemma LastIsOneOfTimes(a: seq<int>)
    requires a != []
    ensures multiset(a[..|a| - 1]) == multiset(a) - multiset{a[|a| - 1]}
  {
    assert a == a[..|a| - 1] + [a[|a| - 1]];
  }

  lemma LastIsLargest(a: seq<int>, x: int)
    requires Ordered(a) && x in multiset(a)
    ensures a != [] && x <= a[|a| - 1]
  {
  }

  lemma SameLast(a: seq<int>, b: seq<int>)
    requires a != [] && b != [] && Ordered(a) && Ordered(b) && multiset(a) == multiset(b)
    ensures a[|a| - 1] == b[|b| - 1]
    ensures multiset(a[..|a| - 1]) == multiset(b[..|b| - 1])
    ensures Ordered(a[..|a| - 1]) && Ordered(b[..|b| - 1])
  {
    assert a[|a| - 1] in multiset(b) && b[|b| - 1] in multiset(a);
    LastIsLargest(b, a[|a| - 1]);
    LastIsLargest(a, b[|b| - 1]);
    LastIsOneOfTimes(a);
    LastIsOneOfTimes(b);
  }

  lemma {:induction false} OrderedIsUnique(a: seq<int>, b: seq<int>)
    requires Ordered(a) && Ordered(b) && multiset(a) == multiset(b)
    ensures a == b
  {
    assert |a| == |multiset(a)| == |multiset(b)| == |b|;
    if a != [] {
      var n := |a| - 1;
      SameLast(a, b);
      OrderedIsUnique(a[..n], b[..n]);
      assert a == a[..n] + [a[n]] && b == b[..n] + [b[n]];
    }
  }

  lemma SortKeepsTimes(s: seq<Send>)
    ensures multiset(Times(StableSort(s))) == multiset(Times(s))
  {
    StableSortSorts(s);
    ReorderedImage(s, StableSort(s), (x: Send) => x.at, Times(s), Times(StableSort(s)));
  }

  lemma {:induction false} GapPassWalks(s: seq<Send>, k: nat)
    requires k <= |s|
    ensures Times(GapPass(s, k)) == Walk(Times(s)[..k])
  {
    if k > 1 {
      GapPassWalks(s, k - 1);
      assert Times(s)[..k][..k - 1] == Times(s)[..k - 1];
      var before := GapPass(s, k - 1);
      assert Times(before)[k - 2] == before[k - 2].at;
      assert GapRule(before[k - 2], s[k - 1]).at == Max(s[k - 1].at, before[k - 2].at + MIN_GAP);
      assert Times(GapPass(s, k)) == Times(before) + [GapRule(before[k - 2], s[k - 1]).at];
    }
  }

  /** If `u` is an ordered list of the times the step rules leave, the round walks over it. */
  lemma RoundTimes(p: seq<Send>, c: Setting, u: seq<int>)
    requires Ordered(u) && multiset(Times(RulesPass(p, c))) == multiset(u)
    ensures Times(Round(p, c)) == Walk(u)
  {
    var r := RulesPass(p, c);
    var t := StableSort(r);
    SortKeepsTimes(r);
    StableSortSorts(r);
    OrderedIsUnique(Times(t), u);
    GapPassWalks(t, |t|);
    assert Times(t)[..|t|] == Times(t);
  }

  /* -------------------------------------------------------------- finals stay put */

  /** Every final is on or after the day that starts at `m`. */
  ghost predicate FinalsFrom(s: seq<Send>, m: int) {
    forall i | 0 <= i < |s| && s[i].slot.isFinal :: s[i].at >= m
  }

  lemma {:induction false} GapPassKeepsFinals(s: seq<Send>, k: nat, m: int)
    requires k <= |s| && FinalsFrom(s, m)
    ensures FinalsFrom(GapPass(s, k), m)
  {
    if k > 1 { GapPassKeepsFinals(s, k - 1, m); }
  }

  lemma RoundKeepsFinals(p: seq<Send>, c: Setting, m: int)
    requires FinalsFrom(RulesPass(p, c), m)
    ensures FinalsFrom(Round(p, c), m)
  {
    var r := RulesPass(p, c);
    var t := StableSort(r);
    StableSortSorts(r);
    forall i | 0 <= i < |t| && t[i].slot.isFinal ensures t[i].at >= m {
      assert t[i] in multiset(r);
    }
    GapPassKeepsFinals(t, |t|, m);
  }

  /** A day that does not start on a Sunday. */
  ghost predicate Workday(m: int, zone: int) {
    Midnight(m, zone) && !LandsOnSunday(m, zone)
  }

  lemma SameDay(m: int, t: int, zone: int)
    requires Workday(m, zone) && m <= t < m + 86_400_000
    ensures !LandsOnSunday(t, zone)
  {
    assert LocalDay(t, zone) == LocalDay(m, zone);
  }

  /** Off their Sunday, sends are moved by the quiet hours and conflicts only, and never back. */
  lemma StepRulesOnTimes(s: Send, c: Setting)
    requires s.slot.isFinal ==> !LandsOnSunday(s.at, c.zone)
    ensures StepRules(s, c).at == StepTime(s.at, c) >= s.at
    ensures StepRules(s, c).slot == s.slot
  {
    if InQuietHours(s.at, c.zone) { QuietMovesForward(s.at, c.zone); }
  }

  lemma RulesPassTimes(p: seq<Send>, c: Setting, m: int, hi: int)
    requires FinalsFrom(p, m) && Workday(m, c.zone) && hi < m + 86_400_000
    requires forall i | 0 <= i < |p| :: p[i].at <= hi
    ensures Times(RulesPass(p, c)) == Steps(Times(p), c)
    ensures FinalsFrom(RulesPass(p, c), m)
    ensures forall i | 0 <= i < |p| && p[i].slot.isFinal :: !LandsOnSunday(p[i].at, c.zone)
  {
    forall i | 0 <= i < |p|
      ensures RulesPass(p, c)[i].at == StepTime(p[i].at, c) >= p[i].at && RulesPass(p, c)[i].slot == p[i].slot
      ensures p[i].slot.isFinal ==> !LandsOnSunday(p[i].at, c.zone)
    {
      if p[i].slot.isFinal { SameDay(m, p[i].at, c.zone); }
      StepRulesOnTimes(p[i], c);
    }
  }

  /* ------------------------------------------------------------ settling by times */

  lemma CleanTimeObeys(s: Send, c: Setting)
    requires StepTime(s.at, c) == s.at && (s.slot.isFinal ==> !LandsOnSunday(s.at, c.zone))
    ensures Obeys(s, c)
  {
    if InQuietHours(s.at, c.zone) { QuietMovesForward(s.at, c.zone); }
  }

  lemma CleanPlanObeys(p: seq<Send>, c: Setting)
    requires Clean(Times(p), c)
    requires forall i | 0 <= i < |p| && p[i].slot.isFinal :: !LandsOnSunday(p[i].at, c.zone)
    ensures RulesHold(p, c)
  {
    forall i | 0 <= i < |p| ensures Obeys(p[i], c) {
      assert StepTime(Times(p)[i], c) == Times(p)[i];
      CleanTimeObeys(p[i], c);
    }
    forall i | 0 < i < |p| ensures p[i].at - p[i - 1].at >= MIN_GAP {
      assert Times(p)[i] - Times(p)[i - 1] >= MIN_GAP;
    }
    forall i, j | 0 <= i < j < |p| ensures p[j].at - p[i].at >= MIN_GAP {
      SpacedPairwise(p, i, j);
    }
  }

  lemma CleanPlanIsQuiet(p: seq<Send>, c: Setting)
    requires Clean(Times(p), c)
    requires forall i | 0 <= i < |p| && p[i].slot.isFinal :: !LandsOnSunday(p[i].at, c.zone)
    ensures !RoundChanges(p, c)
  {
    CleanPlanObeys(p, c);
    SortedIsFixed(p);
    QuietRoundIffRulesHold(p, c);
  }

  lemma PlanWithin(p: seq<Send>, c: Setting, lo: int, hi: int, k: nat)
    requires Held(c, lo, hi)(Times(p), k)
    ensures Ordered(Times(p)) && Ordered(Steps(Times(p), c))
    ensures forall i | 0 <= i < |p| :: p[i].at <= hi
  {
    forall i | 0 <= i < |p| ensures p[i].at <= hi {
      assert Times(p)[i] <= hi;
    }
  }

  /** A round of the plan is a round of its times, and keeps the finals where they are. */
  lemma RoundByTimes(p: seq<Send>, next: seq<Send>, c: Setting, m: int, lo: int, hi: int, k: nat)
    requires k > 0 && Held(c, lo, hi)(Times(p), k) && next == Round(p, c)
    requires FinalsFrom(p, m) && Workday(m, c.zone) && hi < m + 86_400_000
    ensures Held(c, lo, hi)(Times(next), k - 1) && FinalsFrom(next, m)
  {
    PlanWithin(p, c, lo, hi, k);
    RulesPassTimes(p, c, m, hi);
    RoundTimes(p, c, Steps(Times(p), c));
    ContainedNext(Times(p), c, lo, hi, k);
    RoundKeepsFinals(p, c, m);
  }

  lemma RestingPlanIsQuiet(p: seq<Send>, c: Setting, m: int, lo: int, hi: int)
    requires Held(c, lo, hi)(Times(p), 0)
    requires FinalsFrom(p, m) && Workday(m, c.zone) && hi < m + 86_400_000
    ensures !RoundChanges(p, c)
  {
    PlanWithin(p, c, lo, hi, 0);
    RulesPassTimes(p, c, m, hi);
    CleanPlanIsQuiet(p, c);
  }

  /** Rounds count `good` down, and a plan that is good for nothing more is quiet. */
  ghost predicate LeadsToQuiet(good: (seq<Send>, nat) -> bool, c: Setting) {
    && (forall q, j: nat | good(q, j) :: j == 0 || good(Round(q, c), j - 1))
    && (forall q | good(q, 0) :: !RoundChanges(q, c))
  }

  lemma OneRoundLess(q: seq<Send>, next: seq<Send>, j: nat, good: (seq<Send>, nat) -> bool, c: Setting)
    requires LeadsToQuiet(good, c) && good(q, j) && j > 0 && next == Round(q, c)
    ensures good(next, j - 1)
  {
  }

  lemma OneMoreRound(p: seq<Send>, next: seq<Send>, c: Setting, k: nat)
    requires next == Round(p, c) && SettlesWithin(next, c, k)
    ensures SettlesWithin(p, c, k + 1)
  {
  }

  lemma QuietSettles(p: seq<Send>, c: Setting, good: (seq<Send>, nat) -> bool)
    requires LeadsToQuiet(good, c) && good(p, 0)
    ensures SettlesWithin(p, c, 1)
  {
  }

  lemma {:induction false} CountedDown(p: seq<Send>, c: Setting, k: nat, good: (seq<Send>, nat) -> bool)
    requires good(p, k) && LeadsToQuiet(good, c)
    ensures SettlesWithin(p, c, k + 1)
    decreases k
  {
    if k == 0 {
      QuietSettles(p, c, good);
    } else {
      var next := Round(p, c);
      OneRoundLess(p, next, k, good, c);
      CountedDown(next, c, k - 1, good);
      OneMoreRound(p, next, c, k);
    }
  }

  /** The plan's times stay contained for `j` rounds, and its finals are on their day. */
  ghost function Good(c: Setting, m: int, lo: int, hi: int): (seq<Send>, nat) -> bool {
    (q: seq<Send>, j: nat) => Held(c, lo, hi)(Times(q), j) && FinalsFrom(q, m)
  }

  lemma GoodGoesOn(q: seq<Send>, next: seq<Send>, j: nat, c: Setting, m: int, lo: int, hi: int)
    requires Workday(m, c.zone) && hi < m + 86_400_000
    requires Good(c, m, lo, hi)(q, j) && j > 0 && next == Round(q, c)
    ensures Good(c, m, lo, hi)(next, j - 1)
  {
    RoundByTimes(q, next, c, m, lo, hi, j);
  }

  lemma GoodEndsQuiet(q: seq<Send>, c: Setting, m: int, lo: int, hi: int)
    requires Workday(m, c.zone) && hi < m + 86_400_000
    requires Good(c, m, lo, hi)(q, 0)
    ensures !RoundChanges(q, c)
  {
    RestingPlanIsQuiet(q, c, m, lo, hi);
  }

  lemma SettlesByTimes(p: seq<Send>, c: Setting, m: int, lo: int, hi: int, k: nat)
    requires Workday(m, c.zone) && hi < m + 86_400_000 && Good(c, m, lo, hi)(p, k)
    ensures SettlesWithin(p, c, k + 1)
  {
    var good := Good(c, m, lo, hi);
    forall q, j: nat | good(q, j) ensures j == 0 || good(Round(q, c), j - 1) {
      if j > 0 { GoodGoesOn(q, Round(q, c), j, c, m, lo, hi); }
    }
    forall q | good(q, 0) ensures !RoundChanges(q, c) {
      GoodEndsQuiet(q, c, m, lo, hi);
    }
    assert LeadsToQuiet(good, c);
    CountedDown(p, c, k, good);
  }

  /** A plan whose first round leaves what a round of `base` would leave settles with it. */
  lemma SettlesFromTimes(start: seq<Send>, c: Setting, base: seq<int>, m: int, lo: int, hi: int, k: nat)
    requires k > 0 && Held(c, lo, hi)(base, k)
    requires multiset(Times(RulesPass(start, c))) == multiset(Steps(base, c))
    requires FinalsFrom(RulesPass(start, c), m) && Workday(m, c.zone) && hi < m + 86_400_000
    ensures SettlesWithin(start, c, k + 1)
  {
    var first := Round(start, c);
    FirstIsGood(start, first, c, base, m, lo, hi, k);
    SettlesByTimes(first, c, m, lo, hi, k - 1);
    OneMoreRound(start, first, c, k);
  }

  lemma FirstIsGood(start: seq<Send>, first: seq<Send>, c: Setting, base: seq<int>, m: int, lo: int, hi: int, k: nat)
    requires k > 0 && Held(c, lo, hi)(base, k) && first == Round(start, c)
    requires multiset(Times(RulesPass(start, c))) == multiset(Steps(base, c))
    requires FinalsFrom(RulesPass(start, c), m)
    ensures Good(c, m, lo, hi)(first, k - 1)
  {
    RoundTimes(start, c, Steps(base, c));
    ContainedNext(base, c, lo, hi, k);
    RoundKeepsFinals(start, c, m);
  }

  /* ------------------------------------------------------------------- the grid */

  /** Midnight `days` after the day of submission. */
  function DayStart(submitted: int, zone: int, days: int): int {
    Instant(LocalDay(submitted, zone) + days, 0, 0, zone)
  }

  /** The day the finals go out: the third, or the fourth when that is a Sunday. */
  function FinalDay(submitted: int, zone: int): int {
    if LandsOnSunday(DayStart(submitted, zone, 3), zone) then DayStart(submitted, zone, 4)
    else DayStart(submitted, zone, 3)
  }

  lemma DaysAreDays(submitted: int, zone: int, days: int)
    ensures Midnight(DayStart(submitted, zone, days), zone)
    ensures DayStart(submitted, zone, days + 1) == DayStart(submitted, zone, days) + 86_400_000
    ensures LocalDay(DayStart(submitted, zone, days), zone) == LocalDay(submitted, zone) + days
  {
  }

  lemma FinalDayIsWorkday(submitted: int, zone: int)
    ensures Workday(FinalDay(submitted, zone), zone)
    ensures DayStart(submitted, zone, 3) <= FinalDay(submitted, zone)
  {
    DaysAreDays(submitted, zone, 3);
    DaysAreDays(submitted, zone, 4);
  }

  /** A slot of the grid: the finals on day 3, all others on day 1 or 2. */
  ghost predicate LaterSlot(slot: Slot) {
    DaytimeSlot(slot) && slot.day <= 3 && (slot.isFinal <==> slot.day == 3)
  }

  lemma LaterSlots()
    ensures forall i | 0 <= i < 9 && i != 3 :: LaterSlot(IDEAL_SLOTS[i])
    ensures IDEAL_SLOTS[3] == FIRST_BANK_STEP
  {
  }

  lemma KeptTime(slot: Slot, submitted: int, zone: int)
    requires LaterSlot(slot)
    ensures Kept(slot, submitted, zone).at
            == (if slot.isFinal then FinalDay(submitted, zone) else DayStart(submitted, zone, slot.day))
               + Clock(slot.time.hour, slot.time.minute)
  {
    var d := LocalDay(submitted, zone) + slot.day;
    InstantReads(d, slot.time.hour, slot.time.minute, zone);
    DaysAreDays(submitted, zone, 3);
  }

  /** The first bank step: in the evening of day 0, or at 08:00 on day 1. */
  lemma FirstBankTime(submitted: int, zone: int)
    ensures var at, m := FirstBankSend(submitted, zone).at, DayStart(submitted, zone, 0);
            m + Clock(18, 0) <= at < m + Clock(21, 0) || at == DayStart(submitted, zone, 1) + Clock(8, 0)
  {
  }

  lemma PlannedTimesOfRules(slots: seq<Slot>, submitted: int, c: Setting)
    requires forall i | 0 <= i < |slots| :: slots[i] == FIRST_BANK_STEP || LaterSlot(slots[i])
    ensures var r := RulesPass(IdealSends(slots, submitted, c.zone), c);
            && Times(r) == Steps(Times(PlannedAll(slots, submitted, c.zone)), c)
            && FinalsFrom(r, FinalDay(submitted, c.zone))
  {
    var start := IdealSends(slots, submitted, c.zone);
    var r := RulesPass(start, c);
    forall i | 0 <= i < |slots|
      ensures r[i].at == StepTime(Planned(slots[i], submitted, c.zone).at, c)
      ensures r[i].slot.isFinal ==> r[i].at >= FinalDay(submitted, c.zone)
    {
      PlannedByRules(slots[i], submitted, c);
      if slots[i].isFinal { KeptTime(slots[i], submitted, c.zone); }
    }
  }

  /* ---------------------------------------------------- the blocks, in instants */

  /** A claim about a list of times between two bounds. */
  type Claim = (seq<int>, int, int) -> bool

  ghost function Settles(c: Setting, k: nat): Claim {
    (ts: seq<int>, lo: int, hi: int) => ts != [] && lo <= hi && Held(c, lo, hi)(ts, k)
  }

  /** Named, so that lists are put side by side only where that is meant. */
  ghost predicate Beside(a: seq<int>, b: seq<int>, mid: int, from: int) {
    mid + MIN_GAP <= from
  }

  /** Lists with a gap between their bounds may be put side by side. */
  ghost predicate Joins(claim: Claim) {
    forall a, b, lo, mid, from, hi {:trigger Beside(a, b, mid, from), claim(a, lo, mid), claim(b, from, hi)} |
      Beside(a, b, mid, from) && claim(a, lo, mid) && claim(b, from, hi) :: claim(a + b, lo, hi)
  }

  lemma SettlesJoins(c: Setting, k: nat)
    ensures Joins(Settles(c, k))
  {
    var claim := Settles(c, k);
    forall a, b, lo, mid, from, hi {:trigger Beside(a, b, mid, from), claim(a, lo, mid), claim(b, from, hi)} |
        Beside(a, b, mid, from) && claim(a, lo, mid) && claim(b, from, hi)
      ensures claim(a + b, lo, hi)
    {
      BlocksJoin(a, b, c, lo, mid, from, hi, k);
    }
  }

  lemma TwoJoin(claim: Claim, a: seq<int>, lo: int, mid: int, b: seq<int>, from: int, hi: int)
    requires Joins(claim) && claim(a, lo, mid) && claim(b, from, hi) && mid + MIN_GAP <= from
    ensures claim(a + b, lo, hi)
  {
    assert Beside(a, b, mid, from);
  }

  /** A day on which transactional sends are more than nine hours apart. */
  ghost predicate Usual(m: int, c: Setting) {
    Midnight(m, c.zone) && SpacedBy(c, Clock(9, 0))
  }

  /** `on` is about the clock of the day `d` that starts at `m`; `claim` says the same of its instants. */
  ghost predicate Reads(on: Countdown, claim: Claim, d: Day, m: int, c: Setting, lo: int, hi: int, k: nat) {
    && Clocked(on, d, lo, hi) && Works(d) && EasyMorning(d)
    && d.hit(Clock(14, 30)) == Hit(m, Clock(14, 30), c) && (Hit(m, Clock(14, 30), c) ==> BusyMidday(d))
    && forall us | us != [] && on(us, k) :: claim(Shifted(us, m), m + lo, m + hi)
  }

  lemma SettlingSettles(us: seq<int>, m: int, c: Setting, lo: int, hi: int, k: nat)
    requires us != [] && lo <= hi && Settling(m, c, lo, hi)(us, k)
    ensures Settles(c, k)(Shifted(us, m), m + lo, m + hi)
  {
    assert |Shifted(us, m)| == |us|;
    assert Held(c, m + lo, m + hi)(Shifted(us, m), k);
  }

  lemma SettlingReads(m: int, c: Setting, lo: int, hi: int, k: nat)
    requires Usual(m, c) && lo <= hi
    ensures Reads(Settling(m, c, lo, hi), Settles(c, k), DayOf(m, c), m, c, lo, hi, k)
  {
    SettlingIsClocked(m, c, lo, hi);
    DayWorks(m, c);
    MorningsAreEasy(m, c);
    if Hit(m, Clock(14, 30), c) { MiddayIsBusy(m, c); }
    forall us | us != [] && Settling(m, c, lo, hi)(us, k)
      ensures Settles(c, k)(Shifted(us, m), m + lo, m + hi)
    {
      SettlingSettles(us, m, c, lo, hi, k);
    }
  }

  lemma ReadOff(us: seq<int>, ts: seq<int>, on: Countdown, claim: Claim, d: Day, m: int, c: Setting, lo: int, hi: int,
                k: nat)
    requires Reads(on, claim, d, m, c, lo, hi, k) && us != [] && on(us, k)
    requires |ts| == |us| && forall i | 0 <= i < |us| :: ts[i] == m + us[i]
    ensures claim(ts, m + lo, m + hi)
  {
    assert ts == Shifted(us, m);
  }

  lemma LeftOverAlone(t: int, on: Countdown, claim: Claim, d: Day, m: int, c: Setting, k: nat)
    requires Reads(on, claim, d, m, c, -Clock(6, 0), Clock(12, 0), k) && Pending(t - m) && Need(t - m, d) <= k
    ensures claim([t], m - Clock(6, 0), m + Clock(12, 0))
    ensures Hit(m, Clock(14, 30), c) ==> claim([t, m + Clock(10, 0)], m - Clock(6, 0), m + Clock(12, 0))
  {
    var lo, hi := -Clock(6, 0), Clock(12, 0);
    PendingSettles(t - m, on, d, lo, hi, k);
    ReadOff([t - m], [t], on, claim, d, m, c, lo, hi, k);
    if Hit(m, Clock(14, 30), c) {
      PendingBeforeCall(t - m, on, d, lo, hi, k);
      ReadOff([t - m, Clock(10, 0)], [t, m + Clock(10, 0)], on, claim, d, m, c, lo, hi, k);
    }
  }

  lemma LeftOverAndMorning(t: int, on: Countdown, claim: Claim, d: Day, m: int, c: Setting, k: nat)
    requires Reads(on, claim, d, m, c, -Clock(6, 0), Clock(16, 0), k) && Pending(t - m) && Need(t - m, d) <= k
    requires !Hit(m, Clock(14, 30), c) && k >= 2
    ensures claim([t, m + Clock(10, 0), m + Clock(14, 30)], m - Clock(6, 0), m + Clock(16, 0))
  {
    var lo, hi := -Clock(6, 0), Clock(16, 0);
    PendingBeforeMorning(t - m, AsPlanned, on, d, lo, hi, k);
    ReadOff([t - m, Clock(10, 0), Clock(14, 30)], [t, m + Clock(10, 0), m + Clock(14, 30)],
            on, claim, d, m, c, lo, hi, k);
  }

  lemma MorningAlone(on: Countdown, claim: Claim, d: Day, m: int, c: Setting, k: nat)
    requires Reads(on, claim, d, m, c, Clock(10, 0), Clock(16, 0), k) && !Hit(m, Clock(14, 30), c) && k >= 2
    ensures claim([m + Clock(10, 0), m + Clock(14, 30)], m + Clock(10, 0), m + Clock(16, 0))
  {
    var lo, hi := Clock(10, 0), Clock(16, 0);
    MorningSettles(AsPlanned, on, d, lo, hi, k);
    ReadOff([Clock(10, 0), Clock(14, 30)], [m + Clock(10, 0), m + Clock(14, 30)], on, claim, d, m, c, lo, hi, k);
  }

  lemma StepAlone(on: Countdown, claim: Claim, d: Day, m: int, c: Setting, lo: int, k: nat)
    requires Reads(on, claim, d, m, c, lo, Clock(16, 0), k) && !Hit(m, Clock(14, 30), c) && lo <= Clock(14, 30)
    ensures claim([m + Clock(14, 30)], m + lo, m + Clock(16, 0))
  {
    OneRests(Clock(14, 30), on, d, lo, Clock(16, 0), k);
    ReadOff([Clock(14, 30)], [m + Clock(14, 30)], on, claim, d, m, c, lo, Clock(16, 0), k);
  }

  lemma CallAlone(on: Countdown, claim: Claim, d: Day, m: int, c: Setting, hi: int, k: nat)
    requires Reads(on, claim, d, m, c, Clock(10, 0), hi, k) && k >= 2
    requires hi >= if Hit(m, Clock(14, 30), c) then Clock(12, 0) else Clock(14, 0)
    ensures claim([m + Clock(10, 0)], m + Clock(10, 0), m + hi)
  {
    var lo := Clock(10, 0);
    if Hit(m, Clock(14, 30), c) {
      OneRests(Clock(10, 0), on, d, lo, hi, k);
    } else {
      CallSettles(on, d, lo, hi, k);
    }
    ReadOff([Clock(10, 0)], [m + Clock(10, 0)], on, claim, d, m, c, lo, hi, k);
  }

  /** From 14:30 on, on a day with a transactional send near that time. */
  lemma MiddayOn(on: Countdown, claim: Claim, d: Day, m: int, c: Setting, lo: int, k: nat)
    requires Reads(on, claim, d, m, c, lo, Clock(20, 30), k) && Hit(m, Clock(14, 30), c)
    requires lo <= Clock(14, 30) && k >= 2
    ensures claim([m + Clock(14, 30), m + Clock(18, 0)], m + lo, m + Clock(20, 30))
    ensures claim([m + Clock(14, 30)], m + lo, m + Clock(20, 30))
  {
    var hi := Clock(20, 30);
    MiddayPushes(on, d, lo, hi, k);
    ReadOff([Clock(14, 30), Clock(18, 0)], [m + Clock(14, 30), m + Clock(18, 0)], on, claim, d, m, c, lo, hi, k);
    LastStepPushed(on, d, lo, hi, k);
    ReadOff([Clock(14, 30)], [m + Clock(14, 30)], on, claim, d, m, c, lo, hi, k);
  }

  /** An instant left over for the day of `m`, which finds its place within `k` rounds. */
  ghost predicate LeftOver(t: int, m: int, c: Setting, k: nat) {
    Pending(t - m) && Need(t - m, DayOf(m, c)) <= k
  }

  /** The bank steps of 14:30 and, but for the last day, 18:00. */
  function Afternoon(m: int, last: bool): seq<int> {
    if last then [m + Clock(14, 30)] else [m + Clock(14, 30), m + Clock(18, 0)]
  }

  /** What is claimed of a day's sends when something is near 14:30. */
  ghost predicate HoldsWhenBusy(claim: Claim, m: int, c: Setting, k: nat) {
    && (forall t | LeftOver(t, m, c, k) :: claim([t, m + Clock(10, 0)], m - Clock(6, 0), m + Clock(12, 0)))
    && claim([m + Clock(10, 0)], m + Clock(10, 0), m + Clock(12, 0))
    && (forall last | last in {true, false} ::
          && claim(Afternoon(m, last), m + Clock(14, 30), m + Clock(20, 30))
          && claim(Afternoon(m, last), m + Clock(10, 0), m + Clock(20, 30)))
  }

  /** And when nothing is. */
  ghost predicate HoldsWhenQuiet(claim: Claim, m: int, c: Setting, k: nat) {
    && (forall t | LeftOver(t, m, c, k) ::
          claim([t, m + Clock(10, 0), m + Clock(14, 30)], m - Clock(6, 0), m + Clock(16, 0)))
    && claim([m + Clock(10, 0), m + Clock(14, 30)], m + Clock(10, 0), m + Clock(16, 0))
    && claim([m + Clock(14, 30)], m + Clock(14, 30), m + Clock(16, 0))
    && claim([m + Clock(14, 30)], m + Clock(10, 0), m + Clock(16, 0))
  }

  ghost predicate HoldsOnDay(claim: Claim, m: int, c: Setting, k: nat) {
    && (forall t | LeftOver(t, m, c, k) :: claim([t], m - Clock(6, 0), m + Clock(12, 0)))
    && claim([m + Clock(10, 0)], m + Clock(10, 0), m + Clock(14, 0))
    && if Hit(m, Clock(14, 30), c) then HoldsWhenBusy(claim, m, c, k) else HoldsWhenQuiet(claim, m, c, k)
  }

  ghost predicate HoldsOnDays(claim: Claim, c: Setting, k: nat) {
    forall m | Usual(m, c) :: HoldsOnDay(claim, m, c, k)
  }

  lemma LeftOverSettles(t: int, m: int, c: Setting, k: nat)
    requires Usual(m, c) && LeftOver(t, m, c, k)
    ensures Settles(c, k)([t], m - Clock(6, 0), m + Clock(12, 0))
    ensures Hit(m, Clock(14, 30), c) ==>
              Settles(c, k)([t, m + Clock(10, 0)], m - Clock(6, 0), m + Clock(12, 0))
  {
    var lo, hi := -Clock(6, 0), Clock(12, 0);
    SettlingReads(m, c, lo, hi, k);
    LeftOverAlone(t, Settling(m, c, lo, hi), Settles(c, k), DayOf(m, c), m, c, k);
  }

  lemma LeftOverMorningSettles(t: int, m: int, c: Setting, k: nat)
    requires Usual(m, c) && LeftOver(t, m, c, k) && !Hit(m, Clock(14, 30), c) && k >= 2
    ensures Settles(c, k)([t, m + Clock(10, 0), m + Clock(14, 30)], m - Clock(6, 0), m + Clock(16, 0))
  {
    var lo, hi := -Clock(6, 0), Clock(16, 0);
    SettlingReads(m, c, lo, hi, k);
    LeftOverAndMorning(t, Settling(m, c, lo, hi), Settles(c, k), DayOf(m, c), m, c, k);
  }

  lemma CallSettlesBy(m: int, c: Setting, hi: int, k: nat)
    requires Usual(m, c) && k >= 2 && hi >= if Hit(m, Clock(14, 30), c) then Clock(12, 0) else Clock(14, 0)
    ensures Settles(c, k)([m + Clock(10, 0)], m + Clock(10, 0), m + hi)
  {
    SettlingReads(m, c, Clock(10, 0), hi, k);
    CallAlone(Settling(m, c, Clock(10, 0), hi), Settles(c, k), DayOf(m, c), m, c, hi, k);
  }

  lemma AfternoonSettles(m: int, last: bool, c: Setting, lo: int, k: nat)
    requires Usual(m, c) && Hit(m, Clock(14, 30), c) && lo <= Clock(14, 30) && k >= 2
    ensures Settles(c, k)(Afternoon(m, last), m + lo, m + Clock(20, 30))
  {
    SettlingReads(m, c, lo, Clock(20, 30), k);
    MiddayOn(Settling(m, c, lo, Clock(20, 30)), Settles(c, k), DayOf(m, c), m, c, lo, k);
  }

  lemma StepSettles(m: int, c: Setting, lo: int, k: nat)
    requires Usual(m, c) && !Hit(m, Clock(14, 30), c) && lo <= Clock(14, 30)
    ensures Settles(c, k)([m + Clock(14, 30)], m + lo, m + Clock(16, 0))
  {
    SettlingReads(m, c, lo, Clock(16, 0), k);
    StepAlone(Settling(m, c, lo, Clock(16, 0)), Settles(c, k), DayOf(m, c), m, c, lo, k);
  }

  lemma CallAndStepSettle(m: int, c: Setting, k: nat)
    requires Usual(m, c) && !Hit(m, Clock(14, 30), c) && k >= 2
    ensures Settles(c, k)([m + Clock(10, 0), m + Clock(14, 30)], m + Clock(10, 0), m + Clock(16, 0))
  {
    var lo, hi := Clock(10, 0), Clock(16, 0);
    SettlingReads(m, c, lo, hi, k);
    MorningAlone(Settling(m, c, lo, hi), Settles(c, k), DayOf(m, c), m, c, k);
  }

  lemma SettlesWhenBusy(m: int, c: Setting, k: nat)
    requires Usual(m, c) && Hit(m, Clock(14, 30), c) && k >= 2
    ensures HoldsWhenBusy(Settles(c, k), m, c, k)
  {
    var claim := Settles(c, k);
    forall t | LeftOver(t, m, c, k) ensures claim([t, m + Clock(10, 0)], m - Clock(6, 0), m + Clock(12, 0)) {
      LeftOverSettles(t, m, c, k);
    }
    CallSettlesBy(m, c, Clock(12, 0), k);
    forall last | last in {true, false}
      ensures claim(Afternoon(m, last), m + Clock(14, 30), m + Clock(20, 30))
      ensures claim(Afternoon(m, last), m + Clock(10, 0), m + Clock(20, 30))
    {
      AfternoonSettles(m, last, c, Clock(14, 30), k);
      AfternoonSettles(m, last, c, Clock(10, 0), k);
    }
  }

  lemma SettlesWhenQuiet(m: int, c: Setting, k: nat)
    requires Usual(m, c) && !Hit(m, Clock(14, 30), c) && k >= 2
    ensures HoldsWhenQuiet(Settles(c, k), m, c, k)
  {
    var claim := Settles(c, k);
    forall t | LeftOver(t, m, c, k)
      ensures claim([t, m + Clock(10, 0), m + Clock(14, 30)], m - Clock(6, 0), m + Clock(16, 0))
    {
      LeftOverMorningSettles(t, m, c, k);
    }
    CallAndStepSettle(m, c, k);
    StepSettles(m, c, Clock(14, 30), k);
    StepSettles(m, c, Clock(10, 0), k);
  }

  lemma SettlesOnDay(m: int, c: Setting, k: nat)
    requires Usual(m, c) && k >= 2
    ensures HoldsOnDay(Settles(c, k), m, c, k)
  {
    var claim := Settles(c, k);
    forall t | LeftOver(t, m, c, k) ensures claim([t], m - Clock(6, 0), m + Clock(12, 0)) {
      LeftOverSettles(t, m, c, k);
    }
    CallSettlesBy(m, c, Clock(14, 0), k);
    if Hit(m, Clock(14, 30), c) { SettlesWhenBusy(m, c, k); } else { SettlesWhenQuiet(m, c, k); }
  }

  lemma SettlesOnDays(c: Setting, k: nat)
    requires k >= 2
    ensures HoldsOnDays(Settles(c, k), c, k) && Joins(Settles(c, k))
  {
    forall m | Usual(m, c) ensures HoldsOnDay(Settles(c, k), m, c, k) {
      SettlesOnDay(m, c, k);
    }
    SettlesJoins(c, k);
  }

  /* --------------------------------------------------------------- a day of the grid */

  function MorningOf(m: int, calls: bool): seq<int> {
    (if calls then [m + Clock(10, 0)] else []) + [m + Clock(14, 30)]
  }

  function WholeDay(m: int, calls: bool): seq<int> {
    MorningOf(m, calls) + [m + Clock(18, 0)]
  }

  /**
    After a push at 14:30 the evening's send keeps to its day; without one it may be
    pushed past 21:00, so it counts among the sends of the next.
   */
  function Owed(m: int, c: Setting): seq<int> {
    if Hit(m, Clock(14, 30), c) then [] else [m + Clock(18, 0)]
  }

  function Evening(m: int, c: Setting, last: bool): seq<int> {
    if Hit(m, Clock(14, 30), c) && !last then [m + Clock(18, 0)] else []
  }

  function DayEnd(m: int, c: Setting): int {
    m + if Hit(m, Clock(14, 30), c) then Clock(20, 30) else Clock(16, 0)
  }

  ghost predicate OneLeft(owed: seq<int>, m: int, c: Setting, k: nat) {
    owed == [] || (|owed| == 1 && LeftOver(owed[0], m, c, k))
  }

  function DayBegin(owed: seq<int>, m: int): int {
    m + if owed == [] then Clock(10, 0) else -Clock(6, 0)
  }

  /** Claims that hold on every day, and may be put together. */
  ghost predicate Builds(claim: Claim, c: Setting, k: nat) {
    HoldsOnDays(claim, c, k) && Joins(claim)
  }

  /** What a day holds before 14:30. */
  function BeforeMidday(owed: seq<int>, m: int, calls: bool): seq<int> {
    owed + if calls then [m + Clock(10, 0)] else []
  }

  lemma BusyMorning(owed: seq<int>, m: int, calls: bool, claim: Claim, c: Setting, k: nat)
    requires HoldsOnDay(claim, m, c, k) && OneLeft(owed, m, c, k) && Hit(m, Clock(14, 30), c)
    ensures var first := BeforeMidday(owed, m, calls);
            first != [] ==> claim(first, DayBegin(owed, m), m + Clock(12, 0))
  {
    var first := BeforeMidday(owed, m, calls);
    if owed != [] {
      assert first == if calls then [owed[0], m + Clock(10, 0)] else [owed[0]];
    } else if calls {
      assert first == [m + Clock(10, 0)];
    }
  }

  lemma JoinIfAny(claim: Claim, first: seq<int>, rest: seq<int>, lo: int, mid: int, from: int, hi: int)
    requires Joins(claim) && (if first == [] then claim(rest, lo, hi) else claim(first, lo, mid))
    requires claim(rest, from, hi) && mid + MIN_GAP <= from
    ensures claim(first + rest, lo, hi)
  {
    if first == [] {
      assert first + rest == rest;
    } else {
      TwoJoin(claim, first, lo, mid, rest, from, hi);
    }
  }

  lemma BusyDay(owed: seq<int>, m: int, calls: bool, last: bool, claim: Claim, c: Setting, k: nat)
    requires HoldsOnDay(claim, m, c, k) && Joins(claim) && OneLeft(owed, m, c, k) && Hit(m, Clock(14, 30), c)
    ensures claim(owed + MorningOf(m, calls) + Evening(m, c, last), DayBegin(owed, m), m + Clock(20, 30))
  {
    var rest := Afternoon(m, last);
    var first := BeforeMidday(owed, m, calls);
    BusyMorning(owed, m, calls, claim, c, k);
    JoinIfAny(claim, first, rest, DayBegin(owed, m), m + Clock(12, 0), m + Clock(14, 30), m + Clock(20, 30));
    assert owed + MorningOf(m, calls) + Evening(m, c, last) == first + rest;
  }

  lemma QuietDay(owed: seq<int>, m: int, calls: bool, claim: Claim, c: Setting, k: nat)
    requires HoldsOnDay(claim, m, c, k) && Joins(claim) && OneLeft(owed, m, c, k) && !Hit(m, Clock(14, 30), c)
    ensures claim(owed + MorningOf(m, calls), DayBegin(owed, m), m + Clock(16, 0))
  {
    var ts := owed + MorningOf(m, calls);
    if owed != [] && calls {
      assert ts == [owed[0], m + Clock(10, 0), m + Clock(14, 30)];
    } else if owed != [] {
      TwoJoin(claim, [owed[0]], m - Clock(6, 0), m + Clock(12, 0),
              [m + Clock(14, 30)], m + Clock(14, 30), m + Clock(16, 0));
      assert ts == [owed[0]] + [m + Clock(14, 30)];
    } else {
      assert ts == if calls then [m + Clock(10, 0), m + Clock(14, 30)] else [m + Clock(14, 30)];
    }
  }

  /** A day of the grid, with what was left over for it, settles but for what it leaves over itself. */
  lemma DayBuilds(owed: seq<int>, m: int, calls: bool, last: bool, claim: Claim, c: Setting, k: nat)
    requires Usual(m, c) && Builds(claim, c, k) && OneLeft(owed, m, c, k)
    ensures claim(owed + MorningOf(m, calls) + Evening(m, c, last), DayBegin(owed, m), DayEnd(m, c))
  {
    if Hit(m, Clock(14, 30), c) {
      BusyDay(owed, m, calls, last, claim, c, k);
    } else {
      QuietDay(owed, m, calls, claim, c, k);
      assert owed + MorningOf(m, calls) + Evening(m, c, last) == owed + MorningOf(m, calls);
    }
  }

  /** Rounds enough for whatever is left over: one less when sixteen hours are kept. */
  ghost predicate Enough(k: nat, c: Setting) {
    k >= 4 || (k == 3 && SpacedBy(c, Clock(16, 0)))
  }

  lemma OwedIsLeftOver(m: int, c: Setting, k: nat)
    requires Enough(k, c)
    ensures OneLeft(Owed(m, c), m + 86_400_000, c, k)
  {
    NeedIsSmall(-Clock(6, 0), m + 86_400_000, c);
  }

  /** One day more: what was owed is paid, and what it owes itself comes next. */
  lemma NextDay(sent: seq<int>, lo: int, m: int, calls: bool, last: bool, claim: Claim, c: Setting, k: nat)
    requires Usual(m + 86_400_000, c) && Builds(claim, c, k) && Enough(k, c) && claim(sent, lo, DayEnd(m, c))
    ensures var n := m + 86_400_000;
            claim(sent + (Owed(m, c) + MorningOf(n, calls) + Evening(n, c, last)), lo, DayEnd(n, c))
  {
    var n := m + 86_400_000;
    OwedIsLeftOver(m, c, k);
    DayBuilds(Owed(m, c), n, calls, last, claim, c, k);
    TwoJoin(claim, sent, lo, DayEnd(m, c), Owed(m, c) + MorningOf(n, calls) + Evening(n, c, last),
            DayBegin(Owed(m, c), n), DayEnd(n, c));
  }

  lemma EveningOrOwed(m: int, calls: bool, c: Setting)
    ensures MorningOf(m, calls) + Evening(m, c, false) + Owed(m, c) == WholeDay(m, calls)
  {
  }

  /* ----------------------------------------------------------------- a whole plan */

  /** The grid from the day of `m` on, with the first bank step at `first` and the finals on the day of `f`. */
  function Grid(calls: bool, bank: bool, first: int, m: int, f: int): seq<int> {
    var n := m + 86_400_000;
    if bank then [first] + WholeDay(m, calls) + WholeDay(n, calls) + MorningOf(f, calls)
    else [m + Clock(10, 0), n + Clock(10, 0), f + Clock(10, 0)]
  }

  function PlanTimes(calls: bool, bank: bool, submitted: int, zone: int): seq<int> {
    Grid(calls, bank, FirstBankSend(submitted, zone).at, DayStart(submitted, zone, 1), FinalDay(submitted, zone))
  }

  lemma ThreeJoin(claim: Claim, a: seq<int>, b: seq<int>, d: seq<int>,
                  la: int, ha: int, lb: int, hb: int, ld: int, hd: int)
    requires Joins(claim) && claim(a, la, ha) && claim(b, lb, hb) && claim(d, ld, hd)
    requires ha + MIN_GAP <= lb && hb + MIN_GAP <= ld
    ensures claim(a + b + d, la, hd)
  {
    TwoJoin(claim, a, la, ha, b, lb, hb);
    TwoJoin(claim, a + b, la, hb, d, ld, hd);
  }

  lemma CallsBuild(m1: int, m2: int, m: int, claim: Claim, c: Setting, k: nat)
    requires Usual(m1, c) && Usual(m2, c) && Usual(m, c) && Builds(claim, c, k)
    requires m1 + 86_400_000 <= m2 && m2 + 86_400_000 <= m
    ensures claim([m1 + Clock(10, 0), m2 + Clock(10, 0), m + Clock(10, 0)], m1 + Clock(10, 0), m + Clock(14, 0))
  {
    var a, b, d := [m1 + Clock(10, 0)], [m2 + Clock(10, 0)], [m + Clock(10, 0)];
    ThreeJoin(claim, a, b, d, a[0], m1 + Clock(14, 0), b[0], m2 + Clock(14, 0), d[0], m + Clock(14, 0));
    assert a + b + d == [a[0], b[0], d[0]];
  }

  /** The first bank step and two days of the grid. */
  lemma TwoDaysBuild(first: int, m: int, calls: bool, claim: Claim, c: Setting, k: nat)
    returns (sent: seq<int>)
    requires Usual(m, c) && Usual(m + 86_400_000, c) && Builds(claim, c, k) && Enough(k, c)
    requires LeftOver(first, m, c, k)
    ensures claim(sent, m - Clock(6, 0), DayEnd(m + 86_400_000, c))
    ensures sent + Owed(m + 86_400_000, c) == [first] + WholeDay(m, calls) + WholeDay(m + 86_400_000, calls)
  {
    var n := m + 86_400_000;
    var today := [first] + MorningOf(m, calls) + Evening(m, c, false);
    DayBuilds([first], m, calls, false, claim, c, k);
    NextDay(today, m - Clock(6, 0), m, calls, false, claim, c, k);
    EveningOrOwed(m, calls, c);
    EveningOrOwed(n, calls, c);
    sent := today + (Owed(m, c) + MorningOf(n, calls) + Evening(n, c, false));
    assert sent + Owed(n, c)
        == [first] + (MorningOf(m, calls) + Evening(m, c, false) + Owed(m, c))
           + (MorningOf(n, calls) + Evening(n, c, false) + Owed(n, c));
  }

  /** A day without sends of its own, but perhaps one left over for it. */
  lemma DayOff(sent: seq<int>, lo: int, m: int, claim: Claim, c: Setting, k: nat) returns (hi: int)
    requires Usual(m + 86_400_000, c) && Builds(claim, c, k) && Enough(k, c) && claim(sent, lo, DayEnd(m, c))
    ensures claim(sent + Owed(m, c), lo, hi) && hi <= m + 86_400_000 + Clock(12, 0)
  {
    if Owed(m, c) == [] {
      assert sent + Owed(m, c) == sent;
      hi := DayEnd(m, c);
    } else {
      OwedIsLeftOver(m, c, k);
      assert LeftOver(Owed(m, c)[0], m + 86_400_000, c, k);
      hi := m + 86_400_000 + Clock(12, 0);
      TwoJoin(claim, sent, lo, DayEnd(m, c), [m + Clock(18, 0)], m + 86_400_000 - Clock(6, 0), hi);
    }
  }

  /** And the finals, on the day after those or, a Sunday being left out, on the one after that. */
  lemma FinalsBuild(sent: seq<int>, lo: int, m: int, f: int, calls: bool, claim: Claim, c: Setting, k: nat)
    requires Usual(m + 86_400_000, c) && Usual(f, c) && Builds(claim, c, k) && Enough(k, c)
    requires f == m + 86_400_000 || f == m + 172_800_000
    requires claim(sent, lo, DayEnd(m, c))
    ensures claim(sent + Owed(m, c) + MorningOf(f, calls), lo, DayEnd(f, c))
  {
    if f == m + 86_400_000 {
      NextDay(sent, lo, m, calls, true, claim, c, k);
      assert sent + (Owed(m, c) + MorningOf(f, calls) + Evening(f, c, true))
          == sent + Owed(m, c) + MorningOf(f, calls);
    } else {
      var hi := DayOff(sent, lo, m, claim, c, k);
      DayBuilds([], f, calls, true, claim, c, k);
      assert [] + MorningOf(f, calls) + Evening(f, c, true) == MorningOf(f, calls);
      TwoJoin(claim, sent + Owed(m, c), lo, hi, MorningOf(f, calls), f + Clock(10, 0), DayEnd(f, c));
    }
  }

  lemma FirstIsLeftOver(submitted: int, c: Setting, k: nat)
    requires Enough(k, c)
    ensures LeftOver(FirstBankSend(submitted, c.zone).at, DayStart(submitted, c.zone, 1), c, k)
  {
    var m := DayStart(submitted, c.zone, 1);
    FirstBankTime(submitted, c.zone);
    DaysAreDays(submitted, c.zone, 0);
    NeedIsSmall(FirstBankSend(submitted, c.zone).at - m, m, c);
  }

  lemma DaysAreUsual(submitted: int, c: Setting)
    requires SpacedBy(c, Clock(9, 0))
    ensures var m, f := DayStart(submitted, c.zone, 1), FinalDay(submitted, c.zone);
            && DayStart(submitted, c.zone, 2) == m + 86_400_000
            && Usual(m, c) && Usual(m + 86_400_000, c) && Usual(m + 172_800_000, c) && Usual(f, c)
            && (f == m + 172_800_000 || f == m + 259_200_000)
  {
    DaysAreDays(submitted, c.zone, 1);
    DaysAreDays(submitted, c.zone, 2);
    DaysAreDays(submitted, c.zone, 3);
    FinalDayIsWorkday(submitted, c.zone);
  }

  /** Any plan, between the evening before its first whole day and the end of its last. */
  lemma GridBuilds(calls: bool, bank: bool, first: int, m: int, f: int, claim: Claim, c: Setting, k: nat)
    returns (lo: int, hi: int)
    requires Usual(m, c) && Usual(m + 86_400_000, c) && Usual(m + 172_800_000, c) && Usual(f, c)
    requires f == m + 172_800_000 || f == m + 259_200_000
    requires Builds(claim, c, k) && Enough(k, c) && LeftOver(first, m, c, k)
    ensures claim(Grid(calls, bank, first, m, f), lo, hi) && hi < f + 86_400_000
  {
    if bank {
      lo, hi := m - Clock(6, 0), DayEnd(f, c);
      var sent := TwoDaysBuild(first, m, calls, claim, c, k);
      FinalsBuild(sent, lo, m + 86_400_000, f, calls, claim, c, k);
    } else {
      lo, hi := m + Clock(10, 0), f + Clock(14, 0);
      CallsBuild(m, m + 86_400_000, f, claim, c, k);
    }
  }

  lemma GridSettles(calls: bool, bank: bool, first: int, m: int, f: int, c: Setting, k: nat)
    returns (lo: int, hi: int)
    requires Usual(m, c) && Usual(m + 86_400_000, c) && Usual(m + 172_800_000, c) && Usual(f, c)
    requires f == m + 172_800_000 || f == m + 259_200_000
    requires Enough(k, c) && LeftOver(first, m, c, k)
    ensures Held(c, lo, hi)(Grid(calls, bank, first, m, f), k) && hi < f + 86_400_000
  {
    SettlesOnDays(c, k);
    lo, hi := GridBuilds(calls, bank, first, m, f, Settles(c, k), c, k);
  }

  /** Whatever the plan is made of, it settles before the end of its last day. */
  lemma PlanTimesSettle(calls: bool, bank: bool, submitted: int, c: Setting, k: nat) returns (lo: int, hi: int)
    requires calls || bank
    requires SpacedBy(c, Clock(9, 0)) && Enough(k, c)
    ensures Held(c, lo, hi)(PlanTimes(calls, bank, submitted, c.zone), k)
    ensures hi < FinalDay(submitted, c.zone) + 86_400_000
  {
    var first := FirstBankSend(submitted, c.zone).at;
    var m, f := DayStart(submitted, c.zone, 1), FinalDay(submitted, c.zone);
    DaysAreUsual(submitted, c);
    FirstIsLeftOver(submitted, c, k);
    lo, hi := GridSettles(calls, bank, first, m, f, c, k);
  }

  lemma {:induction false} WantedJoin(keys: set<SequenceKey>, a: seq<Slot>, b: seq<Slot>)
    ensures Wanted(keys, a + b) == Wanted(keys, a) + Wanted(keys, b)
  {
    if a == [] {
      assert a + b == b;
    } else {
      var first := if a[0].key in keys then [a[0]] else [];
      assert (a + b)[0] == a[0] && (a + b)[1..] == a[1..] + b;
      WantedJoin(keys, a[1..], b);
      assert Wanted(keys, a + b) == first + (Wanted(keys, a[1..]) + Wanted(keys, b));
    }
  }

  lemma {:induction false} WantedOneKind(keys: set<SequenceKey>, slots: seq<Slot>)
    requires forall i, j | 0 <= i < |slots| && 0 <= j < |slots| :: slots[i].key == slots[j].key
    ensures Wanted(keys, slots) == if slots != [] && slots[0].key in keys then slots else []
  {
    if |slots| > 1 {
      WantedOneKind(keys, slots[1..]);
    } else if |slots| == 1 {
      assert slots[1..] == [];
    }
  }

  /** The slots of one sequence, the calls first in the grid. */
  function SlotsOf(key: SequenceKey): seq<Slot> {
    if key == CallIn then IDEAL_SLOTS[..3] else IDEAL_SLOTS[3..]
  }

  lemma WantedSlots(keys: set<SequenceKey>)
    ensures Wanted(keys, IDEAL_SLOTS)
            == (if CallIn in keys then SlotsOf(CallIn) else [])
               + (if BankVerification in keys then SlotsOf(BankVerification) else [])
  {
    assert IDEAL_SLOTS == IDEAL_SLOTS[..3] + IDEAL_SLOTS[3..];
    WantedJoin(keys, IDEAL_SLOTS[..3], IDEAL_SLOTS[3..]);
    WantedOneKind(keys, IDEAL_SLOTS[..3]);
    WantedOneKind(keys, IDEAL_SLOTS[3..]);
  }

  lemma PlannedTimes(submitted: int, zone: int)
    ensures var m1, m2, m := DayStart(submitted, zone, 1), DayStart(submitted, zone, 2), FinalDay(submitted, zone);
            Times(PlannedAll(IDEAL_SLOTS, submitted, zone))
            == [m1 + Clock(10, 0), m2 + Clock(10, 0), m + Clock(10, 0), FirstBankSend(submitted, zone).at,
                m1 + Clock(14, 30), m1 + Clock(18, 0), m2 + Clock(14, 30), m2 + Clock(18, 0), m + Clock(14, 30)]
  {
    LaterSlots();
    forall i | 0 <= i < 9 && i != 3
      ensures Planned(IDEAL_SLOTS[i], submitted, zone).at
              == (if IDEAL_SLOTS[i].isFinal then FinalDay(submitted, zone)
                  else DayStart(submitted, zone, IDEAL_SLOTS[i].day))
                 + Clock(IDEAL_SLOTS[i].time.hour, IDEAL_SLOTS[i].time.minute)
    {
      KeptTime(IDEAL_SLOTS[i], submitted, zone);
    }
  }

  lemma CallTimes(submitted: int, zone: int)
    ensures Times(PlannedAll(SlotsOf(CallIn), submitted, zone)) == PlanTimes(true, false, submitted, zone)
  {
    PlannedTimes(submitted, zone);
    assert Times(PlannedAll(SlotsOf(CallIn), submitted, zone))
        == Times(PlannedAll(IDEAL_SLOTS, submitted, zone))[..3];
  }

  lemma BankTimes(submitted: int, zone: int)
    ensures Times(PlannedAll(SlotsOf(BankVerification), submitted, zone)) == PlanTimes(false, true, submitted, zone)
  {
    PlannedTimes(submitted, zone);
    assert Times(PlannedAll(SlotsOf(BankVerification), submitted, zone))
        == Times(PlannedAll(IDEAL_SLOTS, submitted, zone))[3..];
  }

  lemma BothTimes(submitted: int, zone: int)
    ensures var g := Times(PlannedAll(IDEAL_SLOTS, submitted, zone));
            |g| == 9 && PlanTimes(true, true, submitted, zone)
                        == [g[3], g[0], g[4], g[5], g[1], g[6], g[7], g[2], g[8]]
  {
    PlannedTimes(submitted, zone);
  }

  lemma ReorderedSteps(g: seq<int>, p: seq<int>, c: Setting)
    requires |g| == 9 && p == [g[3], g[0], g[4], g[5], g[1], g[6], g[7], g[2], g[8]]
    ensures multiset(Steps(g, c)) == multiset(Steps(p, c))
  {
    var h := Steps(g, c);
    assert Steps(p, c) == [h[3], h[0], h[4], h[5], h[1], h[6], h[7], h[2], h[8]];
    ReorderedNine(h, Steps(p, c));
  }

  /** The first round of a plan leaves the steps of its planned times, in some order. */
  lemma RulesPassIsPlanned(calls: bool, bank: bool, submitted: int, c: Setting, slots: seq<Slot>)
    requires calls || bank
    requires slots == (if calls then SlotsOf(CallIn) else []) + (if bank then SlotsOf(BankVerification) else [])
    ensures var r := RulesPass(IdealSends(slots, submitted, c.zone), c);
            && multiset(Times(r)) == multiset(Steps(PlanTimes(calls, bank, submitted, c.zone), c))
            && FinalsFrom(r, FinalDay(submitted, c.zone))
  {
    LaterSlots();
    PlannedTimesOfRules(slots, submitted, c);
    if calls && bank {
      assert slots == IDEAL_SLOTS;
      BothTimes(submitted, c.zone);
      ReorderedSteps(Times(PlannedAll(IDEAL_SLOTS, submitted, c.zone)), PlanTimes(true, true, submitted, c.zone), c);
    } else if calls {
      assert slots == SlotsOf(CallIn);
      CallTimes(submitted, c.zone);
    } else {
      assert slots == SlotsOf(BankVerification);
      BankTimes(submitted, c.zone);
    }
  }

  lemma PlanSettles(submitted: int, c: Setting, keys: set<SequenceKey>, k: nat)
    requires SpacedBy(c, Clock(9, 0)) && Enough(k, c)
    ensures SettlesWithin(StartingPlan(submitted, c, keys), c, k + 1)
  {
    var calls, bank := CallIn in keys, BankVerification in keys;
    WantedSlots(keys);
    if calls || bank {
      var lo, hi := PlanTimesSettle(calls, bank, submitted, c, k);
      RulesPassIsPlanned(calls, bank, submitted, c, Wanted(keys, IDEAL_SLOTS));
      FinalDayIsWorkday(submitted, c.zone);
      SettlesFromTimes(StartingPlan(submitted, c, keys), c, PlanTimes(calls, bank, submitted, c.zone),
                       FinalDay(submitted, c.zone), lo, hi, k);
    } else {
      EmptyPlanSettles(StartingPlan(submitted, c, keys), c, k);
    }
  }

  lemma EmptyPlanSettles(plan: seq<Send>, c: Setting, k: nat)
    requires plan == []
    ensures SettlesWithin(plan, c, k + 1)
  {
    assert RulesPass(plan, c) == [];
    assert !RoundChanges(plan, c);
  }

  /**
    When transactional sends are more than nine hours apart the loop meets a quiet round
    within five, within four when they are more than sixteen apart; so the cap is never
    its exit and all rules hold: for every submission time, zone, choice of sequences
    and placing of those sends.
   */
  lemma SparseSendsSettle(submitted: int, c: Setting, keys: set<SequenceKey>)
    requires SpacedBy(c, Clock(9, 0))
    ensures SettlesWithin(StartingPlan(submitted, c, keys), c, 5)
    ensures SpacedBy(c, Clock(16, 0)) ==> SettlesWithin(StartingPlan(submitted, c, keys), c, 4)
    ensures RulesHold(Schedule(submitted, c, keys), c)
  {
    PlanSettles(submitted, c, keys, 4);
    if SpacedBy(c, Clock(16, 0)) { PlanSettles(submitted, c, keys, 3); }
    SettlesMonotone(StartingPlan(submitted, c, keys), c, 5, MAX_ROUNDS);
    QuietExitObeysRules(submitted, c, keys);
  }

  /** In particular one transactional send, at any time at all, never defeats the loop. */
  lemma OneSendSettles(submitted: int, c: Setting, keys: set<SequenceKey>)
    requires |c.transactional| <= 1
    ensures SettlesWithin(StartingPlan(submitted, c, keys), c, 4)
    ensures RulesHold(Schedule(submitted, c, keys), c)
  {
    SparseSendsSettle(submitted, c, keys);
  }
}
