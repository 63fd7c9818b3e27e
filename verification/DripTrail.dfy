/**
  What the trail of a send says about how late it is: a day for every weekend shift,
  two hours for every collision, at most eleven hours for every quiet-hour push and
  sixteen for every minimum-gap push, and nothing else.
 */
module DripTrail {
  import opened DripSchedule
  import opened DripSorting
  import opened DripRules
  import opened DripIntakePlan

  const SECOND := 1_000
  const HOUR := 3_600 * SECOND

  /** The trail of a send that is so much later than its slot. */
  ghost predicate Explains(trail: seq<Adjustment>, late: int) {
    var said := multiset(trail);
    var pushed := late - 24 * HOUR * said[WeekendFinalShift] - 2 * HOUR * said[TransactionalConflict];
    said[QuietHours] + said[MinGap] <= pushed <= 11 * HOUR * said[QuietHours] + 16 * HOUR * said[MinGap]
  }

  /** The time a rule adds when it leaves its mark. */
  ghost predicate Costs(mark: Adjustment, cost: int) {
    match mark
    case WeekendFinalShift => cost == 24 * HOUR
    case TransactionalConflict => cost == 2 * HOUR
    case QuietHours => 1 <= cost <= 11 * HOUR
    case MinGap => 1 <= cost <= 16 * HOUR
    case LateSubmissionOffset => false
  }

  ghost predicate Accounted(s: Send, submitted: int, zone: int) {
    && Explains(s.trail, s.at - IdealAt(s.slot, submitted, zone))
    && (WeekendFinalShift in s.trail ==> s.slot.isFinal)
    && multiset(s.trail)[LateSubmissionOffset] == |IdealTrail(s.slot, submitted, zone)|
  }

  ghost predicate AllAccounted(plan: seq<Send>, submitted: int, zone: int) {
    |plan| <= 9 && forall i | 0 <= i < |plan| :: Accounted(plan[i], submitted, zone)
  }

  lemma Marked(trail: seq<Adjustment>, mark: Adjustment, other: Adjustment)
    ensures multiset(trail + [mark])[other] == multiset(trail)[other] + if mark == other then 1 else 0
  {
  }

  lemma OneMoreMark(trail: seq<Adjustment>, late: int, mark: Adjustment, cost: int)
    requires Explains(trail, late) && Costs(mark, cost)
    ensures Explains(trail + [mark], late + cost)
    ensures multiset(trail + [mark])[LateSubmissionOffset] == multiset(trail)[LateSubmissionOffset]
  {
    forall other
      ensures multiset(trail + [mark])[other] == multiset(trail)[other] + if mark == other then 1 else 0
    {
      Marked(trail, mark, other);
    }
  }

  /** A send moved by a rule that leaves its mark. */
  lemma MovedAccounted(s: Send, mark: Adjustment, cost: int, submitted: int, zone: int)
    requires Accounted(s, submitted, zone) && Costs(mark, cost) && (mark == WeekendFinalShift ==> s.slot.isFinal)
    ensures Accounted(Send(s.slot, s.at + cost, s.trail + [mark]), submitted, zone)
  {
    OneMoreMark(s.trail, s.at - IdealAt(s.slot, submitted, zone), mark, cost);
  }

  lemma WeekendAccounted(s: Send, c: Setting, submitted: int)
    requires Accounted(s, submitted, c.zone)
    ensures Accounted(WeekendRule(s, c), submitted, c.zone)
  {
    if WeekendRule(s, c) != s {
      MovedAccounted(s, WeekendFinalShift, 24 * HOUR, submitted, c.zone);
    }
  }

  lemma QuietPushIsShort(t: int, zone: int)
    requires InQuietHours(t, zone)
    ensures 1 <= ApplyQuietHours(t, zone) - t <= 11 * HOUR
  {
  }

  lemma QuietAccounted(s: Send, c: Setting, submitted: int)
    requires Accounted(s, submitted, c.zone)
    ensures Accounted(QuietRule(s, c), submitted, c.zone)
  {
    if InQuietHours(s.at, c.zone) {
      QuietPushIsShort(s.at, c.zone);
      MovedAccounted(s, QuietHours, ApplyQuietHours(s.at, c.zone) - s.at, submitted, c.zone);
    }
  }

  lemma ConflictAccounted(s: Send, c: Setting, submitted: int)
    requires Accounted(s, submitted, c.zone)
    ensures Accounted(ConflictRule(s, c), submitted, c.zone)
  {
    if ConflictRule(s, c) != s {
      MovedAccounted(s, TransactionalConflict, 2 * HOUR, submitted, c.zone);
    }
  }

  lemma GapAccounted(previous: Send, current: Send, submitted: int, zone: int)
    requires Accounted(current, submitted, zone) && previous.at <= current.at + 14 * HOUR
    ensures Accounted(GapRule(previous, current), submitted, zone)
  {
    if GapRule(previous, current) != current {
      MovedAccounted(current, MinGap, previous.at + 2 * HOUR - current.at, submitted, zone);
    }
  }

  lemma RulesAccounted(plan: seq<Send>, c: Setting, submitted: int)
    requires AllAccounted(plan, submitted, c.zone)
    ensures AllAccounted(RulesPass(plan, c), submitted, c.zone)
  {
    forall i | 0 <= i < |plan| ensures Accounted(RulesPass(plan, c)[i], submitted, c.zone) {
      WeekendAccounted(plan[i], c, submitted);
      QuietAccounted(WeekendRule(plan[i], c), c, submitted);
      ConflictAccounted(QuietRule(WeekendRule(plan[i], c), c), c, submitted);
    }
  }

  lemma SortAccounted(plan: seq<Send>, submitted: int, zone: int)
    requires AllAccounted(plan, submitted, zone)
    ensures AllAccounted(StableSort(plan), submitted, zone)
  {
    StableSortSorts(plan);
    forall i | 0 <= i < |plan| ensures Accounted(StableSort(plan)[i], submitted, zone) {
      assert StableSort(plan)[i] in multiset(plan);
    }
  }

  /** A pile of sends at one instant pushes the last of them furthest, two hours for each before it. */
  lemma {:induction false} GapPassCreeps(plan: seq<Send>, k: nat, i: nat)
    requires i < k <= |plan| && Sorted(plan)
    ensures GapPass(plan, k)[i].at <= plan[i].at + 2 * HOUR * i
  {
    if k > 1 {
      GapPassCreeps(plan, k - 1, if i < k - 1 then i else i - 1);
    }
  }

  /** Each send meets its predecessor as the pass left it. */
  lemma {:induction false} GapPassAt(plan: seq<Send>, k: nat, i: nat)
    requires 0 < i < k <= |plan|
    ensures GapPass(plan, k)[i] == GapRule(GapPass(plan, i)[i - 1], plan[i])
  {
    if i < k - 1 {
      GapPassAt(plan, k - 1, i);
    }
  }

  lemma GapPassAccounted(plan: seq<Send>, i: nat, submitted: int, zone: int)
    requires i < |plan| && Sorted(plan) && AllAccounted(plan, submitted, zone)
    ensures Accounted(GapPass(plan, |plan|)[i], submitted, zone)
  {
    if i == 0 {
      FirstStays(plan, |plan|);
    } else {
      var previous := GapPass(plan, i)[i - 1];
      GapPassAt(plan, |plan|, i);
      GapPassCreeps(plan, i, i - 1);
      assert plan[i - 1].at <= plan[i].at;
      GapAccounted(previous, plan[i], submitted, zone);
    }
  }

  lemma {:induction false} FirstStays(plan: seq<Send>, k: nat)
    requires 0 < k <= |plan|
    ensures GapPass(plan, k)[0] == plan[0]
  {
    if k > 1 {
      FirstStays(plan, k - 1);
    }
  }

  lemma RoundAccounted(plan: seq<Send>, c: Setting, submitted: int)
    requires AllAccounted(plan, submitted, c.zone)
    ensures AllAccounted(Round(plan, c), submitted, c.zone)
  {
    var sorted := StableSort(RulesPass(plan, c));
    RulesAccounted(plan, c, submitted);
    StableSortSorts(RulesPass(plan, c));
    SortAccounted(RulesPass(plan, c), submitted, c.zone);
    forall i | 0 <= i < |sorted| ensures Accounted(Round(plan, c)[i], submitted, c.zone) {
      GapPassAccounted(sorted, i, submitted, c.zone);
    }
  }

  lemma {:induction false} WantedIsPart(keys: set<SequenceKey>, slots: seq<Slot>)
    ensures |Wanted(keys, slots)| <= |slots|
  {
    if slots != [] { WantedIsPart(keys, slots[1..]); }
  }

  lemma StartAccounted(submitted: int, c: Setting, keys: set<SequenceKey>)
    ensures AllAccounted(StartingPlan(submitted, c, keys), submitted, c.zone)
  {
    WantedIsPart(keys, IDEAL_SLOTS);
  }

  /** However the loop ends, every planned send is as late as its trail says. */
  lemma {:induction false} TrailAccountsForLateness(submitted: int, c: Setting, keys: set<SequenceKey>)
    ensures AllAccounted(Schedule(submitted, c, keys), submitted, c.zone)
  {
    var plan := StartingPlan(submitted, c, keys);
    var kept := (t: seq<Send>) => AllAccounted(t, submitted, c.zone);
    StartAccounted(submitted, c, keys);
    forall t, next | kept(t) && IsRound(t, next, c) ensures kept(next) {
      RoundAccounted(t, c, submitted);
    }
    assert KeptByRounds(kept, c);
    ResolveKeeps(plan, c, MAX_ROUNDS, kept);
    SortAccounted(Resolve(plan, c, MAX_ROUNDS), submitted, c.zone);
  }

  /* ------------------------------------------------------- collisions are told */

  /** Some send of the plan is so. */
  ghost predicate Has(plan: seq<Send>, so: Send -> bool) {
    exists s :: s in plan && so(s)
  }

  /** What no rule takes back. */
  ghost predicate KeptByRules(so: Send -> bool, c: Setting) {
    && (forall s | so(s) :: so(StepRules(s, c)))
    && (forall previous, s | so(s) :: so(GapRule(previous, s)))
  }

  lemma SortKeeps(plan: seq<Send>, so: Send -> bool)
    requires Has(plan, so)
    ensures Has(StableSort(plan), so)
  {
    StableSortSorts(plan);
    var s :| s in plan && so(s);
    assert s in multiset(plan);
    assert s in StableSort(plan);
  }

  lemma RulesKeep(plan: seq<Send>, c: Setting, so: Send -> bool)
    requires KeptByRules(so, c) && Has(plan, so)
    ensures Has(RulesPass(plan, c), so)
  {
    var s :| s in plan && so(s);
    var i :| 0 <= i < |plan| && plan[i] == s;
    assert RulesPass(plan, c)[i] in RulesPass(plan, c);
  }

  lemma GapKeeps(plan: seq<Send>, i: nat, c: Setting, so: Send -> bool)
    requires KeptByRules(so, c) && i < |plan| && so(plan[i])
    ensures so(GapPass(plan, |plan|)[i])
  {
    if i == 0 {
      FirstStays(plan, |plan|);
    } else {
      GapPassAt(plan, |plan|, i);
    }
  }

  /** The rest of a round, after its rules. */
  lemma RoundHas(plan: seq<Send>, c: Setting, so: Send -> bool)
    requires KeptByRules(so, c) && Has(RulesPass(plan, c), so)
    ensures Has(Round(plan, c), so)
  {
    var sorted := StableSort(RulesPass(plan, c));
    SortKeeps(RulesPass(plan, c), so);
    var s :| s in sorted && so(s);
    var i :| 0 <= i < |sorted| && sorted[i] == s;
    GapKeeps(sorted, i, c, so);
    assert Round(plan, c)[i] in Round(plan, c);
  }

  /** What the first pass of the rules makes true of a send, and no rule takes back, is true of one in the schedule. */
  lemma ScheduleHas(submitted: int, c: Setting, keys: set<SequenceKey>, so: Send -> bool)
    requires KeptByRules(so, c) && Has(RulesPass(StartingPlan(submitted, c, keys), c), so)
    ensures Has(Schedule(submitted, c, keys), so)
  {
    var plan := StartingPlan(submitted, c, keys);
    var first := Round(plan, c);
    var kept := (t: seq<Send>) => Has(t, so);
    RoundHas(plan, c, so);
    forall t, next | kept(t) && IsRound(t, next, c) ensures kept(next) {
      RulesKeep(t, c, so);
      RoundHas(t, c, so);
    }
    assert KeptByRounds(kept, c);
    ResolveKeeps(first, c, MAX_ROUNDS - 1, kept);
    SortKeeps(Resolve(plan, c, MAX_ROUNDS), so);
  }

  /** A send of the slot, no earlier than that, with the collision in its trail. */
  ghost function MovedAside(slot: Slot, since: int): Send -> bool {
    (s: Send) => s.slot == slot && s.at >= since && TransactionalConflict in s.trail
  }

  lemma RulesKeepMovedAside(slot: Slot, since: int, c: Setting)
    ensures KeptByRules(MovedAside(slot, since), c)
  {
    forall s: Send
      ensures StepRules(s, c).slot == s.slot && StepRules(s, c).at >= s.at && s.trail <= StepRules(s, c).trail
    {
      StepRulesMoveOn(s, c);
    }
  }

  lemma StepRulesMoveOn(s: Send, c: Setting)
    ensures StepRules(s, c).slot == s.slot && StepRules(s, c).at >= s.at && s.trail <= StepRules(s, c).trail
  {
    var w := WeekendRule(s, c);
    if InQuietHours(w.at, c.zone) { QuietPushIsShort(w.at, c.zone); }
  }

  /** Some transactional send is within ninety minutes of the instant. */
  ghost predicate Struck(t: int, c: Setting) {
    exists k | 0 <= k < |c.transactional| ::
      -5_400_000 <= c.transactional[k] - t <= 5_400_000
  }

  lemma StruckSendMoves(planned: Send, c: Setting, after: seq<Send>, i: nat)
    requires Struck(planned.at, c) && i < |after| && after[i] == ConflictRule(planned, c)
    ensures Has(after, MovedAside(planned.slot, planned.at + 2 * HOUR))
  {
    var k :| 0 <= k < |c.transactional| && -5_400_000 <= c.transactional[k] - planned.at <= 5_400_000;
    assert Near(c.transactional[k], planned.at);
    assert after[i] in after && MovedAside(planned.slot, planned.at + 2 * HOUR)(after[i]);
  }

  lemma StruckPlanMoves(grid: seq<Send>, planned: Send, c: Setting, after: seq<Send>)
    requires Struck(planned.at, c) && planned in multiset(grid)
    requires |after| == |grid| && forall i | 0 <= i < |grid| :: after[i] == ConflictRule(grid[i], c)
    ensures Has(after, MovedAside(planned.slot, planned.at + 2 * HOUR))
  {
    var k :| 0 <= k < |grid| && grid[k] == planned;
    StruckSendMoves(planned, c, after, k);
  }

  /** A planned time that a transactional send comes too close to is given up for one at least two hours later. */
  lemma StruckIsMovedAside(submitted: int, c: Setting, i: nat)
    requires i < |IntakePlan(submitted, c.zone)|
    requires Struck(IntakePlan(submitted, c.zone)[i].at, c)
    ensures var planned := IntakePlan(submitted, c.zone)[i];
            Has(Schedule(submitted, c, BOTH), MovedAside(planned.slot, planned.at + 2 * HOUR))
  {
    var planned := IntakePlan(submitted, c.zone)[i];
    GridIsPlan(submitted, c.zone);
    RulesPassIsConflicts(submitted, c);
    StruckPlanMoves(PlannedAll(IDEAL_SLOTS, submitted, c.zone), planned, c,
                    RulesPass(StartingPlan(submitted, c, BOTH), c));
    RulesKeepMovedAside(planned.slot, planned.at + 2 * HOUR, c);
    ScheduleHas(submitted, c, BOTH, MovedAside(planned.slot, planned.at + 2 * HOUR));
  }

  lemma PlannedTellsNothing(slot: Slot, submitted: int, zone: int)
    ensures TransactionalConflict !in Planned(slot, submitted, zone).trail
  {
  }

  ghost predicate TellsCollision(plan: seq<Send>) {
    exists s :: s in plan && TransactionalConflict in s.trail
  }

  lemma ClearPlanTellsNothing(submitted: int, zone: int)
    ensures !TellsCollision(IntakePlan(submitted, zone))
  {
    var plan := IntakePlan(submitted, zone);
    forall s | s in plan ensures TransactionalConflict !in s.trail {
      var i :| 0 <= i < |plan| && plan[i] == s;
      PlannedTellsNothing(SEND_ORDER[i], submitted, zone);
    }
  }

  lemma UnstruckIsClear(plan: seq<Send>, c: Setting)
    requires forall i | 0 <= i < |plan| :: !Struck(plan[i].at, c)
    ensures Clear(plan, c)
  {
    forall i, k | 0 <= i < |plan| && 0 <= k < |c.transactional| ensures !Near(c.transactional[k], plan[i].at) {
      assert !Struck(plan[i].at, c);
    }
  }

  /** A trail of intake's plan speaks of a collision exactly when one of the nine planned times is struck. */
  lemma {:induction false} CollisionsAreToldIff(submitted: int, c: Setting)
    ensures TellsCollision(Schedule(submitted, c, BOTH))
            <==> exists i | 0 <= i < 9 :: Struck(IntakePlan(submitted, c.zone)[i].at, c)
  {
    var plan := IntakePlan(submitted, c.zone);
    if i :| 0 <= i < 9 && Struck(plan[i].at, c) {
      StruckIsMovedAside(submitted, c, i);
    } else {
      UnstruckIsClear(plan, c);
      IntakeScheduleIsClosedFormIff(submitted, c);
      ClearPlanTellsNothing(submitted, c.zone);
    }
  }
}
