/**
  The one call the repository makes to the scheduler: at intake, for both
  sequences.  Unless a transactional send falls close to one of the nine planned
  times, the loop settles in at most two rounds and the plan has a closed form.
 */
module DripIntakePlan {
  import opened DripSchedule
  import opened DripSorting
  import opened DripRules

  const BOTH: set<SequenceKey> := {CallIn, BankVerification}

  /** The nine slots in the order intake's plan sends them: bank 1, call 1, bank 2, bank 3, ... */
  const SEND_ORDER: seq<Slot> :=
    [ IDEAL_SLOTS[3], IDEAL_SLOTS[0], IDEAL_SLOTS[4], IDEAL_SLOTS[5], IDEAL_SLOTS[1],
      IDEAL_SLOTS[6], IDEAL_SLOTS[7], IDEAL_SLOTS[2], IDEAL_SLOTS[8] ]

  const FIRST_BANK_STEP := Slot(BankVerification, 1, 0, Immediate, false)

  /** A step that stays where the grid puts it, except that a Sunday final goes out on Monday. */
  function Kept(slot: Slot, submitted: int, zone: int): Send {
    var at := IdealAt(slot, submitted, zone);
    if slot.isFinal && LandsOnSunday(at, zone)
    then Send(slot, ShiftLocalDays(at, 1), [WeekendFinalShift])
    else Send(slot, at, [])
  }

  /** 18:00, or three hours after a submission from 16:00 on, or 08:00 next day after one from 18:00 on. */
  function FirstBankSend(submitted: int, zone: int): Send {
    if LocalHour(submitted, zone) < 16 then
      Send(FIRST_BANK_STEP, AtLocalTime(submitted, zone, 0, 18, 0), [])
    else if LocalHour(submitted, zone) < 18 then
      Send(FIRST_BANK_STEP, submitted + LATE_SUBMISSION_DELAY, [LateSubmissionOffset])
    else
      Send(FIRST_BANK_STEP, NextLocalDayAt(submitted, zone, 8), [LateSubmissionOffset, QuietHours])
  }

  function Planned(slot: Slot, submitted: int, zone: int): Send {
    if slot.time == Immediate then FirstBankSend(submitted, zone) else Kept(slot, submitted, zone)
  }

  function PlannedAll(slots: seq<Slot>, submitted: int, zone: int): (r: seq<Send>)
    ensures |r| == |slots|
    ensures forall i | 0 <= i < |slots| :: r[i] == Planned(slots[i], submitted, zone)
  {
    seq(|slots|, i requires 0 <= i < |slots| => Planned(slots[i], submitted, zone))
  }

  /** The whole plan, in the order it is sent. */
  function IntakePlan(submitted: int, zone: int): seq<Send> {
    PlannedAll(SEND_ORDER, submitted, zone)
  }

  /** No transactional send is within ninety minutes of a planned one. */
  ghost predicate Clear(plan: seq<Send>, c: Setting) {
    forall i, k | 0 <= i < |plan| && 0 <= k < |c.transactional| :: !Near(c.transactional[k], plan[i].at)
  }

  /** The confirmation goes out within half an hour of the submission. */
  ghost predicate IntakeCall(submitted: int, c: Setting) {
    |c.transactional| == 1 && submitted <= c.transactional[0] <= submitted + 1_800_000
  }

  /** A slot on a later day, in the daytime. */
  ghost predicate DaytimeSlot(slot: Slot) {
    slot.time.At? && 1 <= slot.day && 10 <= slot.time.hour < 21 && slot.time.minute < 60
  }

  /** What the weekend and quiet-hour rules make of a slot's ideal time. */
  function Settled(slot: Slot, submitted: int, c: Setting): Send {
    QuietRule(WeekendRule(IdealSend(slot, submitted, c.zone), c), c)
  }

  /** A send in the daytime, and not a final on a Sunday. */
  ghost predicate WellTimed(s: Send, zone: int) {
    !InQuietHours(s.at, zone) && !(s.slot.isFinal && LandsOnSunday(s.at, zone))
  }

  lemma KeptByRules(slot: Slot, submitted: int, c: Setting)
    requires DaytimeSlot(slot)
    ensures Settled(slot, submitted, c) == Kept(slot, submitted, c.zone)
    ensures WellTimed(Kept(slot, submitted, c.zone), c.zone)
  {
    var d := LocalDay(submitted, c.zone) + slot.day;
    InstantReads(d, slot.time.hour, slot.time.minute, c.zone);
    InstantReads(d + 1, slot.time.hour, slot.time.minute, c.zone);
    assert ShiftLocalDays(IdealAt(slot, submitted, c.zone), 1)
        == Instant(d + 1, slot.time.hour, slot.time.minute, c.zone);
  }

  lemma FirstBankByRules(submitted: int, c: Setting)
    ensures Settled(FIRST_BANK_STEP, submitted, c) == FirstBankSend(submitted, c.zone)
    ensures WellTimed(FirstBankSend(submitted, c.zone), c.zone)
  {
    var d := LocalDay(submitted, c.zone);
    InstantReads(d, 18, 0, c.zone);
    InstantReads(d + 1, 8, 0, c.zone);
    var h := LocalHour(submitted, c.zone);
    var late := submitted + LATE_SUBMISSION_DELAY;
    if 16 <= h < 18 {
      assert LocalDay(late, c.zone) == d && LocalHour(late, c.zone) == h + 3;
    } else if 18 <= h < 21 {
      assert LocalDay(late, c.zone) == d && LocalHour(late, c.zone) == h + 3;
    } else if 21 <= h {
      assert LocalDay(late, c.zone) == d + 1 && LocalHour(late, c.zone) == h - 21;
    }
  }

  ghost predicate GridSlot(slot: Slot) {
    slot == FIRST_BANK_STEP || DaytimeSlot(slot)
  }

  lemma GridSlots()
    ensures forall i | 0 <= i < 9 :: GridSlot(IDEAL_SLOTS[i])
    ensures forall i | 0 <= i < 9 :: GridSlot(SEND_ORDER[i])
  {
  }

  lemma PlannedByRules(slot: Slot, submitted: int, c: Setting)
    requires GridSlot(slot)
    ensures Settled(slot, submitted, c) == Planned(slot, submitted, c.zone)
    ensures WellTimed(Planned(slot, submitted, c.zone), c.zone)
    ensures StepRules(IdealSend(slot, submitted, c.zone), c) == ConflictRule(Planned(slot, submitted, c.zone), c)
  {
    if slot == FIRST_BANK_STEP {
      FirstBankByRules(submitted, c);
    } else {
      KeptByRules(slot, submitted, c);
    }
  }

  lemma {:induction false} WantedBoth(slots: seq<Slot>)
    ensures Wanted(BOTH, slots) == slots
  {
    if slots != [] {
      WantedBoth(slots[1..]);
      assert slots[0].key == CallIn || slots[0].key == BankVerification;
    }
  }

  lemma RulesPassAtIntake(submitted: int, c: Setting)
    ensures var r := RulesPass(StartingPlan(submitted, c, BOTH), c);
            |r| == 9 && forall i | 0 <= i < 9 :: r[i] == ConflictRule(Planned(IDEAL_SLOTS[i], submitted, c.zone), c)
  {
    WantedBoth(IDEAL_SLOTS);
    GridSlots();
    var plan := IdealSends(IDEAL_SLOTS, submitted, c.zone);
    forall i | 0 <= i < 9
      ensures StepRules(plan[i], c) == ConflictRule(Planned(IDEAL_SLOTS[i], submitted, c.zone), c)
    {
      PlannedByRules(IDEAL_SLOTS[i], submitted, c);
    }
  }

  /** The grid and the plan hold the same nine sends. */
  lemma GridIsPlan(submitted: int, zone: int)
    ensures multiset(PlannedAll(IDEAL_SLOTS, submitted, zone)) == multiset(IntakePlan(submitted, zone))
  {
    var g, p := PlannedAll(IDEAL_SLOTS, submitted, zone), IntakePlan(submitted, zone);
    assert p == [g[3], g[0], g[4], g[5], g[1], g[6], g[7], g[2], g[8]];
    ReorderedNine(g, p);
  }

  lemma ClearSendsStay(g: seq<Send>, p: seq<Send>, r: seq<Send>, c: Setting)
    requires multiset(g) == multiset(p) && Clear(p, c)
    requires |r| == |g| && forall i | 0 <= i < |g| :: r[i] == ConflictRule(g[i], c)
    ensures r == g
  {
    forall i | 0 <= i < |g| ensures r[i] == g[i] {
      assert g[i] in multiset(p);
    }
  }

  lemma RulesPassWhenClear(submitted: int, c: Setting)
    requires Clear(IntakePlan(submitted, c.zone), c)
    ensures RulesPass(StartingPlan(submitted, c, BOTH), c) == PlannedAll(IDEAL_SLOTS, submitted, c.zone)
  {
    RulesPassIsConflicts(submitted, c);
    GridIsPlan(submitted, c.zone);
    ClearSendsStay(PlannedAll(IDEAL_SLOTS, submitted, c.zone), IntakePlan(submitted, c.zone),
                   RulesPass(StartingPlan(submitted, c, BOTH), c), c);
  }

  /** The same, list by list. */
  lemma RulesPassIsConflicts(submitted: int, c: Setting)
    ensures var g, r := PlannedAll(IDEAL_SLOTS, submitted, c.zone), RulesPass(StartingPlan(submitted, c, BOTH), c);
            |r| == |g| && forall i | 0 <= i < |g| :: r[i] == ConflictRule(g[i], c)
  {
    RulesPassAtIntake(submitted, c);
  }

  lemma PlanIsSpaced(submitted: int, zone: int)
    ensures Spaced(IntakePlan(submitted, zone))
    ensures StrictlySorted(IntakePlan(submitted, zone))
  {
    var d := LocalDay(submitted, zone) + 3;
    InstantReads(d, 10, 0, zone);
    InstantReads(d, 14, 30, zone);
    var p := IntakePlan(submitted, zone);
    forall i | 0 < i < 9 ensures p[i].at - p[i - 1].at >= MIN_GAP {
    }
    forall i, j | 0 <= i < j < |p| ensures p[i].at < p[j].at {
      SpacedPairwise(p, i, j);
    }
  }

  lemma ReorderedNine<T>(g: seq<T>, p: seq<T>)
    requires |g| == 9 && p == [g[3], g[0], g[4], g[5], g[1], g[6], g[7], g[2], g[8]]
    ensures multiset(g) == multiset(p)
  {
    assert g == [g[0]] + [g[1]] + [g[2]] + [g[3]] + [g[4]] + [g[5]] + [g[6]] + [g[7]] + [g[8]];
    assert p == [g[3]] + [g[0]] + [g[4]] + [g[5]] + [g[1]] + [g[6]] + [g[7]] + [g[2]] + [g[8]];
  }

  lemma PlanObeysRules(submitted: int, c: Setting)
    requires Clear(IntakePlan(submitted, c.zone), c)
    ensures RulesHold(IntakePlan(submitted, c.zone), c)
  {
    var p := IntakePlan(submitted, c.zone);
    GridSlots();
    forall i | 0 <= i < 9 ensures Obeys(p[i], c) {
      PlannedByRules(SEND_ORDER[i], submitted, c);
    }
    PlanIsSpaced(submitted, c.zone);
    forall i, j | 0 <= i < j < |p| ensures p[j].at - p[i].at >= MIN_GAP {
      SpacedPairwise(p, i, j);
    }
  }

  lemma SortedGridIsPlan(submitted: int, zone: int)
    ensures StableSort(PlannedAll(IDEAL_SLOTS, submitted, zone)) == IntakePlan(submitted, zone)
  {
    var g, p := PlannedAll(IDEAL_SLOTS, submitted, zone), IntakePlan(submitted, zone);
    PlanIsSpaced(submitted, zone);
    GridIsPlan(submitted, zone);
    StableSortSorts(g);
    SortedListIsUnique(StableSort(g), p);
  }

  lemma PlanHasItsGaps(submitted: int, zone: int)
    ensures var p := IntakePlan(submitted, zone);
            GapPass(p, |p|) == p
  {
    var p := IntakePlan(submitted, zone);
    PlanIsSpaced(submitted, zone);
    GapPassFixed(p, |p|);
    assert p[..|p|] == p;
  }

  lemma PlanIsQuiet(submitted: int, c: Setting)
    requires Clear(IntakePlan(submitted, c.zone), c)
    ensures !RoundChanges(IntakePlan(submitted, c.zone), c)
    ensures Round(IntakePlan(submitted, c.zone), c) == IntakePlan(submitted, c.zone)
  {
    var p := IntakePlan(submitted, c.zone);
    PlanObeysRules(submitted, c);
    PlanIsSpaced(submitted, c.zone);
    SortedIsFixed(p);
    QuietRoundIffRulesHold(p, c);
  }

  /** One round takes the intake grid to its closed form, and a second changes nothing. */
  lemma {:induction false} FirstRoundSettlesIntake(submitted: int, c: Setting)
    requires Clear(IntakePlan(submitted, c.zone), c)
    ensures Round(StartingPlan(submitted, c, BOTH), c) == IntakePlan(submitted, c.zone)
    ensures !RoundChanges(IntakePlan(submitted, c.zone), c)
    ensures Round(IntakePlan(submitted, c.zone), c) == IntakePlan(submitted, c.zone)
  {
    RulesPassWhenClear(submitted, c);
    SortedGridIsPlan(submitted, c.zone);
    PlanHasItsGaps(submitted, c.zone);
    PlanIsQuiet(submitted, c);
  }

  lemma {:induction false} ClearScheduleIsPlan(submitted: int, c: Setting)
    requires Clear(IntakePlan(submitted, c.zone), c)
    ensures SettlesWithin(StartingPlan(submitted, c, BOTH), c, 2)
    ensures Schedule(submitted, c, BOTH) == IntakePlan(submitted, c.zone)
    ensures RulesHold(Schedule(submitted, c, BOTH), c)
  {
    var plan := StartingPlan(submitted, c, BOTH);
    var p := IntakePlan(submitted, c.zone);
    FirstRoundSettlesIntake(submitted, c);
    PlanObeysRules(submitted, c);
    SortedIsFixed(p);
    assert Resolve(p, c, 7) == p;
    assert Resolve(plan, c, 8) == p;
    assert SettlesWithin(p, c, 1);
  }

  /* ----------------------------------------- and only then: trails never shrink */

  function TotalTrail(s: seq<Send>): nat {
    if s == [] then 0 else TotalTrail(s[..|s| - 1]) + |s[|s| - 1].trail|
  }

  lemma SortKeepsTrail(s: seq<Send>)
    ensures TotalTrail(StableSort(s)) == TotalTrail(s)
  {
    StableSortSorts(s);
    var total, weight := (q: seq<Send>) => TotalTrail(q), (x: Send) => |x.trail|;
    forall q ensures AddsLast(total, weight, q) {
    }
    assert AddsUp(total, weight);
    ReorderedTotal(s, StableSort(s), total, weight);
  }

  lemma {:induction false} TrailsGrow(s: seq<Send>, r: seq<Send>)
    requires |s| == |r| && forall i | 0 <= i < |s| :: |s[i].trail| <= |r[i].trail|
    ensures TotalTrail(s) <= TotalTrail(r)
    ensures (exists i | 0 <= i < |s| :: |s[i].trail| < |r[i].trail|) ==> TotalTrail(s) < TotalTrail(r)
  {
    if s != [] { TrailsGrow(s[..|s| - 1], r[..|s| - 1]); }
  }

  lemma {:induction false} GapPassGrowsTrails(s: seq<Send>, k: nat)
    requires k <= |s|
    ensures forall i | 0 <= i < k :: |s[i].trail| <= |GapPass(s, k)[i].trail|
  {
    if k > 1 { GapPassGrowsTrails(s, k - 1); }
  }

  lemma RoundGrowsTrail(s: seq<Send>, c: Setting)
    ensures TotalTrail(s) <= TotalTrail(RulesPass(s, c)) <= TotalTrail(Round(s, c))
  {
    var r := RulesPass(s, c);
    var t := StableSort(r);
    TrailsGrow(s, r);
    SortKeepsTrail(r);
    GapPassGrowsTrails(t, |t|);
    TrailsGrow(t, GapPass(t, |t|));
  }

  lemma ScheduleKeepsTrail(submitted: int, c: Setting, keys: set<SequenceKey>)
    ensures TotalTrail(RulesPass(StartingPlan(submitted, c, keys), c)) <= TotalTrail(Schedule(submitted, c, keys))
  {
    var plan := StartingPlan(submitted, c, keys);
    var first := Round(plan, c);
    RoundGrowsTrail(plan, c);
    var n := TotalTrail(first);
    var kept := (t: seq<Send>) => n <= TotalTrail(t);
    forall t, next | kept(t) && IsRound(t, next, c) ensures kept(next) {
      RoundGrowsTrail(t, c);
    }
    assert KeptByRounds(kept, c);
    ResolveKeeps(first, c, MAX_ROUNDS - 1, kept);
    SortKeepsTrail(Resolve(plan, c, MAX_ROUNDS));
  }

  lemma {:induction false} ConflictGrowsTrail(g: seq<Send>, r: seq<Send>, p: seq<Send>, c: Setting)
    requires |r| == |g| && forall i | 0 <= i < |g| :: r[i] == ConflictRule(g[i], c)
    requires multiset(g) == multiset(p) && !Clear(p, c)
    ensures TotalTrail(r) > TotalTrail(g)
  {
    var i, k :| 0 <= i < |p| && 0 <= k < |c.transactional| && Near(c.transactional[k], p[i].at);
    assert p[i] in multiset(g);
    var j :| 0 <= j < |g| && g[j] == p[i];
    assert |g[j].trail| < |r[j].trail|;
    TrailsGrow(g, r);
  }

  lemma ConflictLeavesATrail(submitted: int, c: Setting)
    requires !Clear(IntakePlan(submitted, c.zone), c)
    ensures TotalTrail(RulesPass(StartingPlan(submitted, c, BOTH), c)) > TotalTrail(IntakePlan(submitted, c.zone))
  {
    var g, p := PlannedAll(IDEAL_SLOTS, submitted, c.zone), IntakePlan(submitted, c.zone);
    RulesPassIsConflicts(submitted, c);
    GridIsPlan(submitted, c.zone);
    ConflictGrowsTrail(g, RulesPass(StartingPlan(submitted, c, BOTH), c), p, c);
    SortedGridIsPlan(submitted, c.zone);
    SortKeepsTrail(g);
  }

  /**
    At intake the plan is the closed form exactly when no transactional send, however
    many there are and whenever they go out, comes within ninety minutes of one of its
    nine times; then the loop settles within two rounds and all rules hold.
   */
  lemma {:induction false} IntakeScheduleIsClosedFormIff(submitted: int, c: Setting)
    ensures Schedule(submitted, c, BOTH) == IntakePlan(submitted, c.zone)
            <==> Clear(IntakePlan(submitted, c.zone), c)
    ensures Clear(IntakePlan(submitted, c.zone), c) ==>
              SettlesWithin(StartingPlan(submitted, c, BOTH), c, 2) && RulesHold(Schedule(submitted, c, BOTH), c)
  {
    if Clear(IntakePlan(submitted, c.zone), c) {
      ClearScheduleIsPlan(submitted, c);
    } else {
      ConflictLeavesATrail(submitted, c);
      ScheduleKeepsTrail(submitted, c, BOTH);
    }
  }

  lemma PlannedWellAfter(slot: Slot, submitted: int, zone: int)
    requires GridSlot(slot)
    ensures Planned(slot, submitted, zone).at > submitted + 1_800_000 + CONFLICT_WINDOW
  {
  }

  lemma LatePlanIsClear(submitted: int, c: Setting)
    requires IntakeCall(submitted, c)
    ensures Clear(IntakePlan(submitted, c.zone), c)
  {
    PlanIsWellAfter(submitted, c.zone);
  }

  lemma PlanIsWellAfter(submitted: int, zone: int)
    ensures forall i | 0 <= i < |IntakePlan(submitted, zone)| ::
              IntakePlan(submitted, zone)[i].at > submitted + 1_800_000 + CONFLICT_WINDOW
  {
    GridSlots();
    forall i | 0 <= i < 9 ensures Planned(SEND_ORDER[i], submitted, zone).at > submitted + 1_800_000 + CONFLICT_WINDOW {
      PlannedWellAfter(SEND_ORDER[i], submitted, zone);
    }
  }

  /** A confirmation within half an hour of the submission is always clear of the plan. */
  lemma PromptConfirmationIsClear(submitted: int, c: Setting)
    requires IntakeCall(submitted, c)
    ensures Clear(IntakePlan(submitted, c.zone), c)
    ensures Schedule(submitted, c, BOTH) == IntakePlan(submitted, c.zone)
  {
    LatePlanIsClear(submitted, c);
    IntakeScheduleIsClosedFormIff(submitted, c);
  }
}
