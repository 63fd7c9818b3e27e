/**
  Which reminders there are and when each is due, in the system's own words rather
  than as a table: three calls at 10:00 on days 1 to 3; of the six bank steps one in
  the evening of day 0, then 14:30 and 18:00 on days 1 and 2, and 14:30 on day 3.
 */
module DripGrid {
  import opened DripSchedule
  import opened DripSorting
  import opened DripRules
  import opened DripIntakePlan
  import opened DripTrail

  /* --------------------------------------------------------------- the steps planned */

  function StepsIn(key: SequenceKey): nat {
    match key
    case CallIn => 3
    case BankVerification => 6
  }

  /** Step `step` of the sequence, where the rules put it. */
  function SlotOf(key: SequenceKey, step: nat): Slot {
    match key
    case CallIn => Slot(CallIn, step, step, At(10, 0), step == 3)
    case BankVerification =>
      var time := if step == 1 then Immediate else if step % 2 == 0 then At(14, 30) else At(18, 0);
      Slot(BankVerification, step, step / 2, time, step == 6)
  }

  ghost predicate OnGrid(slot: Slot) {
    1 <= slot.step <= StepsIn(slot.key) && slot == SlotOf(slot.key, slot.step)
  }

  lemma {:induction false} WantedCounts(keys: set<SequenceKey>, slots: seq<Slot>, slot: Slot)
    ensures multiset(Wanted(keys, slots))[slot] == if slot.key in keys then multiset(slots)[slot] else 0
  {
    if slots != [] {
      WantedCounts(keys, slots[1..], slot);
      assert slots == [slots[0]] + slots[1..];
    }
  }

  lemma {:induction false} CountedOnce<T>(s: seq<T>, x: T)
    requires forall i, j | 0 <= i < j < |s| :: s[i] != s[j]
    ensures multiset(s)[x] == if x in s then 1 else 0
  {
    if s != [] {
      CountedOnce(s[1..], x);
      assert s == [s[0]] + s[1..];
    }
  }

  /** Where the grid as data lists a slot. */
  function Place(slot: Slot): int {
    if slot.key == CallIn then slot.step - 1 else slot.step + 2
  }

  lemma GridLists(i: nat)
    requires i < |IDEAL_SLOTS|
    ensures OnGrid(IDEAL_SLOTS[i]) && Place(IDEAL_SLOTS[i]) == i
  {
  }

  lemma ListedAtItsPlace(slot: Slot)
    requires OnGrid(slot)
    ensures 0 <= Place(slot) < |IDEAL_SLOTS| && IDEAL_SLOTS[Place(slot)] == slot
  {
  }

  /** A list that has every slot of the grid at its place, and nothing else. */
  ghost predicate ListsTheGrid(slots: seq<Slot>) {
    && (forall i | 0 <= i < |slots| :: OnGrid(slots[i]) && Place(slots[i]) == i)
    && (forall slot | OnGrid(slot) :: 0 <= Place(slot) < |slots| && slots[Place(slot)] == slot)
  }

  lemma GridIsListed()
    ensures ListsTheGrid(IDEAL_SLOTS)
  {
    forall i | 0 <= i < |IDEAL_SLOTS| ensures OnGrid(IDEAL_SLOTS[i]) && Place(IDEAL_SLOTS[i]) == i {
      GridLists(i);
    }
    forall slot | OnGrid(slot) ensures 0 <= Place(slot) < |IDEAL_SLOTS| && IDEAL_SLOTS[Place(slot)] == slot {
      ListedAtItsPlace(slot);
    }
  }

  lemma ListedOnce(slots: seq<Slot>, slot: Slot)
    requires ListsTheGrid(slots)
    ensures multiset(slots)[slot] == if OnGrid(slot) then 1 else 0
  {
    forall i, j | 0 <= i < j < |slots| ensures slots[i] != slots[j] {
      assert Place(slots[i]) == i && Place(slots[j]) == j;
    }
    CountedOnce(slots, slot);
  }

  /** The grid as data lists each of those nine slots, and each once. */
  lemma TheGrid(slot: Slot)
    ensures multiset(IDEAL_SLOTS)[slot] == if OnGrid(slot) then 1 else 0
  {
    GridIsListed();
    ListedOnce(IDEAL_SLOTS, slot);
  }

  /**
    Whatever the transactional sends and however the loop ends, a plan for some
    sequences has each of their steps exactly once, and nothing else.
   */
  lemma {:induction false} EveryStepPlannedOnce(submitted: int, c: Setting, keys: set<SequenceKey>, slot: Slot)
    ensures multiset(Slots(Schedule(submitted, c, keys)))[slot] == if slot.key in keys && OnGrid(slot) then 1 else 0
  {
    ScheduleIsHonest(submitted, c, keys);
    WantedCounts(keys, IDEAL_SLOTS, slot);
    TheGrid(slot);
  }

  lemma CountedTwice<T>(s: seq<T>, i: nat, j: nat)
    requires i < j < |s| && s[i] == s[j]
    ensures multiset(s)[s[i]] >= 2
  {
    assert s == s[..j] + [s[j]] + s[j + 1..];
    assert s[i] in s[..j];
  }

  lemma PlannedIsOnGrid(submitted: int, c: Setting, keys: set<SequenceKey>, i: nat)
    requires i < |Schedule(submitted, c, keys)|
    ensures var slot := Schedule(submitted, c, keys)[i].slot;
            slot.key in keys && OnGrid(slot)
  {
    var slots := Slots(Schedule(submitted, c, keys));
    assert slots[i] in multiset(slots);
    EveryStepPlannedOnce(submitted, c, keys, slots[i]);
  }

  lemma StepIsPlanned(submitted: int, c: Setting, keys: set<SequenceKey>, slot: Slot) returns (i: nat)
    requires slot.key in keys && OnGrid(slot)
    ensures i < |Schedule(submitted, c, keys)| && Schedule(submitted, c, keys)[i].slot == slot
  {
    var slots := Slots(Schedule(submitted, c, keys));
    EveryStepPlannedOnce(submitted, c, keys, slot);
    assert slot in multiset(slots);
    i :| 0 <= i < |slots| && slots[i] == slot;
  }

  /** In particular no two sends of a plan are the same step of the same sequence. */
  lemma {:induction false} NoStepTwice(submitted: int, c: Setting, keys: set<SequenceKey>, i: nat, j: nat)
    requires i < j < |Schedule(submitted, c, keys)|
    ensures var plan := Schedule(submitted, c, keys);
            plan[i].slot.key != plan[j].slot.key || plan[i].slot.step != plan[j].slot.step
  {
    var slots := Slots(Schedule(submitted, c, keys));
    PlannedIsOnGrid(submitted, c, keys, i);
    PlannedIsOnGrid(submitted, c, keys, j);
    if slots[i] == slots[j] {
      CountedTwice(slots, i, j);
      EveryStepPlannedOnce(submitted, c, keys, slots[i]);
    }
  }

  /* ------------------------------------------------------------- when each is due */

  /** The instant reads `hour:minute` on local day `day`. */
  ghost predicate Reads(t: int, zone: int, day: int, hour: nat, minute: nat) {
    LocalDay(t, zone) == day && LocalTime(t, zone) == (60 * hour + minute) * 60_000
  }

  /** The day the finals go out: the third, but Monday when that is a Sunday. */
  function LastDay(today: int): int {
    if (today + 3 + 4) % 7 == 0 then today + 4 else today + 3
  }

  /** When a step is due that no transactional send has moved, on the borrower's clock. */
  ghost predicate Due(slot: Slot, t: int, submitted: int, zone: int) {
    var today, step := LocalDay(submitted, zone), slot.step;
    match slot.key
    case CallIn => Reads(t, zone, if step == 3 then LastDay(today) else today + step, 10, 0)
    case BankVerification =>
      if step == 1 then
        if LocalTime(submitted, zone) < 16 * 3_600_000 then Reads(t, zone, today, 18, 0)
        else if LocalTime(submitted, zone) < 18 * 3_600_000 then t == submitted + 3 * 3_600_000
        else Reads(t, zone, today + 1, 8, 0)
      else if step == 6 then Reads(t, zone, LastDay(today), 14, 30)
      else if step % 2 == 0 then Reads(t, zone, today + step / 2, 14, 30)
      else Reads(t, zone, today + step / 2, 18, 0)
  }

  ghost predicate OnTime(s: Send, submitted: int, zone: int) {
    OnGrid(s.slot) && Due(s.slot, s.at, submitted, zone)
  }

  lemma DueOnce(slot: Slot, t: int, u: int, submitted: int, zone: int)
    requires Due(slot, t, submitted, zone) && Due(slot, u, submitted, zone)
    ensures t == u
  {
  }

  lemma FirstBankIsDue(submitted: int, zone: int)
    ensures OnTime(FirstBankSend(submitted, zone), submitted, zone)
  {
    ClockReads(LocalDay(submitted, zone), 18, 0, zone);
    ClockReads(LocalDay(submitted, zone) + 1, 8, 0, zone);
  }

  lemma ClockReads(day: int, hour: nat, minute: nat, zone: int)
    requires hour < 24 && minute < 60
    ensures Reads(Instant(day, hour, minute, zone), zone, day, hour, minute)
  {
  }

  lemma KeptIsDue(key: SequenceKey, step: nat, submitted: int, zone: int)
    requires 1 <= step <= StepsIn(key) && (key == BankVerification ==> step >= 2)
    ensures OnTime(Kept(SlotOf(key, step), submitted, zone), submitted, zone)
  {
    var slot := SlotOf(key, step);
    var day := LocalDay(submitted, zone) + slot.day;
    ClockReads(day, slot.time.hour, slot.time.minute, zone);
    ClockReads(day + 1, slot.time.hour, slot.time.minute, zone);
  }

  lemma PlannedIsDue(slot: Slot, submitted: int, zone: int)
    requires OnGrid(slot)
    ensures Planned(slot, submitted, zone).slot == slot && OnTime(Planned(slot, submitted, zone), submitted, zone)
  {
    if slot.key == BankVerification && slot.step == 1 {
      FirstBankIsDue(submitted, zone);
    } else {
      KeptIsDue(slot.key, slot.step, submitted, zone);
    }
  }

  /** Due times follow the steps of each sequence. */
  lemma DueInStepOrder(a: Send, b: Send, submitted: int, zone: int)
    requires OnTime(a, submitted, zone) && OnTime(b, submitted, zone)
    requires a.slot.key == b.slot.key && a.at < b.at
    ensures a.slot.step < b.slot.step
  {
  }

  lemma OrderIsGrid(k: nat)
    requires k < |SEND_ORDER|
    ensures OnGrid(SEND_ORDER[k])
  {
    forall i | 0 <= i < |IDEAL_SLOTS| ensures OnGrid(IDEAL_SLOTS[i]) {
      GridLists(i);
    }
  }

  lemma IntakePlanIsOnTime(submitted: int, zone: int)
    ensures AllOnTime(IntakePlan(submitted, zone), submitted, zone)
  {
    forall k | 0 <= k < |IntakePlan(submitted, zone)| ensures OnTime(IntakePlan(submitted, zone)[k], submitted, zone) {
      OrderIsGrid(k);
      PlannedIsDue(SEND_ORDER[k], submitted, zone);
    }
  }

  /** Sends that are due, in the order of their times, are in the order of their steps. */
  ghost predicate StepsInOrder(plan: seq<Send>) {
    forall i, j | 0 <= i < j < |plan| && plan[i].slot.key == plan[j].slot.key :: plan[i].slot.step < plan[j].slot.step
  }

  ghost predicate AllOnTime(plan: seq<Send>, submitted: int, zone: int) {
    forall i | 0 <= i < |plan| :: OnTime(plan[i], submitted, zone)
  }

  lemma OnTimeIsInOrder(plan: seq<Send>, submitted: int, zone: int)
    requires AllOnTime(plan, submitted, zone) && StrictlySorted(plan)
    ensures StepsInOrder(plan)
  {
    forall i, j | 0 <= i < j < |plan| && plan[i].slot.key == plan[j].slot.key
      ensures plan[i].slot.step < plan[j].slot.step
    {
      DueInStepOrder(plan[i], plan[j], submitted, zone);
    }
  }

  /** No transactional send is within ninety minutes of a time at which a step is due. */
  ghost predicate NothingNear(submitted: int, c: Setting) {
    forall slot, t | OnGrid(slot) && Due(slot, t, submitted, c.zone) :: !Struck(t, c)
  }

  lemma NothingNearPlan(submitted: int, c: Setting)
    requires NothingNear(submitted, c)
    ensures Clear(IntakePlan(submitted, c.zone), c)
  {
    var plan := IntakePlan(submitted, c.zone);
    IntakePlanIsOnTime(submitted, c.zone);
    forall i | 0 <= i < |plan| ensures !Struck(plan[i].at, c) {
      assert OnTime(plan[i], submitted, c.zone);
    }
    UnstruckIsClear(plan, c);
  }

  lemma PlannedWhenDue(slot: Slot, t: int, submitted: int, zone: int)
    requires OnGrid(slot) && Due(slot, t, submitted, zone)
    ensures Planned(slot, submitted, zone).slot == slot && Planned(slot, submitted, zone).at == t
  {
    PlannedIsDue(slot, submitted, zone);
    DueOnce(slot, t, Planned(slot, submitted, zone).at, submitted, zone);
  }

  /** Every step of the grid has its place in intake's plan, at its due time. */
  lemma DueIsPlanned(slot: Slot, t: int, submitted: int, zone: int) returns (i: nat)
    requires OnGrid(slot) && Due(slot, t, submitted, zone)
    ensures i < |IntakePlan(submitted, zone)|
    ensures IntakePlan(submitted, zone)[i].slot == slot && IntakePlan(submitted, zone)[i].at == t
  {
    ListedAtItsPlace(slot);
    PlannedWhenDue(slot, t, submitted, zone);
    var grid, plan := PlannedAll(IDEAL_SLOTS, submitted, zone), IntakePlan(submitted, zone);
    GridIsPlan(submitted, zone);
    assert grid[Place(slot)] in multiset(plan);
    i :| 0 <= i < |plan| && plan[i] == grid[Place(slot)];
  }

  lemma MovedIsNotOnTime(plan: seq<Send>, slot: Slot, t: int, submitted: int, zone: int)
    requires Due(slot, t, submitted, zone) && Has(plan, MovedAside(slot, t + 2 * HOUR))
    ensures !AllOnTime(plan, submitted, zone)
  {
    var s :| s in plan && MovedAside(slot, t + 2 * HOUR)(s);
    if OnTime(s, submitted, zone) {
      DueOnce(slot, s.at, t, submitted, zone);
    }
  }

  /** A step whose due time is struck is sent at another. */
  lemma StruckIsNotOnTime(submitted: int, c: Setting, slot: Slot, t: int)
    requires OnGrid(slot) && Due(slot, t, submitted, c.zone) && Struck(t, c)
    ensures !AllOnTime(Schedule(submitted, c, BOTH), submitted, c.zone)
  {
    var i := DueIsPlanned(slot, t, submitted, c.zone);
    StruckIsMovedAside(submitted, c, i);
    MovedIsNotOnTime(Schedule(submitted, c, BOTH), slot, t, submitted, c.zone);
  }

  /**
    At intake every step is sent when it is due on the borrower's clock exactly when no
    transactional send is within ninety minutes of a due time; and then each sequence
    goes out in the order of its steps.
   */
  lemma {:induction false} IntakeIsOnTimeIff(submitted: int, c: Setting)
    ensures AllOnTime(Schedule(submitted, c, BOTH), submitted, c.zone) <==> NothingNear(submitted, c)
    ensures NothingNear(submitted, c) ==> StepsInOrder(Schedule(submitted, c, BOTH))
  {
    if NothingNear(submitted, c) {
      NothingNearPlan(submitted, c);
      IntakeScheduleIsClosedFormIff(submitted, c);
      PlanIsSpaced(submitted, c.zone);
      IntakePlanIsOnTime(submitted, c.zone);
      OnTimeIsInOrder(IntakePlan(submitted, c.zone), submitted, c.zone);
    } else {
      var slot, t :| OnGrid(slot) && Due(slot, t, submitted, c.zone) && Struck(t, c);
      StruckIsNotOnTime(submitted, c, slot, t);
    }
  }
}
