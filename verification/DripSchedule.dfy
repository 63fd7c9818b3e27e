/**
  The drip scheduler of src/queue/drip/drip.schedule.ts.

  Instants are integers counting milliseconds.  A borrower's timezone is a fixed
  offset: local time is the instant plus `zone`.  Day 0 of the count is a
  Thursday, so the weekday of local day `d` is `(d + 4) % 7`, Sunday being 0.
 */
module DripSchedule {

  const MIN_GAP := 7_200_000
  const CONFLICT_WINDOW := 5_400_000
  const CONFLICT_SHIFT := 7_200_000
  const QUIET_START := 21
  const QUIET_END := 8
  const LATE_SUBMISSION_HOUR := 16
  const LATE_SUBMISSION_DELAY := 10_800_000
  const MAX_ROUNDS := 8

  datatype SequenceKey = CallIn | BankVerification

  /** `Immediate` is the grid's "day 0" entry; the others name a local wall-clock time. */
  datatype SlotTime = Immediate | At(hour: nat, minute: nat)

  datatype Slot = Slot(key: SequenceKey, step: nat, day: nat, time: SlotTime, isFinal: bool)

  datatype Adjustment =
    | LateSubmissionOffset
    | WeekendFinalShift
    | QuietHours
    | TransactionalConflict
    | MinGap

  /** A planned send: the slot it fills, the resolved instant, and the trail of rules that moved it. */
  datatype Send = Send(slot: Slot, at: int, trail: seq<Adjustment>)

  /** What the rules look at besides the send itself. */
  datatype Setting = Setting(zone: int, transactional: seq<int>)

  const IDEAL_SLOTS: seq<Slot> :=
    [ Slot(CallIn, 1, 1, At(10, 0), false),
      Slot(CallIn, 2, 2, At(10, 0), false),
      Slot(CallIn, 3, 3, At(10, 0), true),
      Slot(BankVerification, 1, 0, Immediate, false),
      Slot(BankVerification, 2, 1, At(14, 30), false),
      Slot(BankVerification, 3, 1, At(18, 0), false),
      Slot(BankVerification, 4, 2, At(14, 30), false),
      Slot(BankVerification, 5, 2, At(18, 0), false),
      Slot(BankVerification, 6, 3, At(14, 30), true) ]

  /* ------------------------------------------------------- wall-clock helpers */

  function LocalDay(t: int, zone: int): (d: int)
    ensures d * 86_400_000 <= t + zone < (d + 1) * 86_400_000
  {
    (t + zone) / 86_400_000
  }

  /** Milliseconds since local midnight. */
  function LocalTime(t: int, zone: int): (m: int)
    ensures 0 <= m < 86_400_000
    ensures t + zone == LocalDay(t, zone) * 86_400_000 + m
  {
    (t + zone) % 86_400_000
  }

  function LocalHour(t: int, zone: int): (h: int)
    ensures 0 <= h < 24
    ensures h * 3_600_000 <= LocalTime(t, zone) < (h + 1) * 3_600_000
  {
    LocalTime(t, zone) / 3_600_000
  }

  function Weekday(t: int, zone: int): (w: int)
    ensures 0 <= w < 7
  {
    (LocalDay(t, zone) + 4) % 7
  }

  /** The instant that reads `hour:minute` on local day `d`. */
  function Instant(d: int, hour: int, minute: int, zone: int): int {
    d * 86_400_000 + hour * 3_600_000 + minute * 60_000 - zone
  }

  function AtLocalTime(anchor: int, zone: int, dayOffset: int, hour: int, minute: int): int {
    Instant(LocalDay(anchor, zone) + dayOffset, hour, minute, zone)
  }

  function NextLocalDayAt(t: int, zone: int, hour: int): int {
    Instant(LocalDay(t, zone) + 1, hour, 0, zone)
  }

  function SameLocalDayAt(t: int, zone: int, hour: int): int {
    Instant(LocalDay(t, zone), hour, 0, zone)
  }

  /** Same wall-clock time, `days` local days later; the offset being fixed, whole days. */
  function ShiftLocalDays(t: int, days: int): int {
    t + days * 86_400_000
  }

  /* -------------------------------------------------------------- the rules */

  predicate InQuietHours(t: int, zone: int) {
    LocalHour(t, zone) >= QUIET_START || LocalHour(t, zone) < QUIET_END
  }

  function ApplyQuietHours(t: int, zone: int): int {
    if LocalHour(t, zone) < QUIET_END then SameLocalDayAt(t, zone, QUIET_END)
    else if LocalHour(t, zone) >= QUIET_START then NextLocalDayAt(t, zone, QUIET_END)
    else t
  }

  predicate LandsOnSunday(t: int, zone: int) {
    Weekday(t, zone) == 0
  }

  predicate Near(a: int, b: int) {
    -CONFLICT_WINDOW <= a - b <= CONFLICT_WINDOW
  }

  predicate ConflictsWithTransactional(t: int, transactional: seq<int>) {
    exists i | 0 <= i < |transactional| :: Near(transactional[i], t)
  }

  function WeekendRule(s: Send, c: Setting): Send {
    if s.slot.isFinal && LandsOnSunday(s.at, c.zone)
    then s.(at := ShiftLocalDays(s.at, 1), trail := s.trail + [WeekendFinalShift])
    else s
  }

  function QuietRule(s: Send, c: Setting): Send {
    if InQuietHours(s.at, c.zone)
    then s.(at := ApplyQuietHours(s.at, c.zone), trail := s.trail + [QuietHours])
    else s
  }

  function ConflictRule(s: Send, c: Setting): Send {
    if ConflictsWithTransactional(s.at, c.transactional)
    then s.(at := s.at + CONFLICT_SHIFT, trail := s.trail + [TransactionalConflict])
    else s
  }

  /** The three per-step rules, in the order the loop applies them. */
  function StepRules(s: Send, c: Setting): Send {
    ConflictRule(QuietRule(WeekendRule(s, c), c), c)
  }

  function RulesPass(s: seq<Send>, c: Setting): (r: seq<Send>)
    ensures |r| == |s|
    ensures forall i | 0 <= i < |s| :: r[i] == StepRules(s[i], c)
  {
    seq(|s|, i requires 0 <= i < |s| => StepRules(s[i], c))
  }

  /** The minimum-gap rule between a send and the one already settled before it. */
  function GapRule(previous: Send, current: Send): Send {
    if current.at - previous.at < MIN_GAP
    then current.(at := previous.at + MIN_GAP, trail := current.trail + [MinGap])
    else current
  }

  /** The first `k` sends after the minimum-gap rule has walked over them. */
  function GapPass(s: seq<Send>, k: nat): (r: seq<Send>)
    requires k <= |s|
    ensures |r| == k
  {
    if k == 0 then []
    else if k == 1 then [s[0]]
    else
      var before := GapPass(s, k - 1);
      before + [GapRule(before[k - 2], s[k - 1])]
  }

  /* ----------------------------------------------------------- stable sorting */

  function Insert(s: seq<Send>, x: Send): (r: seq<Send>)
    ensures |r| == |s| + 1
  {
    if s == [] || s[|s| - 1].at <= x.at then s + [x]
    else Insert(s[..|s| - 1], x) + [s[|s| - 1]]
  }

  /** What sorting the list by send time yields; ties keep their order. */
  function StableSort(s: seq<Send>): (r: seq<Send>)
    ensures |r| == |s|
  {
    if s == [] then [] else Insert(StableSort(s[..|s| - 1]), s[|s| - 1])
  }

  /** The library sort the scheduler calls, on the list it sorts in place. */
  method SortInPlace(sends: array<Send>)
    modifies sends
    ensures sends[..] == StableSort(old(sends[..]))
  {
    var sorted := StableSort(sends[..]);
    forall i | 0 <= i < sends.Length {
      sends[i] := sorted[i];
    }
    assert sends[..] == sorted;
  }

  /* ------------------------------------------------------------- the fixpoint */

  function Round(s: seq<Send>, c: Setting): seq<Send> {
    var sorted := StableSort(RulesPass(s, c));
    GapPass(sorted, |sorted|)
  }

  /** The `changed` flag at the end of a round. */
  predicate RoundChanges(s: seq<Send>, c: Setting) {
    RulesPass(s, c) != s || Round(s, c) != StableSort(RulesPass(s, c))
  }

  /** The resolving loop with `rounds` rounds left. */
  function Resolve(s: seq<Send>, c: Setting, rounds: nat): seq<Send>
    decreases rounds
  {
    if rounds == 0 then s
    else if RoundChanges(s, c) then Resolve(Round(s, c), c, rounds - 1)
    else Round(s, c)
  }

  function Wanted(keys: set<SequenceKey>, slots: seq<Slot>): seq<Slot> {
    if slots == [] then []
    else (if slots[0].key in keys then [slots[0]] else []) + Wanted(keys, slots[1..])
  }

  function IdealAt(slot: Slot, submitted: int, zone: int): int {
    match slot.time
    case At(hour, minute) => AtLocalTime(submitted, zone, slot.day, hour, minute)
    case Immediate =>
      if LocalHour(submitted, zone) >= LATE_SUBMISSION_HOUR then submitted + LATE_SUBMISSION_DELAY
      else AtLocalTime(submitted, zone, 0, 18, 0)
  }

  function IdealTrail(slot: Slot, submitted: int, zone: int): seq<Adjustment> {
    if slot.time == Immediate && LocalHour(submitted, zone) >= LATE_SUBMISSION_HOUR
    then [LateSubmissionOffset] else []
  }

  function IdealSend(slot: Slot, submitted: int, zone: int): Send {
    Send(slot, IdealAt(slot, submitted, zone), IdealTrail(slot, submitted, zone))
  }

  function IdealSends(slots: seq<Slot>, submitted: int, zone: int): (r: seq<Send>)
    ensures |r| == |slots|
    ensures forall i | 0 <= i < |slots| :: r[i] == IdealSend(slots[i], submitted, zone)
  {
    seq(|slots|, i requires 0 <= i < |slots| => IdealSend(slots[i], submitted, zone))
  }

  function StartingPlan(submitted: int, c: Setting, keys: set<SequenceKey>): seq<Send> {
    IdealSends(Wanted(keys, IDEAL_SLOTS), submitted, c.zone)
  }

  /** What `buildDripSchedule` returns. */
  function Schedule(submitted: int, c: Setting, keys: set<SequenceKey>): seq<Send> {
    StableSort(Resolve(StartingPlan(submitted, c, keys), c, MAX_ROUNDS))
  }

  /**
    The scheduler itself, on an array whose entries are updated in place: the
    ideal slots, then up to eight rounds of rules, sort and minimum gap, stopping
    at the first round that changes nothing.
   */
  method BuildDripSchedule(submitted: int, zone: int, transactional: seq<int>, keys: set<SequenceKey>)
    returns (sends: array<Send>)
    ensures fresh(sends)
    ensures sends[..] == Schedule(submitted, Setting(zone, transactional), keys)
  {
    var c := Setting(zone, transactional);
    var slots := Wanted(keys, IDEAL_SLOTS);
    sends := new Send[|slots|](i requires 0 <= i < |slots| => IdealSend(slots[i], submitted, zone));
    assert sends[..] == IdealSends(slots, submitted, zone);
    ResolveInPlace(sends, c);
    SortInPlace(sends);
  }

  /** The rounds of the scheduler: rules, sort, minimum gap, until one changes nothing. */
  method ResolveInPlace(sends: array<Send>, c: Setting)
    modifies sends
    ensures sends[..] == Resolve(old(sends[..]), c, MAX_ROUNDS)
  {
    ghost var plan := sends[..];
    var round := 0;
    while round < MAX_ROUNDS
      invariant 0 <= round <= MAX_ROUNDS
      invariant Resolve(plan, c, MAX_ROUNDS) == Resolve(sends[..], c, MAX_ROUNDS - round)
    {
      ghost var before := sends[..];
      var changed := ApplyStepRules(sends, c);
      SortInPlace(sends);
      var pushed := ApplyMinGap(sends);
      changed := changed || pushed;
      assert sends[..] == Round(before, c) && changed == RoundChanges(before, c);
      if !changed {
        break;
      }
      round := round + 1;
    }
  }

  /** Part 2a of a round: every send in turn through the per-step rules. */
  method ApplyStepRules(sends: array<Send>, c: Setting) returns (changed: bool)
    modifies sends
    ensures sends[..] == RulesPass(old(sends[..]), c)
    ensures changed == (sends[..] != old(sends[..]))
  {
    changed := false;
    ghost var was := sends[..];
    var i := 0;
    while i < sends.Length
      invariant 0 <= i <= sends.Length
      invariant forall j | 0 <= j < i :: sends[j] == StepRules(was[j], c)
      invariant forall j | i <= j < sends.Length :: sends[j] == was[j]
      invariant changed <==> exists j | 0 <= j < i :: sends[j] != was[j]
    {
      var send := sends[i];
      var moved := false;
      if send.slot.isFinal && LandsOnSunday(send.at, c.zone) {
        send := send.(at := ShiftLocalDays(send.at, 1), trail := send.trail + [WeekendFinalShift]);
        moved := true;
      }
      if InQuietHours(send.at, c.zone) {
        send := send.(at := ApplyQuietHours(send.at, c.zone), trail := send.trail + [QuietHours]);
        moved := true;
      }
      if ConflictsWithTransactional(send.at, c.transactional) {
        send := send.(at := send.at + CONFLICT_SHIFT, trail := send.trail + [TransactionalConflict]);
        moved := true;
      }
      assert send == StepRules(was[i], c);
      assert |send.trail| >= |was[i].trail| && (moved <==> |send.trail| > |was[i].trail|);
      assert !moved ==> send == was[i];
      sends[i] := send;
      assert moved <==> sends[i] != was[i];
      changed := changed || moved;
      i := i + 1;
    }
  }

  /** Part 2b of a round, on the sorted sends. */
  method ApplyMinGap(sends: array<Send>) returns (changed: bool)
    modifies sends
    ensures sends[..] == GapPass(old(sends[..]), sends.Length)
    ensures changed == (sends[..] != old(sends[..]))
  {
    changed := false;
    ghost var was := sends[..];
    if sends.Length == 0 {
      return;
    }
    var i := 1;
    assert sends[..1] == GapPass(was, 1);
    while i < sends.Length
      invariant 1 <= i <= sends.Length
      invariant sends[..i] == GapPass(was, i)
      invariant forall j | i <= j < sends.Length :: sends[j] == was[j]
      invariant changed <==> exists j | 0 <= j < i :: sends[j] != was[j]
    {
      var previous, current := sends[i - 1], sends[i];
      if current.at - previous.at < MIN_GAP {
        sends[i] := current.(at := previous.at + MIN_GAP, trail := current.trail + [MinGap]);
        changed := true;
        assert |sends[i].trail| != |was[i].trail|;
      }
      assert GapPass(was, i)[i - 1] == previous;
      assert sends[..i + 1] == sends[..i] + [GapRule(previous, was[i])];
      i := i + 1;
    }
    assert sends[..i] == sends[..];
  }
}
