/**
  How close together transactional sends may be before the round cap stops the loop:
  more than nine hours is far enough, nine is not.  Two sends on each of two days, nine
  hours apart, make a submission of the evening before need ten rounds, and the plan
  that is returned has a reminder at 22:00.

  Rounds are followed on half hours since the midnight before the first of those days.
 */
module DripBusyDays {
  import opened DripSchedule
  import opened DripSorting
  import opened DripRules
  import opened DripSparse
  import opened DripSparseSchedule

  const HALF_HOUR := 1_800_000

  /** On each of two days from midnight `m`, a transactional send around 09:00 and another around 17:00. */
  ghost predicate BusyDays(c: Setting, m: int) {
    && |c.transactional| == 4
    && Clock(8, 30) <= c.transactional[0] - m <= Clock(9, 30)
    && Clock(16, 30) <= c.transactional[1] - m <= Clock(17, 30)
    && Clock(32, 30) <= c.transactional[2] - m <= Clock(33, 30)
    && Clock(40, 30) <= c.transactional[3] - m <= Clock(41, 30)
  }

  function OnClock(h: seq<int>, m: int): (r: seq<int>)
    ensures |r| == |h|
    ensures forall i | 0 <= i < |h| :: r[i] == m + h[i] * HALF_HOUR
  {
    seq(|h|, i requires 0 <= i < |h| => m + h[i] * HALF_HOUR)
  }

  /* ------------------------------------------------------ the rules on half hours */

  /** The half hours that come up; from the third morning on, any in the daytime. */
  predicate ComesUp(n: int) {
    || n in {16, 20, 24, 28, 29, 32, 36, 40, 44, 68, 72, 76, 77, 80, 84, 88, 92}
    || (n >= 112 && 16 <= n % 48 < 42)
  }

  function AfterQuiet(n: int): int {
    if n == 44 || n == 92 then n + 20 else n
  }

  predicate Struck(n: int) {
    n in {16, 20, 32, 36, 64, 68, 80, 84}
  }

  function HalfStep(n: int): int {
    if Struck(AfterQuiet(n)) then AfterQuiet(n) + 4 else AfterQuiet(n)
  }

  lemma QuietByHalfHours(n: int, m: int, zone: int)
    requires Midnight(m, zone) && ComesUp(n)
    ensures ApplyQuietHours(m + n * HALF_HOUR, zone) == m + AfterQuiet(n) * HALF_HOUR
  {
    var d := (m + zone) / 86_400_000;
    var t := m + n * HALF_HOUR;
    assert m + zone == d * 86_400_000;
    assert t + zone == (d + n / 48) * 86_400_000 + (n % 48) * HALF_HOUR;
    assert LocalDay(t, zone) == d + n / 48 && LocalTime(t, zone) == (n % 48) * HALF_HOUR;
  }

  lemma StruckByHalfHours(n: int, m: int, c: Setting)
    requires BusyDays(c, m) && (ComesUp(n) || n == 64) && n != 44 && n != 92
    ensures ConflictsWithTransactional(m + n * HALF_HOUR, c.transactional) <==> Struck(n)
  {
    var t := m + n * HALF_HOUR;
    assert Near(c.transactional[0], t) <==> n in {16, 20};
    assert Near(c.transactional[1], t) <==> n in {32, 36};
    assert Near(c.transactional[2], t) <==> n in {64, 68};
    assert Near(c.transactional[3], t) <==> n in {80, 84};
  }

  lemma StepByHalfHours(n: int, m: int, c: Setting)
    requires Midnight(m, c.zone) && BusyDays(c, m) && ComesUp(n)
    ensures StepTime(m + n * HALF_HOUR, c) == m + HalfStep(n) * HALF_HOUR
  {
    QuietByHalfHours(n, m, c.zone);
    StruckByHalfHours(AfterQuiet(n), m, c);
  }

  function HalfSteps(h: seq<int>): (r: seq<int>)
    ensures |r| == |h|
    ensures forall i | 0 <= i < |h| :: r[i] == HalfStep(h[i])
  {
    seq(|h|, i requires 0 <= i < |h| => HalfStep(h[i]))
  }

  ghost predicate Stepwise(ts: seq<int>) {
    forall i | 0 < i < |ts| :: ts[i - 1] <= ts[i]
  }

  /** The minimum gap, four half hours, walks over `s` and leaves `next`. */
  ghost predicate Spread(s: seq<int>, next: seq<int>) {
    && s != [] && |next| == |s| && next[0] == s[0]
    && forall i | 0 < i < |s| :: next[i] == Max(s[i], next[i - 1] + 4)
  }

  ghost predicate AllComeUp(h: seq<int>) {
    forall i | 0 <= i < |h| :: ComesUp(h[i])
  }

  /** A round takes half hours `h` to `next`. */
  ghost predicate Leads(h: seq<int>, next: seq<int>) {
    AllComeUp(h) && Stepwise(HalfSteps(h)) && Spread(HalfSteps(h), next)
  }

  lemma {:induction false} StepwiseOrdered(ts: seq<int>)
    requires Stepwise(ts)
    ensures Ordered(ts)
  {
    if |ts| > 1 {
      StepwiseOrdered(ts[..|ts| - 1]);
      forall i, j | 0 <= i < j < |ts| ensures ts[i] <= ts[j] {
        if j == |ts| - 1 && i < j - 1 { assert ts[..|ts| - 1][i] <= ts[..|ts| - 1][j - 1]; }
        else if j < |ts| - 1 { assert ts[..|ts| - 1][i] <= ts[..|ts| - 1][j]; }
      }
    }
  }

  lemma StepsOnClock(h: seq<int>, m: int, c: Setting)
    requires Midnight(m, c.zone) && BusyDays(c, m) && AllComeUp(h)
    ensures Steps(OnClock(h, m), c) == OnClock(HalfSteps(h), m)
  {
    var ts := OnClock(HalfSteps(h), m);
    forall i | 0 <= i < |h| ensures Steps(OnClock(h, m), c)[i] == ts[i] {
      StepByHalfHours(h[i], m, c);
    }
  }

  lemma SpreadOnClock(s: seq<int>, next: seq<int>, m: int)
    requires Stepwise(s) && Spread(s, next)
    ensures Ordered(OnClock(s, m)) && Walk(OnClock(s, m)) == OnClock(next, m)
  {
    StepwiseOrdered(OnClock(s, m));
    WalkIs(OnClock(s, m), OnClock(next, m));
  }

  lemma LeadsOnClock(h: seq<int>, next: seq<int>, m: int, c: Setting)
    requires Midnight(m, c.zone) && BusyDays(c, m) && Leads(h, next)
    ensures Steps(OnClock(h, m), c) == OnClock(HalfSteps(h), m)
    ensures Ordered(OnClock(HalfSteps(h), m))
    ensures Walk(OnClock(HalfSteps(h), m)) == OnClock(next, m)
  {
    StepsOnClock(h, m, c);
    SpreadOnClock(HalfSteps(h), next, m);
  }

  /* ------------------------------------------------------------ rounds of the plan */

  ghost predicate NoneAfter(h: seq<int>, last: int) {
    forall i | 0 <= i < |h| :: h[i] <= last
  }

  /** The half hours of a plan round by round, `last` being the latest: each of `n` rounds changes them. */
  ghost predicate Course(course: nat -> seq<int>, n: nat, last: int) {
    forall i: nat | i < n ::
      && Leads(course(i), course(i + 1)) && HalfSteps(course(i)) != course(i)
      && NoneAfter(course(i), last)
  }

  /** The plan stands at half hours `h`, its finals no earlier than `f`. */
  ghost predicate StandsAt(p: seq<Send>, h: seq<int>, m: int, f: int) {
    Times(p) == OnClock(h, m) && FinalsFrom(p, f)
  }

  ghost predicate BusyEvening(c: Setting, m: int, f: int) {
    Midnight(m, c.zone) && BusyDays(c, m) && Workday(f, c.zone)
  }

  lemma StandsInTime(p: seq<Send>, h: seq<int>, m: int, f: int, last: int)
    requires StandsAt(p, h, m, f) && NoneAfter(h, last)
    ensures forall j | 0 <= j < |p| :: p[j].at <= m + last * HALF_HOUR
  {
    forall j | 0 <= j < |p| ensures p[j].at <= m + last * HALF_HOUR {
      assert p[j].at == Times(p)[j] == m + h[j] * HALF_HOUR;
    }
  }

  lemma OnClockTellsApart(a: seq<int>, b: seq<int>, m: int)
    requires OnClock(a, m) == OnClock(b, m)
    ensures a == b
  {
    forall i | 0 <= i < |a| ensures |a| == |b| && a[i] == b[i] {
      assert |OnClock(a, m)| == |OnClock(b, m)| && OnClock(a, m)[i] == OnClock(b, m)[i];
    }
  }

  lemma RoundLeads(p: seq<Send>, next: seq<Send>, h: seq<int>, h': seq<int>, c: Setting, m: int, f: int, last: int)
    requires StandsAt(p, h, m, f) && BusyEvening(c, m, f) && Leads(h, h') && next == Round(p, c)
    requires m + last * HALF_HOUR < f + 86_400_000 && NoneAfter(h, last)
    ensures StandsAt(next, h', m, f)
    ensures HalfSteps(h) != h ==> RoundChanges(p, c)
  {
    LeadsOnClock(h, h', m, c);
    StandsInTime(p, h, m, f, last);
    RulesPassTimes(p, c, f, m + last * HALF_HOUR);
    RoundTimes(p, c, OnClock(HalfSteps(h), m));
    RoundKeepsFinals(p, c, f);
    if RulesPass(p, c) == p {
      OnClockTellsApart(HalfSteps(h), h, m);
    }
  }

  /** What a plan meets round by round. */
  type Milestones = (seq<Send>, nat) -> bool

  ghost function On(course: nat -> seq<int>, m: int, f: int): Milestones {
    (q: seq<Send>, i: nat) => StandsAt(q, course(i), m, f)
  }

  /** The first `n` rounds each change the plan, and meet the next milestone. */
  ghost predicate KeepsGoing(meets: Milestones, n: nat, c: Setting) {
    forall q, next, i: nat | meets(q, i) && i < n && IsRound(q, next, c) ::
      meets(next, i + 1) && RoundChanges(q, c)
  }

  lemma OnceAround(q: seq<Send>, next: seq<Send>, course: nat -> seq<int>, n: nat, i: nat,
                   c: Setting, m: int, f: int, last: int)
    requires Course(course, n, last) && m + last * HALF_HOUR < f + 86_400_000 && BusyEvening(c, m, f)
    requires i < n && On(course, m, f)(q, i) && IsRound(q, next, c)
    ensures On(course, m, f)(next, i + 1) && RoundChanges(q, c)
  {
    RoundLeads(q, next, course(i), course(i + 1), c, m, f, last);
  }

  lemma CourseKeepsGoing(course: nat -> seq<int>, n: nat, c: Setting, m: int, f: int, last: int)
    requires Course(course, n, last) && m + last * HALF_HOUR < f + 86_400_000 && BusyEvening(c, m, f)
    ensures KeepsGoing(On(course, m, f), n, c)
  {
    var meets := On(course, m, f);
    forall q, next, i: nat | meets(q, i) && i < n && IsRound(q, next, c)
      ensures meets(next, i + 1) && RoundChanges(q, c)
    {
      OnceAround(q, next, course, n, i, c, m, f, last);
    }
  }

  lemma NextMilestone(p: seq<Send>, next: seq<Send>, meets: Milestones, n: nat, i: nat, c: Setting)
    requires KeepsGoing(meets, n, c) && meets(p, i) && i < n && IsRound(p, next, c)
    ensures meets(next, i + 1) && RoundChanges(p, c)
  {
  }

  /** After `rounds` more rounds the loop is at the milestone that many further on, and has not settled. */
  ghost predicate GoesOn(p: seq<Send>, meets: Milestones, i: nat, rounds: nat, c: Setting) {
    meets(Resolve(p, c, rounds), i + rounds) && !SettlesWithin(p, c, rounds)
  }

  lemma GoesOnFrom(p: seq<Send>, next: seq<Send>, meets: Milestones, i: nat, rounds: nat, c: Setting)
    ensures meets(p, i) ==> GoesOn(p, meets, i, 0, c)
    ensures RoundChanges(p, c) && IsRound(p, next, c) && GoesOn(next, meets, i + 1, rounds, c)
            ==> GoesOn(p, meets, i, rounds + 1, c)
  {
  }

  /** As long as the milestones go on, so does the loop. */
  lemma {:induction false} LoopGoesOn(p: seq<Send>, meets: Milestones, n: nat, i: nat, rounds: nat, c: Setting)
    requires KeepsGoing(meets, n, c) && meets(p, i) && i + rounds <= n
    ensures GoesOn(p, meets, i, rounds, c)
    decreases rounds
  {
    var next := Round(p, c);
    if rounds == 0 {
      GoesOnFrom(p, next, meets, i, 0, c);
    } else {
      NextMilestone(p, next, meets, n, i, c);
      LoopGoesOn(next, meets, n, i + 1, rounds - 1, c);
      GoesOnFrom(p, next, meets, i, rounds - 1, c);
    }
  }

  /* ----------------------------------------------------- the course of a full plan */

  /** One morning's push reaches the next morning in five rounds, and the morning after that in nine. */
  function Stations(i: nat): (h: seq<int>)
    ensures |h| == 7
  {
    match i
    case 0 => [16, 20, 29, 36, 68, 77, 84]
    case 1 => [20, 24, 29, 40, 72, 77, 88]
    case 2 => [24, 28, 32, 40, 72, 77, 88]
    case 3 => [24, 28, 36, 40, 72, 77, 88]
    case 4 => [24, 28, 40, 44, 72, 77, 88]
    case 5 => [24, 28, 40, 68, 72, 77, 88]
    case 6 => [24, 28, 40, 72, 76, 80, 88]
    case 7 => [24, 28, 40, 72, 76, 84, 88]
    case 8 => [24, 28, 40, 72, 76, 88, 92]
    case _ => [24, 28, 40, 72, 76, 88, 112]
  }

  /** With the two finals, on day `k`. */
  function WithFinals(h: seq<int>, k: int): seq<int> {
    h + [48 * k + 20, 48 * k + 29]
  }

  lemma FinalsStand(k: int)
    requires 2 <= k
    ensures ComesUp(48 * k + 20) && HalfStep(48 * k + 20) == 48 * k + 20
    ensures ComesUp(48 * k + 29) && HalfStep(48 * k + 29) == 48 * k + 29
  {
  }

  lemma FinalsAlone(h: seq<int>, k: int)
    requires 2 <= k
    ensures HalfSteps(WithFinals(h, k)) == WithFinals(HalfSteps(h), k)
    ensures AllComeUp(h) ==> AllComeUp(WithFinals(h, k))
  {
    FinalsStand(k);
  }

  lemma FinalsFollow(h: seq<int>, s: seq<int>, next: seq<int>, k: int)
    requires |h| == |s| == 7 && s == HalfSteps(h) && AllComeUp(h) && Stepwise(s) && Spread(s, next)
    requires k >= 2 && s[6] <= 112 && next[6] <= 112
    ensures Leads(WithFinals(h, k), WithFinals(next, k))
  {
    FinalsAlone(h, k);
  }

  /** The stations after the step rules, before the minimum gap. */
  function Stepped(i: nat): (h: seq<int>)
    ensures |h| == 7
  {
    match i
    case 0 => [20, 24, 29, 40, 72, 77, 88]
    case 1 => [24, 24, 29, 40, 72, 77, 88]
    case 2 => [24, 28, 36, 40, 72, 77, 88]
    case 3 => [24, 28, 40, 40, 72, 77, 88]
    case 4 => [24, 28, 40, 68, 72, 77, 88]
    case 5 => [24, 28, 40, 72, 72, 77, 88]
    case 6 => [24, 28, 40, 72, 76, 84, 88]
    case 7 => [24, 28, 40, 72, 76, 88, 88]
    case _ => [24, 28, 40, 72, 76, 88, 112]
  }

  lemma FirstStationsStep(i: nat)
    requires i < 5
    ensures AllComeUp(Stations(i)) && HalfSteps(Stations(i)) == Stepped(i)
  {
    assert HalfStep(Stations(i)[4]) == 72;
  }

  lemma LastStationsStep(i: nat)
    requires 5 <= i <= 9
    ensures AllComeUp(Stations(i)) && HalfSteps(Stations(i)) == Stepped(i)
  {
    assert HalfStep(Stations(i)[0]) == 24 && HalfStep(Stations(i)[1]) == 28 && HalfStep(Stations(i)[2]) == 40;
  }

  lemma StationsSpread(i: nat)
    requires i < 9
    ensures Stepwise(Stepped(i)) && Spread(Stepped(i), Stations(i + 1))
    ensures Stepped(i) != Stations(i)
  {
  }

  lemma StationsLead(i: nat, k: int)
    requires i < 9 && 2 <= k
    ensures Leads(WithFinals(Stations(i), k), WithFinals(Stations(i + 1), k))
    ensures HalfSteps(WithFinals(Stations(i), k)) != WithFinals(Stations(i), k)
  {
    if i < 5 { FirstStationsStep(i); } else { LastStationsStep(i); }
    StationsSpread(i);
    FinalsFollow(Stations(i), Stepped(i), Stations(i + 1), k);
    FinalsAlone(Stations(i), k);
    assert WithFinals(Stepped(i), k)[..7] == Stepped(i) && WithFinals(Stations(i), k)[..7] == Stations(i);
  }

  function FullCourse(k: int): nat -> seq<int> {
    (i: nat) => WithFinals(Stations(i), k)
  }

  lemma StationsEarly(i: nat, k: int)
    requires 2 <= k
    ensures NoneAfter(WithFinals(Stations(i), k), 48 * k + 29)
  {
    assert NoneAfter(Stations(i), 112);
  }

  lemma StationsCourse(k: int)
    requires 2 <= k
    ensures Course(FullCourse(k), 9, 48 * k + 29)
  {
    var course := FullCourse(k);
    forall i: nat | i < 9
      ensures Leads(course(i), course(i + 1)) && HalfSteps(course(i)) != course(i)
      ensures NoneAfter(course(i), 48 * k + 29)
    {
      StationsLead(i, k);
      StationsEarly(i, k);
    }
  }

  /* ------------------------------------------------- a submission of the evening before */

  /** Both sequences are started, and the first bank step waits for 08:00 next morning. */
  predicate LateStart(submitted: int, zone: int) {
    LocalHour(submitted, zone) >= 18
  }

  function FinalDays(submitted: int, zone: int): int {
    if LandsOnSunday(DayStart(submitted, zone, 3), zone) then 3 else 2
  }

  lemma FinalDayInDays(submitted: int, zone: int)
    ensures FinalDay(submitted, zone) == DayStart(submitted, zone, 1) + FinalDays(submitted, zone) * 86_400_000
  {
  }

  lemma GridOnClock(m: int, k: int)
    ensures [m + Clock(8, 0)] + WholeDay(m, true) + WholeDay(m + 86_400_000, true) + MorningOf(m + k * 86_400_000, true)
         == OnClock(WithFinals(Stations(0), k), m)
  {
  }

  /** Half hours since the midnight after the submission, in which the plan stands at station `i`. */
  ghost predicate AtStation(p: seq<Send>, i: nat, submitted: int, c: Setting) {
    StandsAt(p, WithFinals(Stations(i), FinalDays(submitted, c.zone)), DayStart(submitted, c.zone, 1),
             FinalDay(submitted, c.zone))
  }

  ghost predicate BusyAfter(submitted: int, c: Setting) {
    LateStart(submitted, c.zone) && BusyDays(c, DayStart(submitted, c.zone, 1))
  }

  lemma EveningIsBusy(submitted: int, c: Setting)
    requires BusyAfter(submitted, c)
    ensures BusyEvening(c, DayStart(submitted, c.zone, 1), FinalDay(submitted, c.zone))
  {
    DaysAreDays(submitted, c.zone, 1);
    FinalDayIsWorkday(submitted, c.zone);
  }

  lemma StartsAtStations(submitted: int, zone: int)
    requires LateStart(submitted, zone)
    ensures PlanTimes(true, true, submitted, zone)
         == OnClock(WithFinals(Stations(0), FinalDays(submitted, zone)), DayStart(submitted, zone, 1))
  {
    FinalDayInDays(submitted, zone);
    DaysAreDays(submitted, zone, 1);
    GridOnClock(DayStart(submitted, zone, 1), FinalDays(submitted, zone));
  }

  /** The ideal sends of both sequences, calls first. */
  function FullStart(submitted: int, zone: int): seq<Send> {
    IdealSends(SlotsOf(CallIn) + SlotsOf(BankVerification), submitted, zone)
  }

  /** The first round of the loop takes the plan to the next list. */
  lemma FirstRoundLeads(submitted: int, c: Setting)
    requires BusyAfter(submitted, c)
    ensures AtStation(Round(FullStart(submitted, c.zone), c), 1, submitted, c)
  {
    var m, k := DayStart(submitted, c.zone, 1), FinalDays(submitted, c.zone);
    var start, h := FullStart(submitted, c.zone), WithFinals(Stations(0), k);
    EveningIsBusy(submitted, c);
    RulesPassIsPlanned(true, true, submitted, c, SlotsOf(CallIn) + SlotsOf(BankVerification));
    StartsAtStations(submitted, c.zone);
    StationsLead(0, k);
    LeadsOnClock(h, WithFinals(Stations(1), k), m, c);
    RoundTimes(start, c, OnClock(HalfSteps(h), m));
    RoundKeepsFinals(start, c, FinalDay(submitted, c.zone));
  }

  /** The call on the first day is struck at once. */
  lemma FirstRoundChanges(submitted: int, c: Setting)
    requires BusyAfter(submitted, c)
    ensures RoundChanges(FullStart(submitted, c.zone), c)
  {
    var start := FullStart(submitted, c.zone);
    assert start[0] == IdealSend(IDEAL_SLOTS[0], submitted, c.zone);
    assert start[0].at == DayStart(submitted, c.zone, 1) + Clock(10, 0);
    assert Near(c.transactional[0], start[0].at);
    RulesPassFixed(start, c);
  }

  lemma RestsOnClock(h: seq<int>, m: int, c: Setting)
    requires Midnight(m, c.zone) && BusyDays(c, m) && AllComeUp(h) && HalfSteps(h) == h
    requires forall i | 0 < i < |h| :: h[i] - h[i - 1] >= 4
    ensures Clean(OnClock(h, m), c)
  {
    forall i | 0 <= i < |h| ensures StepTime(OnClock(h, m)[i], c) == OnClock(h, m)[i] {
      StepByHalfHours(h[i], m, c);
      assert HalfSteps(h)[i] == h[i];
    }
  }

  lemma LastStationRests(k: int)
    requires 2 <= k
    ensures var h := WithFinals(Stations(9), k);
            AllComeUp(h) && HalfSteps(h) == h && forall i | 0 < i < |h| :: h[i] - h[i - 1] >= 4
  {
    LastStationsStep(9);
    FinalsAlone(Stations(9), k);
  }

  /** The list of the last station breaks no rule. */
  lemma LastPlanObeys(p: seq<Send>, c: Setting, m: int, f: int, k: int)
    requires StandsAt(p, WithFinals(Stations(9), k), m, f) && BusyEvening(c, m, f)
    requires 2 <= k && f == m + k * 86_400_000
    ensures RulesHold(p, c)
  {
    var h := WithFinals(Stations(9), k);
    LastStationRests(k);
    RestsOnClock(h, m, c);
    StationsEarly(9, k);
    StandsInTime(p, h, m, f, 48 * k + 29);
    RulesPassTimes(p, c, f, m + (48 * k + 29) * HALF_HOUR);
    CleanPlanObeys(p, c);
  }

  lemma PlanOfBoth(submitted: int, c: Setting)
    ensures StartingPlan(submitted, c, {CallIn, BankVerification}) == FullStart(submitted, c.zone)
  {
    WantedSlots({CallIn, BankVerification});
  }

  /** The loop passes every station, one a round. */
  lemma LoopThroughStations(submitted: int, c: Setting)
    requires BusyAfter(submitted, c)
    ensures AtStation(Resolve(FullStart(submitted, c.zone), c, 8), 8, submitted, c)
    ensures AtStation(Resolve(FullStart(submitted, c.zone), c, 9), 9, submitted, c)
    ensures !SettlesWithin(FullStart(submitted, c.zone), c, 9)
  {
    var m, f, k := DayStart(submitted, c.zone, 1), FinalDay(submitted, c.zone), FinalDays(submitted, c.zone);
    var meets := On(FullCourse(k), m, f);
    var first := Round(FullStart(submitted, c.zone), c);
    EveningIsBusy(submitted, c);
    FinalDayInDays(submitted, c.zone);
    FirstRoundLeads(submitted, c);
    FirstRoundChanges(submitted, c);
    StationsCourse(k);
    CourseKeepsGoing(FullCourse(k), 9, c, m, f, 48 * k + 29);
    assert meets(first, 1);
    LoopGoesOn(first, meets, 9, 1, 7, c);
    LoopGoesOn(first, meets, 9, 1, 8, c);
  }

  lemma SortedByClock(p: seq<Send>, h: seq<int>, m: int, f: int)
    requires StandsAt(p, h, m, f) && Stepwise(h)
    ensures StableSort(p) == p
  {
    StepwiseOrdered(OnClock(h, m));
    forall i, j | 0 <= i < j < |p| ensures p[i].at <= p[j].at {
      assert Times(p)[i] <= Times(p)[j];
    }
    SortedIsFixed(p);
  }

  lemma LastOfTen(p: seq<Send>, c: Setting, m: int, f: int, k: int)
    requires StandsAt(Resolve(p, c, 9), WithFinals(Stations(9), k), m, f) && BusyEvening(c, m, f)
    requires 2 <= k && f == m + k * 86_400_000
    ensures SettlesWithin(p, c, 10)
  {
    LastPlanObeys(Resolve(p, c, 9), c, m, f, k);
    SortedByClock(Resolve(p, c, 9), WithFinals(Stations(9), k), m, f);
    ResolveSettles(p, c, 9);
  }

  lemma PlanAt(p: seq<Send>, h: seq<int>, m: int, f: int, i: nat)
    requires StandsAt(p, h, m, f) && Stepwise(h) && i < |h|
    ensures |StableSort(p)| == |h| && StableSort(p)[i].at == m + h[i] * HALF_HOUR
  {
    SortedByClock(p, h, m, f);
    assert Times(p)[i] == OnClock(h, m)[i];
  }

  lemma EighthStation(k: int)
    requires 2 <= k
    ensures var h := WithFinals(Stations(8), k);
            |h| == 9 && Stepwise(h) && h[6] == 92
  {
  }

  lemma CappedPlan(p: seq<Send>, c: Setting, m: int, f: int, k: int)
    requires StandsAt(Resolve(p, c, 8), WithFinals(Stations(8), k), m, f) && 2 <= k
    ensures var plan := StableSort(Resolve(p, c, 8));
            |plan| == 9 && plan[6].at == m + 92 * HALF_HOUR
  {
    EighthStation(k);
    PlanAt(Resolve(p, c, 8), WithFinals(Stations(8), k), m, f, 6);
  }

  /**
    For every evening submission and every such pair of days the loop needs ten rounds,
    one more than a plan that obeys the rules may take: the seventh reminder of the plan
    that is returned goes out at 22:00 on the second day.
   */
  lemma BusyDaysExhaustTheCap(submitted: int, c: Setting)
    requires BusyAfter(submitted, c)
    ensures var start := StartingPlan(submitted, c, {CallIn, BankVerification});
            SettlesWithin(start, c, 10) && !SettlesWithin(start, c, 9)
    ensures var plan := Schedule(submitted, c, {CallIn, BankVerification});
            && !RulesHold(plan, c)
            && |plan| == 9 && plan[6].at == DayStart(submitted, c.zone, 2) + Clock(22, 0)
  {
    var p := StartingPlan(submitted, c, {CallIn, BankVerification});
    var m, f, k := DayStart(submitted, c.zone, 1), FinalDay(submitted, c.zone), FinalDays(submitted, c.zone);
    PlanOfBoth(submitted, c);
    LoopThroughStations(submitted, c);
    EveningIsBusy(submitted, c);
    FinalDayInDays(submitted, c.zone);
    LastOfTen(p, c, m, f, k);
    CappedPlan(p, c, m, f, k);
    ScheduleObeysRulesIff(submitted, c, {CallIn, BankVerification});
  }

  /** The four sends nine hours apart by day and fifteen by night. */
  function NineHoursApart(zone: int, m: int): Setting {
    Setting(zone, [m + Clock(8, 30), m + Clock(17, 30), m + Clock(32, 30), m + Clock(41, 30)])
  }

  lemma NineHoursAreBusy(zone: int, m: int, gap: int)
    requires gap < Clock(9, 0)
    ensures SpacedBy(NineHoursApart(zone, m), gap) && BusyDays(NineHoursApart(zone, m), m)
  {
  }

  lemma BusyPlanBreaksRules(submitted: int, c: Setting)
    requires BusyAfter(submitted, c)
    ensures !RulesHold(Schedule(submitted, c, {CallIn, BankVerification}), c)
  {
    BusyDaysExhaustTheCap(submitted, c);
  }

  /**
    So no spacing below nine hours is enough for the cap: every evening submission has
    a list of transactional sends that far apart whose plan breaks the rules.
   */
  lemma NineHoursAreNotEnough(submitted: int, zone: int, gap: int) returns (c: Setting)
    requires LateStart(submitted, zone) && gap < Clock(9, 0)
    ensures c.zone == zone && SpacedBy(c, gap)
    ensures !RulesHold(Schedule(submitted, c, {CallIn, BankVerification}), c)
  {
    var m := DayStart(submitted, zone, 1);
    c := NineHoursApart(zone, m);
    NineHoursAreBusy(zone, m, gap);
    BusyPlanBreaksRules(submitted, c);
  }

  /** The plan that is returned obeys all rules. */
  ghost predicate PlanObeys(submitted: int, c: Setting, keys: set<SequenceKey>) {
    RulesHold(Schedule(submitted, c, keys), c)
  }

  lemma WideEnough(submitted: int, c: Setting, keys: set<SequenceKey>, gap: int)
    requires gap >= Clock(9, 0) && SpacedBy(c, gap)
    ensures PlanObeys(submitted, c, keys)
  {
    assert SpacedBy(c, Clock(9, 0));
    SparseSendsSettle(submitted, c, keys);
  }

  lemma TooNarrow(gap: int) returns (submitted: int, c: Setting, keys: set<SequenceKey>)
    requires gap < Clock(9, 0)
    ensures SpacedBy(c, gap) && !PlanObeys(submitted, c, keys)
  {
    submitted, keys := Instant(0, 19, 0, 0), {CallIn, BankVerification};
    InstantReads(0, 19, 0, 0);
    c := NineHoursAreNotEnough(submitted, 0, gap);
  }

  /** Transactional sends more than `gap` apart never keep a plan from obeying the rules. */
  ghost predicate IsEnough(gap: int) {
    forall submitted, c, keys | SpacedBy(c, gap) :: PlanObeys(submitted, c, keys)
  }

  /** Nine hours is the threshold, whatever else is given. */
  lemma {:induction false} NineHoursIsTheThreshold(gap: int)
    ensures IsEnough(gap) <==> gap >= Clock(9, 0)
  {
    if gap >= Clock(9, 0) {
      forall submitted, c, keys | SpacedBy(c, gap) ensures PlanObeys(submitted, c, keys) {
        WideEnough(submitted, c, keys, gap);
      }
    } else {
      var submitted, c, keys := TooNarrow(gap);
      assert !PlanObeys(submitted, c, keys);
    }
  }
}
