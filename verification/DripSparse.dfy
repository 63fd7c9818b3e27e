/**
  When transactional sends are more than nine hours apart the scheduler settles within
  five rounds, whatever the submission time, the zone, the choice of sequences and the
  instants of those sends.

  The rules act on bare instants once finals are off their Sunday, so rounds are
  followed on the list of times.  The grid falls into blocks far enough apart to settle
  on their own.  A block spans six hours at most, but for the evening's last send: pushed
  past 21:00 it is left for the next morning, whose block it belongs to.
 */
module DripSparse {
  import opened DripSchedule

  /** No two transactional sends are within `gap` of each other. */
  ghost predicate SpacedBy(c: Setting, gap: int) {
    forall i, j | 0 <= i < j < |c.transactional| ::
      c.transactional[i] - c.transactional[j] > gap || c.transactional[j] - c.transactional[i] > gap
  }

  /* ------------------------------------------------------ rounds on bare instants */

  function Max(a: int, b: int): int {
    if a < b then b else a
  }

  function Times(s: seq<Send>): (r: seq<int>)
    ensures |r| == |s|
    ensures forall i | 0 <= i < |s| :: r[i] == s[i].at
  {
    seq(|s|, i requires 0 <= i < |s| => s[i].at)
  }

  /** Quiet hours, then the conflict rule. */
  function StepTime(t: int, c: Setting): int {
    var q := ApplyQuietHours(t, c.zone);
    if ConflictsWithTransactional(q, c.transactional) then q + CONFLICT_SHIFT else q
  }

  function Steps(ts: seq<int>, c: Setting): (r: seq<int>)
    ensures |r| == |ts|
    ensures forall i | 0 <= i < |ts| :: r[i] == StepTime(ts[i], c)
  {
    seq(|ts|, i requires 0 <= i < |ts| => StepTime(ts[i], c))
  }

  /** The minimum-gap rule walking over a list of times. */
  function Walk(ts: seq<int>): (r: seq<int>)
    ensures |r| == |ts|
  {
    if |ts| <= 1 then ts
    else
      var before := Walk(ts[..|ts| - 1]);
      before + [Max(ts[|ts| - 1], before[|before| - 1] + MIN_GAP)]
  }

  ghost predicate Ordered(ts: seq<int>) {
    forall i, j | 0 <= i < j < |ts| :: ts[i] <= ts[j]
  }

  ghost predicate Apart(ts: seq<int>) {
    forall i | 0 < i < |ts| :: ts[i] - ts[i - 1] >= MIN_GAP
  }

  /** No rule moves any of these times. */
  ghost predicate Clean(ts: seq<int>, c: Setting) {
    Apart(ts) && forall i | 0 <= i < |ts| :: StepTime(ts[i], c) == ts[i]
  }

  ghost predicate Within(ts: seq<int>, lo: int, hi: int) {
    Ordered(ts) && forall i | 0 <= i < |ts| :: lo <= ts[i] <= hi
  }

  /** For `k` rounds the block stays in order and within its bounds, and then nothing moves. */
  ghost predicate Contained(ts: seq<int>, c: Setting, lo: int, hi: int, k: nat)
    decreases k
  {
    && Within(ts, lo, hi) && Within(Steps(ts, c), lo, hi)
    && if k == 0 then Clean(ts, c) else Contained(Walk(Steps(ts, c)), c, lo, hi, k - 1)
  }

  /* --------------------------------------------------- blocks settle on their own */

  lemma {:induction false} WalkJoins(a: seq<int>, b: seq<int>)
    requires a != [] && b != [] && Walk(a)[|a| - 1] + MIN_GAP <= b[0]
    ensures Walk(a + b) == Walk(a) + Walk(b)
    decreases |b|
  {
    var n := |b| - 1;
    assert (a + b)[..|a + b| - 1] == a + b[..n];
    if n == 0 {
      assert a + b[..n] == a;
    } else {
      WalkJoins(a, b[..n]);
    }
  }

  lemma WithinJoins(a: seq<int>, b: seq<int>, lo: int, mid: int, from: int, hi: int)
    requires Within(a, lo, mid) && Within(b, from, hi) && mid <= from && lo <= from && mid <= hi
    ensures Within(a + b, lo, hi)
  {
  }

  lemma CleanJoins(a: seq<int>, b: seq<int>, c: Setting)
    requires a != [] && b != [] && Clean(a, c) && Clean(b, c) && a[|a| - 1] + MIN_GAP <= b[0]
    ensures Clean(a + b, c)
  {
  }

  lemma StepsJoin(a: seq<int>, b: seq<int>, c: Setting)
    ensures Steps(a + b, c) == Steps(a, c) + Steps(b, c)
  {
  }

  lemma WalkJoinsWithin(a: seq<int>, b: seq<int>, lo: int, mid: int, from: int, hi: int)
    requires a != [] && b != [] && mid + MIN_GAP <= from
    requires Within(Walk(a), lo, mid) && Within(b, from, hi)
    ensures Walk(a + b) == Walk(a) + Walk(b)
  {
    assert Walk(a)[|a| - 1] <= mid && from <= b[0];
    WalkJoins(a, b);
  }

  lemma CleanJoinsWithin(a: seq<int>, b: seq<int>, c: Setting, lo: int, mid: int, from: int, hi: int)
    requires a != [] && b != [] && mid + MIN_GAP <= from
    requires Within(a, lo, mid) && Within(b, from, hi) && Clean(a, c) && Clean(b, c)
    ensures Clean(a + b, c)
  {
    assert a[|a| - 1] <= mid && from <= b[0];
    CleanJoins(a, b, c);
  }

  /** The bounds and the next round of two blocks side by side. */
  lemma RoundJoins(a: seq<int>, b: seq<int>, c: Setting, lo: int, mid: int, from: int, hi: int)
    requires a != [] && b != [] && mid + MIN_GAP <= from && lo <= mid && from <= hi
    requires Within(a, lo, mid) && Within(Steps(a, c), lo, mid) && Within(b, from, hi) && Within(Steps(b, c), from, hi)
    ensures Within(a + b, lo, hi) && Within(Steps(a + b, c), lo, hi)
    ensures Within(Walk(Steps(a, c)), lo, mid) ==>
              Walk(Steps(a + b, c)) == Walk(Steps(a, c)) + Walk(Steps(b, c))
  {
    StepsJoin(a, b, c);
    WithinJoins(a, b, lo, mid, from, hi);
    WithinJoins(Steps(a, c), Steps(b, c), lo, mid, from, hi);
    if Within(Walk(Steps(a, c)), lo, mid) {
      WalkJoinsWithin(Steps(a, c), Steps(b, c), lo, mid, from, hi);
    }
  }

  /** A claim about a list of times and the rounds it has left. */
  type Countdown = (seq<int>, nat) -> bool

  ghost function Held(c: Setting, lo: int, hi: int): Countdown {
    (ts: seq<int>, j: nat) => Contained(ts, c, lo, hi, j)
  }

  lemma ContainedNext(ts: seq<int>, c: Setting, lo: int, hi: int, k: nat)
    requires k > 0 && Held(c, lo, hi)(ts, k)
    ensures Held(c, lo, hi)(Walk(Steps(ts, c)), k - 1)
    ensures Within(ts, lo, hi) && Within(Steps(ts, c), lo, hi) && Within(Walk(Steps(ts, c)), lo, hi)
  {
  }

  /** `next` is the block after a round, and nothing has left its bounds. */
  ghost function Fits(c: Setting, lo: int, hi: int): (seq<int>, seq<int>) -> bool {
    (ts: seq<int>, next: seq<int>) =>
      Within(ts, lo, hi) && Within(Steps(ts, c), lo, hi) && next == Walk(Steps(ts, c))
  }

  lemma ContainedFrom(ts: seq<int>, next: seq<int>, c: Setting, lo: int, hi: int, k: nat)
    ensures Within(ts, lo, hi) && Within(Steps(ts, c), lo, hi) && next == Walk(Steps(ts, c))
            && Contained(next, c, lo, hi, k)
            ==> Contained(ts, c, lo, hi, k + 1)
  {
  }

  lemma HeldFrom(ts: seq<int>, next: seq<int>, c: Setting, lo: int, hi: int, k: nat)
    requires Fits(c, lo, hi)(ts, next) && Held(c, lo, hi)(next, k)
    ensures Held(c, lo, hi)(ts, k + 1)
  {
    ContainedFrom(ts, next, c, lo, hi, k);
  }

  /** A round that fits leads the claim back by one. */
  ghost predicate LeadsBack(held: Countdown, fits: (seq<int>, seq<int>) -> bool) {
    forall ts, next, j: nat | fits(ts, next) && held(next, j) :: held(ts, j + 1)
  }

  lemma BackOne(ts: seq<int>, next: seq<int>, j: nat, held: Countdown, fits: (seq<int>, seq<int>) -> bool)
    requires LeadsBack(held, fits) && fits(ts, next) && held(next, j)
    ensures held(ts, j + 1)
  {
  }

  lemma HeldLeadsBack(c: Setting, lo: int, hi: int)
    ensures LeadsBack(Held(c, lo, hi), Fits(c, lo, hi))
  {
    var held, fits := Held(c, lo, hi), Fits(c, lo, hi);
    forall ts, next, j: nat | fits(ts, next) && held(next, j) ensures held(ts, j + 1) {
      HeldFrom(ts, next, c, lo, hi, j);
    }
  }

  lemma RoundFits(a: seq<int>, b: seq<int>, c: Setting, lo: int, mid: int, from: int, hi: int)
    requires a != [] && b != [] && mid + MIN_GAP <= from && lo <= mid && from <= hi
    requires Within(a, lo, mid) && Within(Steps(a, c), lo, mid) && Within(b, from, hi) && Within(Steps(b, c), from, hi)
    requires Within(Walk(Steps(a, c)), lo, mid)
    ensures Fits(c, lo, hi)(a + b, Walk(Steps(a, c)) + Walk(Steps(b, c)))
  {
    RoundJoins(a, b, c, lo, mid, from, hi);
  }

  lemma RestingBlocksJoin(a: seq<int>, b: seq<int>, c: Setting, lo: int, mid: int, from: int, hi: int)
    requires a != [] && b != [] && mid + MIN_GAP <= from && lo <= mid && from <= hi
    requires Held(c, lo, mid)(a, 0) && Held(c, from, hi)(b, 0)
    ensures Held(c, lo, hi)(a + b, 0)
  {
    RoundJoins(a, b, c, lo, mid, from, hi);
    CleanJoinsWithin(a, b, c, lo, mid, from, hi);
  }

  lemma JoinedRound(a: seq<int>, b: seq<int>, c: Setting, lo: int, mid: int, from: int, hi: int, k: nat)
    requires a != [] && b != [] && mid + MIN_GAP <= from && lo <= mid && from <= hi && k > 0
    requires Held(c, lo, mid)(a, k) && Held(c, from, hi)(b, k)
    ensures Held(c, lo, mid)(Walk(Steps(a, c)), k - 1) && Held(c, from, hi)(Walk(Steps(b, c)), k - 1)
    ensures Fits(c, lo, hi)(a + b, Walk(Steps(a, c)) + Walk(Steps(b, c)))
  {
    ContainedNext(a, c, lo, mid, k);
    ContainedNext(b, c, from, hi, k);
    RoundFits(a, b, c, lo, mid, from, hi);
  }

  /** Two claims that go on round by round, and a third about the blocks side by side. */
  ghost predicate GoOnTogether(left: Countdown, right: Countdown, both: Countdown,
                               fits: (seq<int>, seq<int>) -> bool, c: Setting) {
    && (forall a, b | a != [] && b != [] && left(a, 0) && right(b, 0) :: both(a + b, 0))
    && (forall a, b, j: nat | a != [] && b != [] && left(a, j) && right(b, j) && j > 0 ::
          && left(Walk(Steps(a, c)), j - 1) && right(Walk(Steps(b, c)), j - 1)
          && fits(a + b, Walk(Steps(a, c)) + Walk(Steps(b, c))))
  }

  lemma TogetherOn(a: seq<int>, b: seq<int>, na: seq<int>, nb: seq<int>, k: nat, left: Countdown, right: Countdown,
                   both: Countdown, fits: (seq<int>, seq<int>) -> bool, c: Setting)
    requires GoOnTogether(left, right, both, fits, c) && a != [] && b != [] && left(a, k) && right(b, k)
    requires na == Walk(Steps(a, c)) && nb == Walk(Steps(b, c))
    ensures k == 0 ==> both(a + b, 0)
    ensures k > 0 ==> left(na, k - 1) && right(nb, k - 1) && fits(a + b, na + nb)
  {
  }

  lemma {:induction false} TogetherThrough(a: seq<int>, b: seq<int>, k: nat, left: Countdown, right: Countdown,
                                           both: Countdown, fits: (seq<int>, seq<int>) -> bool, c: Setting)
    requires GoOnTogether(left, right, both, fits, c) && LeadsBack(both, fits)
    requires a != [] && b != [] && left(a, k) && right(b, k)
    ensures both(a + b, k)
    decreases k
  {
    var na, nb := Walk(Steps(a, c)), Walk(Steps(b, c));
    TogetherOn(a, b, na, nb, k, left, right, both, fits, c);
    if k > 0 {
      TogetherThrough(na, nb, k - 1, left, right, both, fits, c);
      BackOne(a + b, na + nb, k - 1, both, fits);
    }
  }

  lemma HeldGoesOnTogether(c: Setting, lo: int, mid: int, from: int, hi: int)
    requires mid + MIN_GAP <= from && lo <= mid && from <= hi
    ensures GoOnTogether(Held(c, lo, mid), Held(c, from, hi), Held(c, lo, hi), Fits(c, lo, hi), c)
  {
    var left, right := Held(c, lo, mid), Held(c, from, hi);
    forall a, b | a != [] && b != [] && left(a, 0) && right(b, 0) ensures Held(c, lo, hi)(a + b, 0) {
      RestingBlocksJoin(a, b, c, lo, mid, from, hi);
    }
    forall a, b, j: nat | a != [] && b != [] && left(a, j) && right(b, j) && j > 0
      ensures left(Walk(Steps(a, c)), j - 1) && right(Walk(Steps(b, c)), j - 1)
      ensures Fits(c, lo, hi)(a + b, Walk(Steps(a, c)) + Walk(Steps(b, c)))
    {
      JoinedRound(a, b, c, lo, mid, from, hi, j);
    }
  }

  /** Two blocks with a gap between their bounds settle as if each were alone. */
  lemma BlocksJoin(a: seq<int>, b: seq<int>, c: Setting, lo: int, mid: int, from: int, hi: int, k: nat)
    requires a != [] && b != [] && mid + MIN_GAP <= from && lo <= mid && from <= hi
    requires Held(c, lo, mid)(a, k) && Held(c, from, hi)(b, k)
    ensures Held(c, lo, hi)(a + b, k)
  {
    HeldGoesOnTogether(c, lo, mid, from, hi);
    HeldLeadsBack(c, lo, hi);
    TogetherThrough(a, b, k, Held(c, lo, mid), Held(c, from, hi), Held(c, lo, hi), Fits(c, lo, hi), c);
  }

  lemma {:induction false} CleanWalk(ts: seq<int>)
    requires Apart(ts)
    ensures Walk(ts) == ts
  {
    if |ts| > 1 {
      CleanWalk(ts[..|ts| - 1]);
      assert ts == ts[..|ts| - 1] + [ts[|ts| - 1]];
    }
  }

  /* ------------------------------------------------------------ the clock of a day */

  function Clock(hour: nat, minute: nat): int {
    hour * 3_600_000 + minute * 60_000
  }

  /** The instant reads midnight in the zone. */
  predicate Midnight(m: int, zone: int) {
    (m + zone) % 86_400_000 == 0
  }

  /** A transactional send is near `u` after midnight. */
  predicate Hit(m: int, u: int, c: Setting) {
    ConflictsWithTransactional(m + u, c.transactional)
  }

  /** Where quiet hours and the conflict rule take what stands at `u` after midnight `m`. */
  function ClockStep(u: int, m: int, c: Setting): int {
    StepTime(m + u, c) - m
  }

  lemma DaytimeStep(u: int, m: int, c: Setting)
    requires Midnight(m, c.zone) && Clock(8, 0) <= u < Clock(21, 0)
    ensures ClockStep(u, m, c) == if Hit(m, u, c) then u + CONFLICT_SHIFT else u
  {
    var d := (m + c.zone) / 86_400_000;
    assert m + c.zone == d * 86_400_000;
    assert LocalDay(m + u, c.zone) == d && LocalTime(m + u, c.zone) == u;
  }

  /** The evening before, up to 21:00, and after that. */
  lemma EveningStep(u: int, m: int, c: Setting)
    requires Midnight(m, c.zone) && -Clock(6, 0) <= u < 0
    ensures u < -Clock(3, 0) ==> ClockStep(u, m, c) == if Hit(m, u, c) then u + CONFLICT_SHIFT else u
    ensures u >= -Clock(3, 0) ==> ClockStep(u, m, c) == if Hit(m, Clock(8, 0), c) then Clock(10, 0) else Clock(8, 0)
  {
    var d := (m + c.zone) / 86_400_000;
    assert m + c.zone == d * 86_400_000;
    assert LocalDay(m + u, c.zone) == d - 1 && LocalTime(m + u, c.zone) == 86_400_000 + u;
  }

  /** Two times that far apart are not both near transactional sends spaced by `gap`. */
  lemma NotBothHit(m: int, u: int, v: int, c: Setting, gap: int)
    requires SpacedBy(c, gap) && 2 * CONFLICT_WINDOW < v - u <= gap - 2 * CONFLICT_WINDOW
    ensures !(Hit(m, u, c) && Hit(m, v, c))
  {
  }

  function Shifted(us: seq<int>, m: int): (r: seq<int>)
    ensures |r| == |us|
    ensures forall i | 0 <= i < |us| :: r[i] == m + us[i]
  {
    seq(|us|, i requires 0 <= i < |us| => m + us[i])
  }

  lemma {:induction false} WalkShifts(us: seq<int>, m: int)
    ensures Walk(Shifted(us, m)) == Shifted(Walk(us), m)
  {
    if |us| > 1 {
      var n := |us| - 1;
      assert Shifted(us, m)[..n] == Shifted(us[..n], m);
      WalkShifts(us[..n], m);
    }
  }

  lemma WithinShifts(us: seq<int>, m: int, lo: int, hi: int)
    requires Within(us, lo, hi)
    ensures Within(Shifted(us, m), m + lo, m + hi)
  {
  }

  lemma {:induction false} WalkIs(ts: seq<int>, r: seq<int>)
    requires |r| == |ts| && (ts != [] ==> r[0] == ts[0])
    requires forall i | 0 < i < |ts| :: r[i] == Max(ts[i], r[i - 1] + MIN_GAP)
    ensures Walk(ts) == r
  {
    if |ts| > 1 {
      var n := |ts| - 1;
      WalkIs(ts[..n], r[..n]);
      assert r == r[..n] + [r[n]];
    }
  }

  lemma {:induction false} CleanContained(ts: seq<int>, c: Setting, lo: int, hi: int, k: nat)
    requires Within(ts, lo, hi) && Clean(ts, c)
    ensures Contained(ts, c, lo, hi, k)
    decreases k
  {
    assert Steps(ts, c) == ts;
    CleanWalk(ts);
    if k > 0 {
      CleanContained(ts, c, lo, hi, k - 1);
      ContainedFrom(ts, ts, c, lo, hi, k - 1);
    }
  }

  /** A day as the rules see it: what they do to a time of the day, and whether something is near it. */
  datatype Day = Day(step: int -> int, hit: int -> bool)

  function DayOf(m: int, c: Setting): Day {
    Day((u: int) => ClockStep(u, m, c), (u: int) => Hit(m, u, c))
  }

  /** From the evening before on: a push from what is near, and 08:00 instead of a time past 21:00. */
  ghost predicate Works(d: Day) {
    && (forall u | -Clock(6, 0) <= u < -Clock(3, 0) || Clock(8, 0) <= u < Clock(21, 0) ::
          d.step(u) == if d.hit(u) then u + CONFLICT_SHIFT else u)
    && (forall u | -Clock(3, 0) <= u < 0 ::
          d.step(u) == if d.hit(Clock(8, 0)) then Clock(10, 0) else Clock(8, 0))
  }

  lemma DayWorks(m: int, c: Setting)
    requires Midnight(m, c.zone)
    ensures Works(DayOf(m, c))
  {
    var d := DayOf(m, c);
    forall u | -Clock(6, 0) <= u < -Clock(3, 0) || Clock(8, 0) <= u < Clock(21, 0)
      ensures d.step(u) == if d.hit(u) then u + CONFLICT_SHIFT else u
    {
      if u < 0 { EveningStep(u, m, c); } else { DaytimeStep(u, m, c); }
    }
    forall u | -Clock(3, 0) <= u < 0
      ensures d.step(u) == if d.hit(Clock(8, 0)) then Clock(10, 0) else Clock(8, 0)
    {
      EveningStep(u, m, c);
    }
  }

  function ClockSteps(us: seq<int>, d: Day): (r: seq<int>)
    ensures |r| == |us|
    ensures forall i | 0 <= i < |us| :: r[i] == d.step(us[i])
  {
    seq(|us|, i requires 0 <= i < |us| => d.step(us[i]))
  }

  /** No rule moves what stands at these times of the day. */
  ghost predicate Resting(us: seq<int>, d: Day, lo: int, hi: int) {
    Within(us, lo, hi) && Apart(us) && ClockSteps(us, d) == us
  }

  /** A round takes these times of the day to `next`, and nothing leaves the bounds or its order. */
  ghost predicate Turns(us: seq<int>, next: seq<int>, d: Day, lo: int, hi: int) {
    Within(us, lo, hi) && Within(ClockSteps(us, d), lo, hi) && next == Walk(ClockSteps(us, d))
  }

  /** Within `j` rounds the list is at rest, without leaving the bounds. */
  ghost function Settling(m: int, c: Setting, lo: int, hi: int): Countdown {
    (us: seq<int>, j: nat) => Contained(Shifted(us, m), c, m + lo, m + hi, j)
  }

  /** All that needs to be known of it: a list at rest, and a round that leads back to it. */
  ghost predicate Clocked(on: Countdown, d: Day, lo: int, hi: int) {
    && (forall us, j: nat | Resting(us, d, lo, hi) :: on(us, j))
    && (forall us, next, j: nat | Turns(us, next, d, lo, hi) && on(next, j) :: on(us, j + 1))
  }

  lemma RestingIsClean(us: seq<int>, m: int, c: Setting)
    requires Apart(us) && ClockSteps(us, DayOf(m, c)) == us
    ensures Clean(Shifted(us, m), c)
  {
    var ts := Shifted(us, m);
    forall i | 0 <= i < |us| ensures StepTime(ts[i], c) == ts[i] {
      assert us[i] == DayOf(m, c).step(us[i]) == ClockStep(us[i], m, c);
    }
  }

  lemma RestingSettles(us: seq<int>, m: int, c: Setting, lo: int, hi: int, j: nat)
    requires Resting(us, DayOf(m, c), lo, hi)
    ensures Settling(m, c, lo, hi)(us, j)
  {
    WithinShifts(us, m, lo, hi);
    RestingIsClean(us, m, c);
    CleanContained(Shifted(us, m), c, m + lo, m + hi, j);
  }

  lemma TurnShifts(us: seq<int>, next: seq<int>, m: int, c: Setting, lo: int, hi: int)
    requires Turns(us, next, DayOf(m, c), lo, hi)
    ensures Within(Shifted(us, m), m + lo, m + hi) && Within(Steps(Shifted(us, m), c), m + lo, m + hi)
    ensures Shifted(next, m) == Walk(Steps(Shifted(us, m), c))
  {
    var s := ClockSteps(us, DayOf(m, c));
    assert Steps(Shifted(us, m), c) == Shifted(s, m);
    WithinShifts(us, m, lo, hi);
    WithinShifts(s, m, lo, hi);
    WalkShifts(s, m);
  }

  lemma TurnSettles(us: seq<int>, next: seq<int>, m: int, c: Setting, lo: int, hi: int, j: nat)
    requires Turns(us, next, DayOf(m, c), lo, hi) && Settling(m, c, lo, hi)(next, j)
    ensures Settling(m, c, lo, hi)(us, j + 1)
  {
    TurnShifts(us, next, m, c, lo, hi);
    ContainedFrom(Shifted(us, m), Shifted(next, m), c, m + lo, m + hi, j);
  }

  lemma SettlingIsClocked(m: int, c: Setting, lo: int, hi: int)
    ensures Clocked(Settling(m, c, lo, hi), DayOf(m, c), lo, hi)
  {
    var on := Settling(m, c, lo, hi);
    forall us, j: nat | Resting(us, DayOf(m, c), lo, hi) ensures on(us, j) {
      RestingSettles(us, m, c, lo, hi, j);
    }
    forall us, next, j: nat | Turns(us, next, DayOf(m, c), lo, hi) && on(next, j) ensures on(us, j + 1) {
      TurnSettles(us, next, m, c, lo, hi, j);
    }
  }

  lemma Turn(us: seq<int>, next: seq<int>, on: Countdown, d: Day, lo: int, hi: int, j: nat)
    requires Clocked(on, d, lo, hi) && Turns(us, next, d, lo, hi) && on(next, j)
    ensures on(us, j + 1)
  {
  }

  /* Rounds of blocks of one, two and three sends, spelled out. */

  lemma OneRound(x: int, x': int, on: Countdown, d: Day, lo: int, hi: int, k: nat)
    requires Clocked(on, d, lo, hi) && on([x'], k)
    requires x' == d.step(x) && lo <= x <= hi && lo <= x' <= hi
    ensures on([x], k + 1)
  {
    assert ClockSteps([x], d) == [x'];
    Turn([x], [x'], on, d, lo, hi, k);
  }

  lemma OneRests(x: int, on: Countdown, d: Day, lo: int, hi: int, k: nat)
    requires Clocked(on, d, lo, hi) && d.step(x) == x && lo <= x <= hi
    ensures on([x], k)
  {
    assert ClockSteps([x], d) == [x];
    assert Resting([x], d, lo, hi);
  }

  lemma TwoTurn(x: int, y: int, x': int, y': int, d: Day, lo: int, hi: int)
    requires lo <= x <= y <= hi
    requires lo <= x' == d.step(x) <= d.step(y) <= y' <= hi
    requires y' == Max(d.step(y), x' + MIN_GAP)
    ensures Turns([x, y], [x', y'], d, lo, hi)
  {
    assert ClockSteps([x, y], d) == [x', d.step(y)];
    WalkIs([x', d.step(y)], [x', y']);
  }

  lemma TwoRound(x: int, y: int, x': int, y': int, on: Countdown, d: Day, lo: int, hi: int, k: nat)
    requires Clocked(on, d, lo, hi) && on([x', y'], k) && lo <= x <= y <= hi
    requires lo <= x' == d.step(x) <= d.step(y) <= y' <= hi
    requires y' == Max(d.step(y), x' + MIN_GAP)
    ensures on([x, y], k + 1)
  {
    TwoTurn(x, y, x', y', d, lo, hi);
    Turn([x, y], [x', y'], on, d, lo, hi, k);
  }

  lemma TwoRest(x: int, y: int, on: Countdown, d: Day, lo: int, hi: int, k: nat)
    requires Clocked(on, d, lo, hi)
    requires d.step(x) == x && d.step(y) == y && lo <= x && x + MIN_GAP <= y <= hi
    ensures on([x, y], k)
  {
    assert ClockSteps([x, y], d) == [x, y];
    assert Resting([x, y], d, lo, hi);
  }

  lemma ThreeTurn(x: int, y: int, z: int, x': int, y': int, z': int, d: Day, lo: int, hi: int)
    requires lo <= x <= y <= z <= hi
    requires lo <= x' == d.step(x) <= d.step(y) <= d.step(z) <= z' <= hi
    requires y' == Max(d.step(y), x' + MIN_GAP) && z' == Max(d.step(z), y' + MIN_GAP)
    ensures Turns([x, y, z], [x', y', z'], d, lo, hi)
  {
    assert ClockSteps([x, y, z], d) == [x', d.step(y), d.step(z)];
    WalkIs([x', d.step(y), d.step(z)], [x', y', z']);
  }

  lemma ThreeRound(x: int, y: int, z: int, x': int, y': int, z': int,
                   on: Countdown, d: Day, lo: int, hi: int, k: nat)
    requires Clocked(on, d, lo, hi) && on([x', y', z'], k) && lo <= x <= y <= z <= hi
    requires lo <= x' == d.step(x) <= d.step(y) <= d.step(z) <= z' <= hi
    requires y' == Max(d.step(y), x' + MIN_GAP) && z' == Max(d.step(z), y' + MIN_GAP)
    ensures on([x, y, z], k + 1)
  {
    ThreeTurn(x, y, z, x', y', z', d, lo, hi);
    Turn([x, y, z], [x', y', z'], on, d, lo, hi, k);
  }

  lemma ThreeRest(x: int, y: int, z: int, on: Countdown, d: Day, lo: int, hi: int, k: nat)
    requires Clocked(on, d, lo, hi)
    requires d.step(x) == x && d.step(y) == y && d.step(z) == z
    requires lo <= x && x + MIN_GAP <= y && y + MIN_GAP <= z <= hi
    ensures on([x, y, z], k)
  {
    assert ClockSteps([x, y, z], d) == [x, y, z];
    assert Resting([x, y, z], d, lo, hi);
  }

  /* -------------------------------------------------------- the blocks of the grid */

  /** A call at 10:00 can be pushed twice at most, and then meets nothing more. */
  ghost predicate EasyMorning(d: Day) {
    && !(d.hit(Clock(8, 0)) && d.hit(Clock(12, 0)))
    && (d.hit(Clock(10, 0)) ==> !d.hit(Clock(14, 0)) && !d.hit(Clock(16, 0)))
  }

  lemma MorningsAreEasy(m: int, c: Setting)
    requires SpacedBy(c, Clock(9, 0))
    ensures EasyMorning(DayOf(m, c))
  {
    NotBothHit(m, Clock(8, 0), Clock(12, 0), c, Clock(9, 0));
    NotBothHit(m, Clock(10, 0), Clock(14, 0), c, Clock(9, 0));
    NotBothHit(m, Clock(10, 0), Clock(16, 0), c, Clock(9, 0));
  }

  /** What one push at 14:30 rules out elsewhere on the day. */
  ghost predicate BusyMidday(d: Day) {
    && d.hit(Clock(14, 30)) && !d.hit(Clock(10, 0))
    && !d.hit(Clock(18, 0)) && !d.hit(Clock(18, 30)) && !d.hit(Clock(20, 30))
  }

  lemma MiddayIsBusy(m: int, c: Setting)
    requires SpacedBy(c, Clock(9, 0)) && Hit(m, Clock(14, 30), c)
    ensures BusyMidday(DayOf(m, c))
  {
    NotBothHit(m, Clock(10, 0), Clock(14, 30), c, Clock(9, 0));
    NotBothHit(m, Clock(14, 30), Clock(18, 0), c, Clock(9, 0));
    NotBothHit(m, Clock(14, 30), Clock(18, 30), c, Clock(9, 0));
    NotBothHit(m, Clock(14, 30), Clock(20, 30), c, Clock(9, 0));
  }

  /** A send left over from the evening before, or put off to 08:00 from the start. */
  predicate Pending(x: int) {
    -Clock(6, 0) <= x < -Clock(1, 0) || x == Clock(8, 0)
  }

  /** The rounds it may take to find its place. */
  function Need(x: int, d: Day): nat
    decreases -x
  {
    if x < -Clock(3, 0) then (if d.hit(x) then 1 + Need(x + CONFLICT_SHIFT, d) else 0)
    else if d.hit(Clock(8, 0)) then 2
    else if x < 0 then 1
    else 0
  }

  lemma NeedAfter(x: int, d: Day)
    ensures x >= -Clock(3, 0) ==> Need(x, d) <= 2 && (!d.hit(Clock(8, 0)) ==> Need(x, d) <= 1)
    ensures -Clock(5, 0) <= x < -Clock(3, 0) ==> Need(x, d) <= 3
    ensures -Clock(5, 0) <= x < -Clock(3, 0) && (!d.hit(Clock(8, 0)) || !d.hit(x)) ==> Need(x, d) <= 2
  {
    if -Clock(5, 0) <= x < -Clock(3, 0) { assert x + CONFLICT_SHIFT >= -Clock(3, 0); }
  }

  lemma PushedTwiceByOne(x: int, m: int, c: Setting, i: nat, j: nat)
    requires SpacedBy(c, Clock(16, 0)) && i < |c.transactional| && j < |c.transactional|
    requires Near(c.transactional[i], m + x) && Near(c.transactional[j], m + (x + CONFLICT_SHIFT))
    ensures m + x + CONFLICT_SHIFT - CONFLICT_WINDOW <= c.transactional[i]
  {
  }

  /** Sixteen hours rule out that a send pushed twice in the evening meets another in the morning. */
  lemma PushedTwiceThenFree(x: int, m: int, c: Setting)
    requires SpacedBy(c, Clock(16, 0)) && -Clock(6, 0) <= x < -Clock(5, 0)
    requires Hit(m, x, c) && Hit(m, x + CONFLICT_SHIFT, c)
    ensures !Hit(m, Clock(8, 0), c)
  {
    var i :| 0 <= i < |c.transactional| && Near(c.transactional[i], m + x);
    var j :| 0 <= j < |c.transactional| && Near(c.transactional[j], m + (x + CONFLICT_SHIFT));
    PushedTwiceByOne(x, m, c, i, j);
    forall n | 0 <= n < |c.transactional| ensures !Near(c.transactional[n], m + Clock(8, 0)) {
    }
  }

  lemma NeedIsSmall(x: int, m: int, c: Setting)
    requires Pending(x)
    ensures Need(x, DayOf(m, c)) <= 4
    ensures SpacedBy(c, Clock(16, 0)) ==> Need(x, DayOf(m, c)) <= 3
  {
    NeedAfter(x, DayOf(m, c));
    if x < -Clock(5, 0) {
      NeedAfter(x + CONFLICT_SHIFT, DayOf(m, c));
      if SpacedBy(c, Clock(16, 0)) && Hit(m, x, c) && Hit(m, x + CONFLICT_SHIFT, c) {
        PushedTwiceThenFree(x, m, c);
      }
    }
  }

  lemma PendingStep(x: int, d: Day)
    requires Works(d) && Pending(x)
    ensures Need(x, d) == 0 ==> d.step(x) == x
    ensures Need(x, d) > 0 && x < -Clock(3, 0) ==>
              && d.step(x) == x + CONFLICT_SHIFT && Pending(x + CONFLICT_SHIFT)
              && Need(x + CONFLICT_SHIFT, d) == Need(x, d) - 1
    ensures Need(x, d) > 0 && x >= -Clock(3, 0) ==>
              d.step(x) == if d.hit(Clock(8, 0)) then Clock(10, 0) else Clock(8, 0)
  {
  }

  /** Left over, with nothing after it until 14:30. */
  lemma {:induction false} PendingSettles(x: int, on: Countdown, d: Day, lo: int, hi: int, k: nat)
    requires Clocked(on, d, lo, hi) && lo <= -Clock(6, 0) && Clock(12, 0) <= hi
    requires Works(d) && EasyMorning(d) && Pending(x) && Need(x, d) <= k
    ensures on([x], k)
    decreases k
  {
    PendingStep(x, d);
    if Need(x, d) == 0 {
      OneRests(x, on, d, lo, hi, k);
    } else if x < -Clock(3, 0) {
      PendingSettles(x + CONFLICT_SHIFT, on, d, lo, hi, k - 1);
      OneRound(x, x + CONFLICT_SHIFT, on, d, lo, hi, k - 1);
    } else if !d.hit(Clock(8, 0)) {
      OneRests(Clock(8, 0), on, d, lo, hi, k - 1);
      OneRound(x, Clock(8, 0), on, d, lo, hi, k - 1);
    } else if !d.hit(Clock(10, 0)) {
      OneRests(Clock(10, 0), on, d, lo, hi, k - 1);
      OneRound(x, Clock(10, 0), on, d, lo, hi, k - 1);
    } else {
      OneRests(Clock(12, 0), on, d, lo, hi, k - 2);
      OneRound(Clock(10, 0), Clock(12, 0), on, d, lo, hi, k - 2);
      OneRound(x, Clock(10, 0), on, d, lo, hi, k - 1);
    }
  }

  lemma ArrivesBeforeCall(x: int, on: Countdown, d: Day, lo: int, hi: int, k: nat)
    requires Clocked(on, d, lo, hi) && lo <= -Clock(6, 0) && Clock(12, 0) <= hi
    requires Works(d) && EasyMorning(d) && !d.hit(Clock(10, 0))
    requires lo <= x <= Clock(8, 0) && d.step(x) == if d.hit(Clock(8, 0)) then Clock(10, 0) else Clock(8, 0)
    ensures on([x, Clock(10, 0)], k + 1)
  {
    if d.hit(Clock(8, 0)) {
      TwoRest(Clock(10, 0), Clock(12, 0), on, d, lo, hi, k);
      TwoRound(x, Clock(10, 0), Clock(10, 0), Clock(12, 0), on, d, lo, hi, k);
    } else {
      TwoRest(Clock(8, 0), Clock(10, 0), on, d, lo, hi, k);
      TwoRound(x, Clock(10, 0), Clock(8, 0), Clock(10, 0), on, d, lo, hi, k);
    }
  }

  /** Left over, before a call that stays at 10:00 but for the gap. */
  lemma {:induction false} PendingBeforeCall(x: int, on: Countdown, d: Day, lo: int, hi: int, k: nat)
    requires Clocked(on, d, lo, hi) && lo <= -Clock(6, 0) && Clock(12, 0) <= hi
    requires Works(d) && EasyMorning(d) && !d.hit(Clock(10, 0))
    requires Pending(x) && Need(x, d) <= k
    ensures on([x, Clock(10, 0)], k)
    decreases k
  {
    PendingStep(x, d);
    if Need(x, d) == 0 {
      TwoRest(x, Clock(10, 0), on, d, lo, hi, k);
    } else if x < -Clock(3, 0) {
      PendingBeforeCall(x + CONFLICT_SHIFT, on, d, lo, hi, k - 1);
      TwoRound(x, Clock(10, 0), x + CONFLICT_SHIFT, Clock(10, 0), on, d, lo, hi, k - 1);
    } else {
      ArrivesBeforeCall(x, on, d, lo, hi, k - 1);
    }
  }

  /** How far a day's call, and the bank step of 14:30 behind it, have been pushed. */
  datatype Stage = AsPlanned | CallAtNoon | CallAtTwo

  function CallAt(stage: Stage): int {
    match stage
    case AsPlanned => Clock(10, 0)
    case CallAtNoon => Clock(12, 0)
    case CallAtTwo => Clock(14, 0)
  }

  function StepAt(stage: Stage): int {
    if stage == CallAtTwo then Clock(16, 0) else Clock(14, 30)
  }

  ghost predicate Possible(stage: Stage, d: Day) {
    && (stage != AsPlanned ==> d.hit(Clock(10, 0)))
    && (stage == CallAtTwo ==> d.hit(Clock(12, 0)))
  }

  predicate Moving(stage: Stage, d: Day) {
    stage != CallAtTwo && d.hit(CallAt(stage))
  }

  function Next(stage: Stage, d: Day): Stage {
    if !Moving(stage, d) then stage
    else if stage == AsPlanned then CallAtNoon else CallAtTwo
  }

  /** The rounds it takes them to come to rest. */
  function Left(stage: Stage, d: Day): nat {
    match stage
    case AsPlanned => if !d.hit(Clock(10, 0)) then 0 else if !d.hit(Clock(12, 0)) then 1 else 2
    case CallAtNoon => if !d.hit(Clock(12, 0)) then 0 else 1
    case CallAtTwo => 0
  }

  /** What the rules do to the call and the bank step, nothing being near 14:30. */
  lemma StageStep(stage: Stage, d: Day)
    requires Works(d) && EasyMorning(d) && !d.hit(Clock(14, 30)) && Possible(stage, d)
    ensures d.step(CallAt(stage)) == CallAt(Next(stage, d)) && Possible(Next(stage, d), d)
    ensures d.step(StepAt(stage)) == StepAt(stage)
    ensures StepAt(Next(stage, d)) == Max(StepAt(stage), CallAt(Next(stage, d)) + MIN_GAP)
    ensures CallAt(Next(stage, d)) <= StepAt(stage)
  {
  }

  lemma LeftAfter(stage: Stage, d: Day)
    requires Possible(stage, d)
    ensures Left(stage, d) > 0 ==> Left(Next(stage, d), d) < Left(stage, d)
    ensures Left(stage, d) == 0 ==> Left(Next(stage, d), d) == 0
    ensures Left(stage, d) > 0 <==> Moving(stage, d)
    ensures Possible(Next(stage, d), d)
  {
  }

  /** A day's call and bank step with nothing left over from the evening before. */
  lemma {:induction false} MorningSettles(stage: Stage, on: Countdown, d: Day, lo: int, hi: int, k: nat)
    requires Clocked(on, d, lo, hi) && lo <= Clock(10, 0) && Clock(16, 0) <= hi
    requires Works(d) && EasyMorning(d) && !d.hit(Clock(14, 30))
    requires Possible(stage, d) && Left(stage, d) <= k
    ensures on([CallAt(stage), StepAt(stage)], k)
    decreases k
  {
    var next := Next(stage, d);
    StageStep(stage, d);
    if !Moving(stage, d) {
      TwoRest(CallAt(stage), StepAt(stage), on, d, lo, hi, k);
    } else {
      MorningSettles(next, on, d, lo, hi, k - 1);
      TwoRound(CallAt(stage), StepAt(stage), CallAt(next), StepAt(next), on, d, lo, hi, k - 1);
    }
  }

  /** A send that has arrived at 10:00 because something is near 08:00, and pushes the call to noon. */
  lemma ArrivedBeforeNoon(on: Countdown, d: Day, lo: int, hi: int, k: nat)
    requires Clocked(on, d, lo, hi) && lo <= -Clock(6, 0) && Clock(16, 0) <= hi
    requires Works(d) && EasyMorning(d) && !d.hit(Clock(14, 30)) && d.hit(Clock(8, 0))
    requires k >= 1
    ensures on([Clock(10, 0), Clock(12, 0), Clock(14, 30)], k)
  {
    if d.hit(Clock(10, 0)) {
      ThreeRest(Clock(12, 0), Clock(14, 0), Clock(16, 0), on, d, lo, hi, k - 1);
      ThreeRound(Clock(10, 0), Clock(12, 0), Clock(14, 30), Clock(12, 0), Clock(14, 0), Clock(16, 0),
                 on, d, lo, hi, k - 1);
    } else {
      ThreeRest(Clock(10, 0), Clock(12, 0), Clock(14, 30), on, d, lo, hi, k);
    }
  }

  /** A leftover arrives at 10:00, something being near 08:00. */
  lemma ArrivesPushed(x: int, stage: Stage, on: Countdown, d: Day, lo: int, hi: int, k: nat)
    requires Clocked(on, d, lo, hi) && lo <= -Clock(6, 0) && Clock(16, 0) <= hi
    requires Works(d) && EasyMorning(d) && !d.hit(Clock(14, 30)) && d.hit(Clock(8, 0))
    requires Possible(stage, d) && lo <= x <= Clock(8, 0) && d.step(x) == Clock(10, 0) && k >= 2
    ensures on([x, CallAt(stage), StepAt(stage)], k)
  {
    StageStep(stage, d);
    ArrivedBeforeNoon(on, d, lo, hi, k - 1);
    ThreeRound(x, CallAt(stage), StepAt(stage), Clock(10, 0), Clock(12, 0), Clock(14, 30), on, d, lo, hi, k - 1);
  }

  /** A leftover moves on, in the evening or to 08:00, without touching what comes after it. */
  lemma MovesBefore(x: int, x': int, stage: Stage, on: Countdown, d: Day, lo: int, hi: int, k: nat)
    requires Clocked(on, d, lo, hi) && lo <= -Clock(6, 0) && Clock(16, 0) <= hi
    requires Works(d) && EasyMorning(d) && !d.hit(Clock(14, 30)) && Possible(stage, d)
    requires lo <= x <= x' <= Clock(8, 0) && d.step(x) == x'
    requires on([x', CallAt(Next(stage, d)), StepAt(Next(stage, d))], k)
    ensures on([x, CallAt(stage), StepAt(stage)], k + 1)
  {
    var next := Next(stage, d);
    StageStep(stage, d);
    ThreeRound(x, CallAt(stage), StepAt(stage), x', CallAt(next), StepAt(next), on, d, lo, hi, k);
  }

  /** Once nothing before them is on the move, the call and the bank step behind a send at rest. */
  lemma {:induction false} MorningBehind(x: int, stage: Stage, on: Countdown, d: Day, lo: int, hi: int, k: nat)
    requires Clocked(on, d, lo, hi) && lo <= -Clock(6, 0) && Clock(16, 0) <= hi
    requires Works(d) && EasyMorning(d) && !d.hit(Clock(14, 30))
    requires Possible(stage, d) && Left(stage, d) <= k
    requires -Clock(6, 0) <= x <= Clock(8, 0) && d.step(x) == x
    ensures on([x, CallAt(stage), StepAt(stage)], k)
    decreases k
  {
    LeftAfter(stage, d);
    if Left(stage, d) == 0 {
      StageStep(stage, d);
      ThreeRest(x, CallAt(stage), StepAt(stage), on, d, lo, hi, k);
    } else {
      MorningBehind(x, Next(stage, d), on, d, lo, hi, k - 1);
      MovesBefore(x, x, stage, on, d, lo, hi, k - 1);
    }
  }

  /** The round in which a leftover arrives in the morning. */
  lemma PendingArrives(x: int, stage: Stage, on: Countdown, d: Day, lo: int, hi: int, k: nat)
    requires Clocked(on, d, lo, hi) && lo <= -Clock(6, 0) && Clock(16, 0) <= hi
    requires Works(d) && EasyMorning(d) && !d.hit(Clock(14, 30))
    requires Possible(stage, d) && Left(stage, d) <= k && lo <= x <= Clock(8, 0)
    requires d.step(x) == if d.hit(Clock(8, 0)) then Clock(10, 0) else Clock(8, 0)
    requires k >= if d.hit(Clock(8, 0)) then 2 else 1
    ensures on([x, CallAt(stage), StepAt(stage)], k)
  {
    if d.hit(Clock(8, 0)) {
      ArrivesPushed(x, stage, on, d, lo, hi, k);
    } else {
      LeftAfter(stage, d);
      MorningBehind(Clock(8, 0), Next(stage, d), on, d, lo, hi, k - 1);
      MovesBefore(x, Clock(8, 0), stage, on, d, lo, hi, k - 1);
    }
  }

  lemma NeedWhenArriving(x: int, d: Day)
    requires Pending(x) && x >= -Clock(3, 0) && Need(x, d) > 0
    ensures Need(x, d) == if d.hit(Clock(8, 0)) then 2 else 1
  {
  }

  /** A day's call and bank step behind a leftover. */
  lemma {:induction false} PendingBeforeMorning(x: int, stage: Stage, on: Countdown, d: Day, lo: int, hi: int, k: nat)
    requires Clocked(on, d, lo, hi) && lo <= -Clock(6, 0) && Clock(16, 0) <= hi
    requires Works(d) && EasyMorning(d) && !d.hit(Clock(14, 30))
    requires Possible(stage, d) && Left(stage, d) <= k && Pending(x) && Need(x, d) <= k
    ensures on([x, CallAt(stage), StepAt(stage)], k)
    decreases k
  {
    PendingStep(x, d);
    if Need(x, d) == 0 {
      MorningBehind(x, stage, on, d, lo, hi, k);
    } else if x < -Clock(3, 0) {
      LeftAfter(stage, d);
      PendingBeforeMorning(x + CONFLICT_SHIFT, Next(stage, d), on, d, lo, hi, k - 1);
      MovesBefore(x, x + CONFLICT_SHIFT, stage, on, d, lo, hi, k - 1);
    } else {
      NeedWhenArriving(x, d);
      PendingArrives(x, stage, on, d, lo, hi, k);
    }
  }

  /** The bank steps of 14:30 and 18:00, the first being pushed. */
  lemma MiddayPushes(on: Countdown, d: Day, lo: int, hi: int, k: nat)
    requires Clocked(on, d, lo, hi) && lo <= Clock(14, 30) && Clock(20, 30) <= hi
    requires Works(d) && BusyMidday(d) && k >= 2
    ensures on([Clock(14, 30), Clock(18, 0)], k)
  {
    if d.hit(Clock(16, 30)) {
      TwoRest(Clock(18, 30), Clock(20, 30), on, d, lo, hi, k - 2);
      TwoRound(Clock(16, 30), Clock(18, 30), Clock(18, 30), Clock(20, 30), on, d, lo, hi, k - 2);
    } else {
      TwoRest(Clock(16, 30), Clock(18, 30), on, d, lo, hi, k - 1);
    }
    TwoRound(Clock(14, 30), Clock(18, 0), Clock(16, 30), Clock(18, 30), on, d, lo, hi, k - 1);
  }

  /** The last bank step, which has nothing after it. */
  lemma LastStepPushed(on: Countdown, d: Day, lo: int, hi: int, k: nat)
    requires Clocked(on, d, lo, hi) && lo <= Clock(14, 30) && Clock(20, 30) <= hi
    requires Works(d) && BusyMidday(d) && k >= 2
    ensures on([Clock(14, 30)], k)
  {
    if d.hit(Clock(16, 30)) {
      OneRests(Clock(18, 30), on, d, lo, hi, k - 2);
      OneRound(Clock(16, 30), Clock(18, 30), on, d, lo, hi, k - 2);
    } else {
      OneRests(Clock(16, 30), on, d, lo, hi, k - 1);
    }
    OneRound(Clock(14, 30), Clock(16, 30), on, d, lo, hi, k - 1);
  }

  /** A call with nothing near it but transactional sends. */
  lemma CallSettles(on: Countdown, d: Day, lo: int, hi: int, k: nat)
    requires Clocked(on, d, lo, hi) && lo <= Clock(10, 0) && Clock(14, 0) <= hi
    requires Works(d) && EasyMorning(d) && k >= 2
    ensures on([Clock(10, 0)], k)
  {
    if !d.hit(Clock(10, 0)) {
      OneRests(Clock(10, 0), on, d, lo, hi, k);
    } else {
      if d.hit(Clock(12, 0)) {
        OneRests(Clock(14, 0), on, d, lo, hi, k - 2);
        OneRound(Clock(12, 0), Clock(14, 0), on, d, lo, hi, k - 2);
      } else {
        OneRests(Clock(12, 0), on, d, lo, hi, k - 1);
      }
      OneRound(Clock(10, 0), Clock(12, 0), on, d, lo, hi, k - 1);
    }
  }
}
