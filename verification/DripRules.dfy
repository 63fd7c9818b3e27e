/**
  What a finished schedule guarantees: when the loop stops because a round
  changed nothing, every rule holds at once, and whatever the exit, no slot is
  lost, none is brought forward, and the trail says truthfully what moved.
 */
module DripRules {
  import opened DripSchedule
  import opened DripSorting

  /** The per-step rules, as a promise about one send. */
  ghost predicate Obeys(s: Send, c: Setting) {
    && !(s.slot.isFinal && LandsOnSunday(s.at, c.zone))
    && !InQuietHours(s.at, c.zone)
    && (forall i | 0 <= i < |c.transactional| :: !Near(c.transactional[i], s.at))
  }

  /** All rules at once, on a plan in send order. */
  ghost predicate RulesHold(s: seq<Send>, c: Setting) {
    && (forall i | 0 <= i < |s| :: Obeys(s[i], c))
    && (forall i, j | 0 <= i < j < |s| :: s[j].at - s[i].at >= MIN_GAP)
  }

  /** The loop meets a round that changes nothing among its first `rounds` rounds. */
  ghost predicate SettlesWithin(s: seq<Send>, c: Setting, rounds: nat)
    decreases rounds
  {
    rounds > 0 && (RoundChanges(s, c) ==> SettlesWithin(Round(s, c), c, rounds - 1))
  }

  /** The clock reads back what it was set to. */
  lemma InstantReads(d: int, hour: int, minute: int, zone: int)
    requires 0 <= hour < 24 && 0 <= minute < 60
    ensures LocalDay(Instant(d, hour, minute, zone), zone) == d
    ensures LocalHour(Instant(d, hour, minute, zone), zone) == hour
  {
  }

  /* ------------------------------------------------- one round that is quiet */

  lemma StepRulesFixed(s: Send, c: Setting)
    ensures StepRules(s, c) == s <==> Obeys(s, c)
  {
    var w := WeekendRule(s, c);
    var q := QuietRule(w, c);
    assert |s.trail| <= |w.trail| <= |q.trail| <= |StepRules(s, c).trail|;
  }

  lemma RulesPassFixed(s: seq<Send>, c: Setting)
    ensures RulesPass(s, c) == s <==> forall i | 0 <= i < |s| :: Obeys(s[i], c)
  {
    forall i | 0 <= i < |s| ensures StepRules(s[i], c) == s[i] <==> Obeys(s[i], c) {
      StepRulesFixed(s[i], c);
    }
    if RulesPass(s, c) == s {
      forall i | 0 <= i < |s| ensures Obeys(s[i], c) {
        assert RulesPass(s, c)[i] == s[i];
      }
    }
  }

  ghost predicate Spaced(s: seq<Send>) {
    forall i | 0 < i < |s| :: s[i].at - s[i - 1].at >= MIN_GAP
  }

  lemma {:induction false} GapPassFixed(s: seq<Send>, k: nat)
    requires k <= |s|
    ensures GapPass(s, k) == s[..k] <==> Spaced(s[..k])
  {
    if k > 1 {
      GapPassFixed(s, k - 1);
      SpacedPrefix(s, k);
      var before := GapPass(s, k - 1);
      var last := GapRule(before[k - 2], s[k - 1]);
      assert s[..k] == s[..k - 1] + [s[k - 1]];
      assert last == s[k - 1] <==> s[k - 1].at - before[k - 2].at >= MIN_GAP by {
        assert last != s[k - 1] <==> |last.trail| > |s[k - 1].trail|;
      }
      assert GapPass(s, k)[..k - 1] == before && GapPass(s, k)[k - 1] == last;
    }
  }

  lemma SpacedPrefix(s: seq<Send>, k: nat)
    requires 1 < k <= |s|
    ensures Spaced(s[..k]) <==> Spaced(s[..k - 1]) && s[k - 1].at - s[k - 2].at >= MIN_GAP
  {
    var whole, front := s[..k], s[..k - 1];
    if Spaced(whole) {
      assert forall i | 0 <= i < |front| :: front[i] == whole[i];
      assert whole[k - 1].at - whole[k - 2].at >= MIN_GAP;
    }
  }

  lemma {:induction false} SpacedPairwise(s: seq<Send>, i: nat, j: nat)
    requires Spaced(s) && i < j < |s|
    ensures s[j].at - s[i].at >= MIN_GAP
  {
    if i + 1 < j { SpacedPairwise(s, i, j - 1); }
  }

  lemma ObeysIsOrderFree(s: seq<Send>, t: seq<Send>, c: Setting)
    requires multiset(s) == multiset(t)
    requires forall i | 0 <= i < |s| :: Obeys(s[i], c)
    ensures forall i | 0 <= i < |t| :: Obeys(t[i], c)
  {
    forall i | 0 <= i < |t| ensures Obeys(t[i], c) {
      assert t[i] in multiset(s);
    }
  }

  /** A round changes nothing exactly when the plan, put in order, obeys every rule. */
  lemma QuietRoundIffRulesHold(s: seq<Send>, c: Setting)
    ensures !RoundChanges(s, c) <==> RulesHold(StableSort(s), c)
    ensures !RoundChanges(s, c) ==> Round(s, c) == StableSort(s)
  {
    var t := StableSort(s);
    StableSortSorts(s);
    RulesPassFixed(s, c);
    GapPassFixed(t, |t|);
    assert t[..|t|] == t;
    if !RoundChanges(s, c) {
      ObeysIsOrderFree(s, t, c);
      forall i, j | 0 <= i < j < |t| ensures t[j].at - t[i].at >= MIN_GAP {
        SpacedPairwise(t, i, j);
      }
    }
    if RulesHold(t, c) {
      ObeysIsOrderFree(t, s, c);
    }
  }

  /* ------------------------------------------------------------ the whole run */

  lemma {:induction false} GapPassSorts(s: seq<Send>, k: nat)
    requires k <= |s|
    requires Sorted(s)
    ensures Sorted(GapPass(s, k)) && Spaced(GapPass(s, k))
    ensures forall i | 0 <= i < k :: GapPass(s, k)[i].at >= s[i].at
  {
    if k > 1 {
      GapPassSorts(s, k - 1);
    }
  }

  lemma RoundSorts(s: seq<Send>, c: Setting)
    ensures Sorted(Round(s, c))
  {
    var t := StableSort(RulesPass(s, c));
    StableSortSorts(RulesPass(s, c));
    GapPassSorts(t, |t|);
  }

  lemma QuietRoundHolds(s: seq<Send>, c: Setting)
    requires !RoundChanges(s, c)
    ensures RulesHold(StableSort(Round(s, c)), c)
  {
    QuietRoundIffRulesHold(s, c);
    RoundSorts(s, c);
    SortedIsFixed(Round(s, c));
  }

  /** A round under a name, so that it is taken only where one is meant. */
  ghost predicate IsRound(s: seq<Send>, next: seq<Send>, c: Setting) {
    next == Round(s, c)
  }

  /** The plan after at most `rounds` rounds obeys the rules. */
  ghost predicate EndsWell(s: seq<Send>, c: Setting, rounds: nat) {
    RulesHold(StableSort(Resolve(s, c, rounds)), c)
  }

  ghost predicate EndsAsItSettles(s: seq<Send>, c: Setting, rounds: nat) {
    SettlesWithin(s, c, rounds + 1) <==> EndsWell(s, c, rounds)
  }

  lemma ChangingRound(s: seq<Send>, next: seq<Send>, c: Setting, rounds: nat)
    requires RoundChanges(s, c) && IsRound(s, next, c)
    ensures EndsAsItSettles(next, c, rounds) ==> EndsAsItSettles(s, c, rounds + 1)
  {
  }

  lemma QuietRoundEnds(s: seq<Send>, c: Setting, rounds: nat)
    requires !RoundChanges(s, c)
    ensures EndsAsItSettles(s, c, rounds)
  {
    if rounds == 0 {
      QuietRoundIffRulesHold(s, c);
    } else {
      QuietRoundHolds(s, c);
    }
  }

  lemma NoRoundLeft(s: seq<Send>, c: Setting)
    requires RoundChanges(s, c)
    ensures EndsAsItSettles(s, c, 0)
  {
    QuietRoundIffRulesHold(s, c);
  }

  lemma {:induction false} ResolveSettles(s: seq<Send>, c: Setting, rounds: nat)
    ensures EndsAsItSettles(s, c, rounds)
    decreases rounds
  {
    if !RoundChanges(s, c) {
      QuietRoundEnds(s, c, rounds);
    } else if rounds == 0 {
      NoRoundLeft(s, c);
    } else {
      var next := Round(s, c);
      ResolveSettles(next, c, rounds - 1);
      ChangingRound(s, next, c, rounds - 1);
    }
  }

  /**
    The returned plan obeys every rule exactly when the loop, given one round more
    than its cap, would meet a round that changes nothing.
   */
  lemma {:induction false} ScheduleObeysRulesIff(submitted: int, c: Setting, keys: set<SequenceKey>)
    ensures RulesHold(Schedule(submitted, c, keys), c)
            <==> SettlesWithin(StartingPlan(submitted, c, keys), c, MAX_ROUNDS + 1)
  {
    ResolveSettles(StartingPlan(submitted, c, keys), c, MAX_ROUNDS);
  }

  lemma {:induction false} SettlesMonotone(s: seq<Send>, c: Setting, few: nat, many: nat)
    requires few <= many
    requires SettlesWithin(s, c, few)
    ensures SettlesWithin(s, c, many)
    decreases few
  {
    if RoundChanges(s, c) {
      SettlesMonotone(Round(s, c), c, few - 1, many - 1);
    }
  }

  /** Leaving the loop on a quiet round, at or before the cap, means every rule holds. */
  lemma {:induction false} QuietExitObeysRules(submitted: int, c: Setting, keys: set<SequenceKey>)
    requires SettlesWithin(StartingPlan(submitted, c, keys), c, MAX_ROUNDS)
    ensures RulesHold(Schedule(submitted, c, keys), c)
  {
    SettlesMonotone(StartingPlan(submitted, c, keys), c, MAX_ROUNDS, MAX_ROUNDS + 1);
    ScheduleObeysRulesIff(submitted, c, keys);
  }

  /* --------------------------------------------- nothing lost, nothing hidden */

  /**
    A send that has only been pushed later: it sits on or after its ideal slot,
    at least a millisecond later for every rule in its trail beyond the initial one.
   */
  ghost predicate Honest(s: Send, submitted: int, zone: int) {
    && IdealTrail(s.slot, submitted, zone) <= s.trail
    && s.at - IdealAt(s.slot, submitted, zone)
       >= |s.trail| - |IdealTrail(s.slot, submitted, zone)|
    && (s.at > IdealAt(s.slot, submitted, zone) ==> s.trail != IdealTrail(s.slot, submitted, zone))
  }

  function Slots(s: seq<Send>): (r: seq<Slot>)
    ensures |r| == |s|
    ensures forall i | 0 <= i < |s| :: r[i] == s[i].slot
  {
    seq(|s|, i requires 0 <= i < |s| => s[i].slot)
  }

  lemma QuietMovesForward(t: int, zone: int)
    requires InQuietHours(t, zone)
    ensures ApplyQuietHours(t, zone) > t
  {
  }

  lemma StepRulesHonest(s: Send, c: Setting, submitted: int)
    requires Honest(s, submitted, c.zone)
    ensures Honest(StepRules(s, c), submitted, c.zone)
    ensures StepRules(s, c).slot == s.slot
  {
    var w := WeekendRule(s, c);
    if InQuietHours(w.at, c.zone) { QuietMovesForward(w.at, c.zone); }
  }

  ghost predicate AllHonest(s: seq<Send>, submitted: int, zone: int) {
    forall i | 0 <= i < |s| :: Honest(s[i], submitted, zone)
  }

  lemma {:induction false} GapPassHonest(s: seq<Send>, k: nat, submitted: int, zone: int)
    requires k <= |s|
    requires AllHonest(s, submitted, zone)
    ensures AllHonest(GapPass(s, k), submitted, zone)
    ensures forall i | 0 <= i < k :: GapPass(s, k)[i].slot == s[i].slot
  {
    if k > 1 {
      GapPassHonest(s, k - 1, submitted, zone);
    }
  }

  lemma SortKeepsSlots(s: seq<Send>)
    ensures multiset(Slots(StableSort(s))) == multiset(Slots(s))
  {
    StableSortSorts(s);
    ReorderedImage(s, StableSort(s), (x: Send) => x.slot, Slots(s), Slots(StableSort(s)));
  }

  lemma HonestIsOrderFree(s: seq<Send>, submitted: int, zone: int)
    requires AllHonest(s, submitted, zone)
    ensures AllHonest(StableSort(s), submitted, zone)
    ensures multiset(Slots(StableSort(s))) == multiset(Slots(s))
  {
    StableSortSorts(s);
    SortKeepsSlots(s);
    forall i | 0 <= i < |s| ensures Honest(StableSort(s)[i], submitted, zone) {
      assert StableSort(s)[i] in multiset(s);
    }
  }

  lemma RoundHonest(s: seq<Send>, c: Setting, submitted: int)
    requires AllHonest(s, submitted, c.zone)
    ensures AllHonest(Round(s, c), submitted, c.zone)
    ensures multiset(Slots(Round(s, c))) == multiset(Slots(s))
  {
    var r := RulesPass(s, c);
    forall i | 0 <= i < |s| ensures Honest(r[i], submitted, c.zone) && r[i].slot == s[i].slot {
      StepRulesHonest(s[i], c, submitted);
    }
    assert Slots(r) == Slots(s);
    HonestIsOrderFree(r, submitted, c.zone);
    var t := StableSort(r);
    GapPassHonest(t, |t|, submitted, c.zone);
    assert Slots(Round(s, c)) == Slots(t);
  }

  ghost predicate KeptByRounds(kept: seq<Send> -> bool, c: Setting) {
    forall s, next {:trigger IsRound(s, next, c)} | kept(s) && IsRound(s, next, c) :: kept(next)
  }

  lemma RoundKeeps(s: seq<Send>, next: seq<Send>, c: Setting, kept: seq<Send> -> bool)
    requires KeptByRounds(kept, c) && kept(s) && IsRound(s, next, c)
    ensures kept(next)
  {
  }

  ghost predicate KeptToTheEnd(s: seq<Send>, c: Setting, rounds: nat, kept: seq<Send> -> bool) {
    kept(Resolve(s, c, rounds))
  }

  lemma KeptFrom(s: seq<Send>, next: seq<Send>, c: Setting, rounds: nat, kept: seq<Send> -> bool)
    ensures kept(s) ==> KeptToTheEnd(s, c, 0, kept)
    ensures IsRound(s, next, c) && kept(next) && KeptToTheEnd(next, c, rounds, kept)
            ==> KeptToTheEnd(s, c, rounds + 1, kept)
  {
  }

  /** What every round keeps, the loop keeps. */
  lemma {:induction false} ResolveKeeps(s: seq<Send>, c: Setting, rounds: nat, kept: seq<Send> -> bool)
    requires kept(s) && KeptByRounds(kept, c)
    ensures KeptToTheEnd(s, c, rounds, kept)
    decreases rounds
  {
    var next := Round(s, c);
    if rounds == 0 {
      KeptFrom(s, next, c, 0, kept);
    } else {
      RoundKeeps(s, next, c, kept);
      ResolveKeeps(next, c, rounds - 1, kept);
      KeptFrom(s, next, c, rounds - 1, kept);
    }
  }

  lemma ResolveHonest(s: seq<Send>, c: Setting, submitted: int, rounds: nat)
    requires AllHonest(s, submitted, c.zone)
    ensures AllHonest(Resolve(s, c, rounds), submitted, c.zone)
    ensures multiset(Slots(Resolve(s, c, rounds))) == multiset(Slots(s))
  {
    var kept := (t: seq<Send>) => AllHonest(t, submitted, c.zone) && multiset(Slots(t)) == multiset(Slots(s));
    forall t, next | kept(t) && IsRound(t, next, c) ensures kept(next) {
      RoundHonest(t, c, submitted);
    }
    assert KeptByRounds(kept, c);
    ResolveKeeps(s, c, rounds, kept);
  }

  /** A send as it leaves the scheduler: never early, and late exactly when its trail says why. */
  ghost predicate NeverEarly(s: Send, submitted: int, zone: int) {
    && s.at >= IdealAt(s.slot, submitted, zone)
    && IdealTrail(s.slot, submitted, zone) <= s.trail
    && (s.at == IdealAt(s.slot, submitted, zone) <==> s.trail == IdealTrail(s.slot, submitted, zone))
  }

  lemma HonestIsNeverEarly(s: Send, submitted: int, zone: int)
    requires Honest(s, submitted, zone)
    ensures NeverEarly(s, submitted, zone)
  {
  }

  lemma ResolvedIsHonest(plan: seq<Send>, c: Setting, submitted: int, rounds: nat)
    requires AllHonest(plan, submitted, c.zone)
    ensures var p := StableSort(Resolve(plan, c, rounds));
            Sorted(p) && multiset(Slots(p)) == multiset(Slots(plan)) && AllHonest(p, submitted, c.zone)
  {
    ResolveHonest(plan, c, submitted, rounds);
    StableSortSorts(Resolve(plan, c, rounds));
    HonestIsOrderFree(Resolve(plan, c, rounds), submitted, c.zone);
  }

  lemma StartIsHonest(submitted: int, c: Setting, keys: set<SequenceKey>)
    ensures var plan := StartingPlan(submitted, c, keys);
            AllHonest(plan, submitted, c.zone) && Slots(plan) == Wanted(keys, IDEAL_SLOTS)
  {
  }

  /**
    Whatever the exit: the plan is in send order and fills exactly the requested
    slots, none before its ideal time, and a send sits at its ideal time if and
    only if the loop appended nothing to its trail.
   */
  lemma {:induction false} ScheduleIsHonest(submitted: int, c: Setting, keys: set<SequenceKey>)
    ensures Sorted(Schedule(submitted, c, keys))
    ensures multiset(Slots(Schedule(submitted, c, keys))) == multiset(Wanted(keys, IDEAL_SLOTS))
    ensures forall i | 0 <= i < |Schedule(submitted, c, keys)| ::
              NeverEarly(Schedule(submitted, c, keys)[i], submitted, c.zone)
  {
    StartIsHonest(submitted, c, keys);
    ResolvedIsHonest(StartingPlan(submitted, c, keys), c, submitted, MAX_ROUNDS);
    var p := Schedule(submitted, c, keys);
    forall i | 0 <= i < |p| ensures NeverEarly(p[i], submitted, c.zone) {
      HonestIsNeverEarly(p[i], submitted, c.zone);
    }
  }
}
