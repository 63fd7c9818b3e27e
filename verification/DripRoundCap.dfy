/**
  The cap of eight rounds is a real exit, not only a safety net: a transactional
  send every three hours for a month leaves no free time, each round moves a send
  by two days at most, and so the ninth round would still have work to do.
 */
module DripRoundCap {
  import opened DripSchedule
  import opened DripSorting
  import opened DripRules
  import opened DripIntakePlan

  function EveryThreeHours(from: int): (r: seq<int>)
    ensures |r| == 240
    ensures forall i | 0 <= i < 240 :: r[i] == from + i * 10_800_000
  {
    seq(240, i => from + i * 10_800_000)
  }

  lemma NoFreeTime(from: int, t: int)
    requires from <= t <= from + 25 * 86_400_000
    ensures ConflictsWithTransactional(t, EveryThreeHours(from))
  {
    var i := (t - from + 5_400_000) / 10_800_000;
    assert Near(EveryThreeHours(from)[i], t);
  }

  /** Nothing before `from`, and something no later than `late`. */
  ghost predicate Crowded(s: seq<Send>, from: int, late: int) {
    && (forall i | 0 <= i < |s| :: s[i].at >= from)
    && exists i | 0 <= i < |s| :: s[i].at <= late
  }

  lemma StepRulesReach(s: Send, c: Setting)
    ensures s.at <= StepRules(s, c).at <= s.at + 2 * 86_400_000
  {
    var w := WeekendRule(s, c);
    if InQuietHours(w.at, c.zone) { QuietMovesForward(w.at, c.zone); }
  }

  lemma {:induction false} FirstUnmoved(s: seq<Send>, k: nat)
    requires 0 < k <= |s|
    ensures GapPass(s, k)[0] == s[0]
  {
    if k > 1 { FirstUnmoved(s, k - 1); }
  }

  lemma {:induction false} SortingKeepsCrowded(r: seq<Send>, from: int, late: int)
    requires Crowded(r, from, late)
    ensures Crowded(StableSort(r), from, late)
  {
    var t := StableSort(r);
    StableSortSorts(r);
    var i :| 0 <= i < |r| && r[i].at <= late;
    assert r[i] in multiset(t);
    forall k | 0 <= k < |t| ensures t[k].at >= from {
      assert t[k] in multiset(r);
    }
  }

  lemma GapsKeepCrowded(t: seq<Send>, from: int, late: int)
    requires Sorted(t) && Crowded(t, from, late)
    ensures Crowded(GapPass(t, |t|), from, late)
  {
    FirstUnmoved(t, |t|);
    GapPassSorts(t, |t|);
    assert t[0].at <= late;
    assert GapPass(t, |t|)[0].at <= late;
  }

  lemma RoundStaysCrowded(s: seq<Send>, c: Setting, from: int, late: int)
    requires Crowded(s, from, late)
    ensures Crowded(Round(s, c), from, late + 2 * 86_400_000)
  {
    var r := RulesPass(s, c);
    forall k | 0 <= k < |s| ensures s[k].at <= r[k].at <= s[k].at + 2 * 86_400_000 {
      StepRulesReach(s[k], c);
    }
    var i :| 0 <= i < |s| && s[i].at <= late;
    assert r[i].at <= late + 2 * 86_400_000;
    SortingKeepsCrowded(r, from, late + 2 * 86_400_000);
    StableSortSorts(r);
    GapsKeepCrowded(StableSort(r), from, late + 2 * 86_400_000);
  }

  lemma CrowdedRoundChanges(s: seq<Send>, c: Setting, from: int, late: int)
    requires c.transactional == EveryThreeHours(from)
    requires Crowded(s, from, late) && late <= from + 25 * 86_400_000
    ensures RoundChanges(s, c)
  {
    var i :| 0 <= i < |s| && s[i].at <= late;
    NoFreeTime(from, s[i].at);
    RulesPassFixed(s, c);
  }

  lemma {:induction false} CrowdedNeverSettles(s: seq<Send>, c: Setting, from: int, late: int, rounds: nat)
    requires c.transactional == EveryThreeHours(from)
    requires Crowded(s, from, late)
    requires late + 2 * 86_400_000 * rounds <= from + 25 * 86_400_000
    ensures !SettlesWithin(s, c, rounds)
    decreases rounds
  {
    if rounds > 0 {
      CrowdedRoundChanges(s, c, from, late);
      RoundStaysCrowded(s, c, from, late);
      CrowdedNeverSettles(Round(s, c), c, from, late + 2 * 86_400_000, rounds - 1);
    }
  }

  lemma {:induction false} WantedComesFrom(keys: set<SequenceKey>, slots: seq<Slot>)
    ensures forall slot | slot in Wanted(keys, slots) :: slot in slots
    ensures (exists i | 0 <= i < |slots| :: slots[i].key in keys) ==> Wanted(keys, slots) != []
  {
    if slots != [] {
      WantedComesFrom(keys, slots[1..]);
      if i :| 0 <= i < |slots| && slots[i].key in keys {
        if i > 0 { assert slots[1..][i - 1].key in keys; }
      }
    }
  }

  lemma PlanStartsCrowded(submitted: int, c: Setting, keys: set<SequenceKey>)
    requires keys != {}
    ensures Crowded(StartingPlan(submitted, c, keys), submitted, submitted + 4 * 86_400_000)
  {
    WantedComesFrom(keys, IDEAL_SLOTS);
    GridSlots();
    var key :| key in keys;
    var k := if key == CallIn then 0 else 3;
    assert IDEAL_SLOTS[k].key == key;
    var plan := StartingPlan(submitted, c, keys);
    forall i | 0 <= i < |plan|
      ensures submitted <= plan[i].at <= submitted + 4 * 86_400_000
    {
      assert plan[i].slot in Wanted(keys, IDEAL_SLOTS);
      assert GridSlot(plan[i].slot) && plan[i].slot.day <= 3;
    }
    assert 0 < |plan|;
    assert plan[0].at <= submitted + 4 * 86_400_000;
  }

  /**
    For every submission time, zone and choice of sequences there is a list of
    transactional sends for which the capped loop returns a plan breaking the rules.
   */
  lemma CapCanBeExhausted(submitted: int, zone: int, keys: set<SequenceKey>)
    requires keys != {}
    ensures var c := Setting(zone, EveryThreeHours(submitted));
            !RulesHold(Schedule(submitted, c, keys), c)
  {
    var c := Setting(zone, EveryThreeHours(submitted));
    PlanStartsCrowded(submitted, c, keys);
    CrowdedNeverSettles(StartingPlan(submitted, c, keys), c, submitted, submitted + 4 * 86_400_000, 9);
    ScheduleObeysRulesIff(submitted, c, keys);
  }
}
