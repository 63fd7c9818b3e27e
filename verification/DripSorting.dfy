/**
  Facts about the scheduler's sort: it orders by send time, loses and invents
  nothing, keeps ties in order, and is the only list that does all three.
 */
module DripSorting {
  import opened DripSchedule

  ghost predicate Sorted(s: seq<Send>) {
    forall i, j | 0 <= i < j < |s| :: s[i].at <= s[j].at
  }

  /** The sends planned for instant `t`, in list order. */
  ghost function SendsAt(s: seq<Send>, t: int): seq<Send> {
    if s == [] then []
    else SendsAt(s[..|s| - 1], t) + (if s[|s| - 1].at == t then [s[|s| - 1]] else [])
  }

  lemma LastIsOneOf(s: seq<Send>)
    requires s != []
    ensures multiset(s) == multiset(s[..|s| - 1]) + multiset{s[|s| - 1]}
  {
    assert s == s[..|s| - 1] + [s[|s| - 1]];
  }

  lemma {:induction false} InsertKeepsSends(s: seq<Send>, x: Send)
    ensures multiset(Insert(s, x)) == multiset(s) + multiset{x}
  {
    if s != [] && s[|s| - 1].at > x.at {
      InsertKeepsSends(s[..|s| - 1], x);
      LastIsOneOf(s);
    }
  }

  lemma {:induction false} InsertSorts(s: seq<Send>, x: Send)
    requires Sorted(s)
    ensures Sorted(Insert(s, x))
  {
    if s != [] && s[|s| - 1].at > x.at {
      var front, last := s[..|s| - 1], s[|s| - 1];
      InsertSorts(front, x);
      InsertKeepsSends(front, x);
      var r := Insert(front, x);
      forall i | 0 <= i < |r| ensures r[i].at <= last.at {
        assert r[i] in multiset(front) + multiset{x};
      }
    }
  }

  lemma {:induction false} StableSortSorts(s: seq<Send>)
    ensures Sorted(StableSort(s))
    ensures multiset(StableSort(s)) == multiset(s)
  {
    if s != [] {
      StableSortSorts(s[..|s| - 1]);
      InsertSorts(StableSort(s[..|s| - 1]), s[|s| - 1]);
      InsertKeepsSends(StableSort(s[..|s| - 1]), s[|s| - 1]);
      LastIsOneOf(s);
    }
  }

  lemma {:induction false} NoneAt(s: seq<Send>, t: int)
    requires forall i | 0 <= i < |s| :: s[i].at != t
    ensures SendsAt(s, t) == []
  {
    if s != [] { NoneAt(s[..|s| - 1], t); }
  }

  lemma {:induction false} InsertIsStable(s: seq<Send>, x: Send, t: int)
    requires Sorted(s)
    ensures SendsAt(Insert(s, x), t) == SendsAt(s, t) + (if x.at == t then [x] else [])
  {
    var r := Insert(s, x);
    if s == [] || s[|s| - 1].at <= x.at {
      assert r[..|r| - 1] == s;
    } else {
      assert r[..|r| - 1] == Insert(s[..|s| - 1], x);
      InsertIsStable(s[..|s| - 1], x, t);
    }
  }

  /** Sends planned for the same instant leave the sort in the order they entered it. */
  lemma {:induction false} StableSortIsStable(s: seq<Send>, t: int)
    ensures SendsAt(StableSort(s), t) == SendsAt(s, t)
  {
    if s != [] {
      StableSortSorts(s[..|s| - 1]);
      StableSortIsStable(s[..|s| - 1], t);
      InsertIsStable(StableSort(s[..|s| - 1]), s[|s| - 1], t);
    }
  }

  /** A list already in order is left alone. */
  lemma {:induction false} SortedIsFixed(s: seq<Send>)
    requires Sorted(s)
    ensures StableSort(s) == s
  {
    if s != [] {
      SortedIsFixed(s[..|s| - 1]);
      assert s == s[..|s| - 1] + [s[|s| - 1]];
    }
  }

  ghost predicate StrictlySorted(s: seq<Send>) {
    forall i, j | 0 <= i < j < |s| :: s[i].at < s[j].at
  }

  lemma SameWithoutLast(s: seq<Send>, t: seq<Send>)
    requires |s| == |t| > 0 && multiset(s) == multiset(t) && s[|s| - 1] == t[|t| - 1]
    ensures multiset(s[..|s| - 1]) == multiset(t[..|t| - 1])
  {
    LastIsOneOf(s);
    LastIsOneOf(t);
    assert multiset(s[..|s| - 1]) == multiset(s) - multiset{s[|s| - 1]};
    assert multiset(t[..|t| - 1]) == multiset(t) - multiset{t[|t| - 1]};
  }

  /** With no ties there is only one sorted list of the same sends. */
  lemma {:induction false} SortedListIsUnique(s: seq<Send>, t: seq<Send>)
    requires Sorted(s) && StrictlySorted(t) && multiset(s) == multiset(t)
    ensures s == t
  {
    assert |s| == |multiset(s)| == |multiset(t)| == |t|;
    if s != [] {
      LastOfSortedList(s, t);
      var n := |s| - 1;
      SameWithoutLast(s, t);
      SortedListIsUnique(s[..n], t[..n]);
      assert s == s[..n] + [s[n]] && t == t[..n] + [t[n]];
    }
  }

  lemma LastOfSortedList(s: seq<Send>, t: seq<Send>)
    requires |s| == |t| > 0
    requires Sorted(s) && StrictlySorted(t) && multiset(s) == multiset(t)
    ensures s[|s| - 1] == t[|t| - 1]
  {
    var n := |s| - 1;
    assert s[n] in multiset(t) && t[n] in multiset(s);
    var i :| 0 <= i <= n && t[i] == s[n];
    var j :| 0 <= j <= n && s[j] == t[n];
    assert t[n].at <= s[n].at;
    assert i == n;
  }

  /* ---------------------------------------------------- what any reordering keeps */

  /** The list without its `j`-th element. */
  function Without<T>(s: seq<T>, j: nat): (r: seq<T>)
    requires j < |s|
    ensures |r| == |s| - 1
  {
    s[..j] + s[j + 1..]
  }

  lemma WithoutIsOneLess<T>(s: seq<T>, j: nat)
    requires j < |s|
    ensures multiset(Without(s, j)) == multiset(s) - multiset{s[j]}
    ensures multiset(s) == multiset(Without(s, j)) + multiset{s[j]}
  {
    assert s == s[..j] + [s[j]] + s[j + 1..];
  }

  /** Lists of the same sends are the same sends one by one when one is taken out of each. */
  lemma TakeOut(s: seq<Send>, t: seq<Send>) returns (j: nat)
    requires s != [] && multiset(s) == multiset(t)
    ensures j < |t| && t[j] == s[|s| - 1]
    ensures multiset(s[..|s| - 1]) == multiset(Without(t, j)) && |s| == |t|
  {
    assert s[|s| - 1] in multiset(t);
    j :| 0 <= j < |t| && t[j] == s[|s| - 1];
    LastIsOneOf(s);
    WithoutIsOneLess(t, j);
    assert |multiset(s)| == |s| && |multiset(t)| == |t|;
  }

  /** Whatever is read off each send, reordering the sends reorders it. */
  lemma {:induction false} ReorderedImage<B>(s: seq<Send>, t: seq<Send>, f: Send -> B, a: seq<B>, b: seq<B>)
    requires multiset(s) == multiset(t) && |a| == |s| && |b| == |t|
    requires forall i | 0 <= i < |s| :: a[i] == f(s[i])
    requires forall i | 0 <= i < |t| :: b[i] == f(t[i])
    ensures multiset(a) == multiset(b)
    decreases |s|
  {
    if s == [] {
      assert |multiset(t)| == |t| == 0;
    } else {
      var j := TakeOut(s, t);
      ReorderedImage(s[..|s| - 1], Without(t, j), f, a[..|s| - 1], Without(b, j));
      assert a == a[..|s| - 1] + [a[|s| - 1]];
      WithoutIsOneLess(b, j);
    }
  }

  /** `total` counts the last send of `s` with its weight. */
  ghost predicate AddsLast(total: seq<Send> -> int, weight: Send -> int, s: seq<Send>) {
    if s == [] then total(s) == 0 else total(s) == total(s[..|s| - 1]) + weight(s[|s| - 1])
  }

  /** `total` adds up `weight` over a list. */
  ghost predicate AddsUp(total: seq<Send> -> int, weight: Send -> int) {
    forall s :: AddsLast(total, weight, s)
  }

  lemma {:induction false} TotalWithout(s: seq<Send>, j: nat, total: seq<Send> -> int, weight: Send -> int)
    requires AddsUp(total, weight) && j < |s|
    ensures total(s) == total(Without(s, j)) + weight(s[j])
    decreases |s|
  {
    var n := |s| - 1;
    assert AddsLast(total, weight, s);
    if j < n {
      TotalWithout(s[..n], j, total, weight);
      assert Without(s, j)[..n - 1] == Without(s[..n], j);
      assert AddsLast(total, weight, Without(s, j));
    } else {
      assert Without(s, j) == s[..n];
    }
  }

  /** Whatever adds up over the sends is the same in any order. */
  lemma {:induction false} ReorderedTotal(s: seq<Send>, t: seq<Send>, total: seq<Send> -> int, weight: Send -> int)
    requires AddsUp(total, weight) && multiset(s) == multiset(t)
    ensures total(s) == total(t)
    decreases |s|
  {
    if s == [] {
      assert |multiset(t)| == |t| == 0;
    } else {
      var j := TakeOut(s, t);
      ReorderedTotal(s[..|s| - 1], Without(t, j), total, weight);
      assert AddsLast(total, weight, s);
      TotalWithout(t, j, total, weight);
    }
  }
}
