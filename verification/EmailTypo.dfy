/**
  The typo suggestion of src/common/validators/email.validator.ts: the matrix
  computation of the edit distance and the search for the nearest known domain.
 */
module EmailTypo {
  import opened Options

  const COMMON_EMAIL_DOMAINS: seq<string> :=
    [ "gmail.com", "yahoo.com", "outlook.com", "hotmail.com", "aol.com", "icloud.com",
      "comcast.net", "verizon.net", "att.net", "sbcglobal.net", "msn.com", "live.com",
      "me.com", "mac.com", "bellsouth.net", "cox.net", "charter.net", "earthlink.net",
      "roadrunner.com", "protonmail.com", "ymail.com" ]

  function Min(x: nat, y: nat): nat {
    if x <= y then x else y
  }

  /* ----------------------------------------------------- what an edit script is */

  datatype Edit = Insert(at: nat, c: char) | Delete(at: nat) | Substitute(at: nat, c: char)

  predicate Applies(e: Edit, s: string) {
    match e
    case Insert(at, _) => at <= |s|
    case Delete(at) => at < |s|
    case Substitute(at, _) => at < |s|
  }

  function Apply(e: Edit, s: string): string
    requires Applies(e, s)
  {
    match e
    case Insert(at, c) => s[..at] + [c] + s[at..]
    case Delete(at) => s[..at] + s[at + 1..]
    case Substitute(at, c) => s[..at] + [c] + s[at + 1..]
  }

  /** The script, one edit after another, turns `a` into `b`. */
  ghost predicate Rewrites(script: seq<Edit>, a: string, b: string) {
    if script == [] then a == b
    else Applies(script[0], a) && Rewrites(script[1..], Apply(script[0], a), b)
  }

  /* ------------------------------------------------------ the matrix recurrence */

  /** The entry the matrix holds for the prefixes `a` and `b`. */
  function Distance(a: string, b: string): nat {
    if a == [] then |b|
    else if b == [] then |a|
    else
      var a', b' := a[..|a| - 1], b[..|b| - 1];
      var cost := if a[|a| - 1] == b[|b| - 1] then 0 else 1;
      Min(Min(Distance(a', b) + 1, Distance(a, b') + 1), Distance(a', b') + cost)
  }

  /** Rows below `rows` hold the distances of all prefixes, and the first column its indices. */
  ghost predicate RowsFilled(matrix: array2<nat>, a: string, b: string, rows: nat)
    reads matrix
    requires matrix.Length0 == |a| + 1 && matrix.Length1 == |b| + 1
  {
    && (forall k | 0 <= k <= |a| :: matrix[k, 0] == k)
    && forall k, l | 0 <= k < rows <= |a| + 1 && 0 <= l <= |b| :: matrix[k, l] == PrefixDistance(a, b, k, l)
  }

  function PrefixDistance(a: string, b: string, i: nat, j: nat): (d: nat)
    requires i <= |a| && j <= |b|
    ensures i == 0 ==> d == j
    ensures j == 0 ==> d == i
  {
    Distance(a[..i], b[..j])
  }

  lemma PrefixDistanceStep(a: string, b: string, i: nat, j: nat)
    requires 1 <= i <= |a| && 1 <= j <= |b|
    ensures PrefixDistance(a, b, i, j)
         == Min(Min(PrefixDistance(a, b, i - 1, j) + 1, PrefixDistance(a, b, i, j - 1) + 1),
                PrefixDistance(a, b, i - 1, j - 1) + (if a[i - 1] == b[j - 1] then 0 else 1))
  {
    assert a[..i][..i - 1] == a[..i - 1];
    assert b[..j][..j - 1] == b[..j - 1];
  }

  method Levenshtein(a: string, b: string) returns (d: nat)
    ensures d == Distance(a, b)
  {
    var matrix := new nat[|a| + 1, |b| + 1];
    for i := 0 to |a| + 1
      invariant forall k | 0 <= k < i :: matrix[k, 0] == k
    {
      matrix[i, 0] := i;
    }
    for j := 0 to |b| + 1
      invariant forall k | 0 <= k <= |a| :: matrix[k, 0] == k
      invariant forall k | 0 <= k < j :: matrix[0, k] == k
    {
      matrix[0, j] := j;
    }
    for i := 1 to |a| + 1
      invariant RowsFilled(matrix, a, b, i)
    {
      for j := 1 to |b| + 1
        invariant RowsFilled(matrix, a, b, i)
        invariant forall l | 0 <= l < j :: matrix[i, l] == PrefixDistance(a, b, i, l)
      {
        var cost := if a[i - 1] == b[j - 1] then 0 else 1;
        PrefixDistanceStep(a, b, i, j);
        matrix[i, j] := Min(Min(matrix[i - 1, j] + 1, matrix[i, j - 1] + 1), matrix[i - 1, j - 1] + cost);
      }
    }
    assert a[..|a|] == a && b[..|b|] == b;
    d := matrix[|a|, |b|];
  }

  /* -------------------------------------- no script is shorter than the distance */

  /** One more character at the end moves the distance by at most one. */
  lemma {:induction false} LastCharacterCostsOne(a: string, c: char, b: string)
    ensures Distance(a, b) <= Distance(a + [c], b) + 1
    ensures Distance(a + [c], b) <= Distance(a, b) + 1
    decreases |b|
  {
    assert (a + [c])[..|a|] == a;
    if b != [] {
      LastCharacterCostsOne(a, c, b[..|b| - 1]);
    }
  }

  lemma {:induction false} DistanceIsSymmetric(a: string, b: string)
    ensures Distance(a, b) == Distance(b, a)
    decreases |a| + |b|
  {
    if a != [] && b != [] {
      var a', b' := a[..|a| - 1], b[..|b| - 1];
      DistanceIsSymmetric(a', b);
      DistanceIsSymmetric(a, b');
      DistanceIsSymmetric(a', b');
    }
  }

  /** `u` is never more than one farther than `w` from any string. */
  ghost predicate WithinOne(u: string, w: string) {
    forall x: string :: Distance(u, x) <= Distance(w, x) + 1
  }

  lemma {:induction false} WithinOneExtends(u: string, w: string, c: char, b: string)
    requires WithinOne(u, w)
    ensures Distance(u + [c], b) <= Distance(w + [c], b) + 1
    decreases |b|
  {
    assert (u + [c])[..|u|] == u && (w + [c])[..|w|] == w;
    if b == [] {
      assert Distance(u, []) <= Distance(w, []) + 1;
    } else {
      var b' := b[..|b| - 1];
      WithinOneExtends(u, w, c, b');
      assert Distance(u, b) <= Distance(w, b) + 1;
      assert Distance(u, b') <= Distance(w, b') + 1;
    }
  }

  /** A common tail does not widen the gap. */
  lemma {:induction false} WithinOneWithTail(u: string, w: string, tail: string)
    requires WithinOne(u, w)
    ensures WithinOne(u + tail, w + tail)
  {
    if tail == [] {
      assert u + tail == u && w + tail == w;
    } else {
      var front, c := tail[..|tail| - 1], tail[|tail| - 1];
      WithinOneWithTail(u, w, front);
      assert u + tail == (u + front) + [c] && w + tail == (w + front) + [c];
      forall x: string ensures Distance(u + tail, x) <= Distance(w + tail, x) + 1 {
        WithinOneExtends(u + front, w + front, c, x);
      }
    }
  }

  lemma SubstitutionCostsOne(u: string, c: char, d: char, x: string)
    ensures Distance(u + [c], x) <= Distance(u + [d], x) + 1
    decreases |x|
  {
    assert (u + [c])[..|u|] == u && (u + [d])[..|u|] == u;
    if x != [] {
      var x' := x[..|x| - 1];
      SubstitutionCostsOne(u, c, d, x');
    }
  }

  lemma SplitAround(s: string, at: nat)
    requires at < |s|
    ensures (s[..at] + [s[at]]) + s[at + 1..] == s
  {
  }

  /** One edit brings a string at most one step closer to anything. */
  lemma EditCostsOne(e: Edit, s: string)
    requires Applies(e, s)
    ensures WithinOne(s, Apply(e, s))
  {
    var u := s[..e.at];
    match e
    case Insert(at, c) =>
      forall x: string ensures Distance(u, x) <= Distance(u + [c], x) + 1 {
        LastCharacterCostsOne(u, c, x);
      }
      WithinOneWithTail(u, u + [c], s[at..]);
      assert u + s[at..] == s;
    case Delete(at) =>
      forall x: string ensures Distance(u + [s[at]], x) <= Distance(u, x) + 1 {
        LastCharacterCostsOne(u, s[at], x);
      }
      WithinOneWithTail(u + [s[at]], u, s[at + 1..]);
      SplitAround(s, at);
    case Substitute(at, c) =>
      forall x: string ensures Distance(u + [s[at]], x) <= Distance(u + [c], x) + 1 {
        SubstitutionCostsOne(u, s[at], c, x);
      }
      WithinOneWithTail(u + [s[at]], u + [c], s[at + 1..]);
      SplitAround(s, at);
  }

  lemma {:induction false} ZeroIffEqual(a: string, b: string)
    ensures Distance(a, b) == 0 <==> a == b
    decreases |a| + |b|
  {
    if a != [] && b != [] {
      var a', b' := a[..|a| - 1], b[..|b| - 1];
      ZeroIffEqual(a', b');
      assert a == a' + [a[|a| - 1]] && b == b' + [b[|b| - 1]];
    }
  }

  /** Every script that turns `a` into `b` has at least as many edits as the distance. */
  lemma {:induction false} NoShorterScript(script: seq<Edit>, a: string, b: string)
    requires Rewrites(script, a, b)
    ensures |script| >= Distance(a, b)
  {
    if script == [] {
      ZeroIffEqual(a, b);
    } else {
      EditCostsOne(script[0], a);
      NoShorterScript(script[1..], Apply(script[0], a), b);
    }
  }

  /* ------------------------------------------- and some script is that short */

  lemma {:induction false} ScriptsCompose(p: seq<Edit>, q: seq<Edit>, a: string, b: string, c: string)
    requires Rewrites(p, a, b) && Rewrites(q, b, c)
    ensures Rewrites(p + q, a, c)
  {
    if p == [] {
      assert p + q == q;
    } else {
      assert (p + q)[0] == p[0] && (p + q)[1..] == p[1..] + q;
      ScriptsCompose(p[1..], q, Apply(p[0], a), b, c);
      assert Rewrites((p + q)[1..], Apply((p + q)[0], a), c);
    }
  }

  lemma EditKeepsTail(e: Edit, a: string, tail: string)
    requires Applies(e, a)
    ensures Applies(e, a + tail) && Apply(e, a + tail) == Apply(e, a) + tail
  {
    assert (a + tail)[..e.at] == a[..e.at];
    if e.Insert? {
      assert (a + tail)[e.at..] == a[e.at..] + tail;
    } else {
      assert (a + tail)[e.at + 1..] == a[e.at + 1..] + tail;
    }
  }

  /** A script leaves alone whatever stands to the right of the text it edits. */
  lemma {:induction false} ScriptKeepsTail(script: seq<Edit>, a: string, b: string, tail: string)
    requires Rewrites(script, a, b)
    ensures Rewrites(script, a + tail, b + tail)
  {
    if script != [] {
      EditKeepsTail(script[0], a, tail);
      ScriptKeepsTail(script[1..], Apply(script[0], a), b, tail);
    }
  }

  lemma SingleEdit(e: Edit, a: string)
    requires Applies(e, a)
    ensures Rewrites([e], a, Apply(e, a))
  {
    assert [e][1..] == [];
  }

  lemma {:induction false} ScriptOfInserts(b: string) returns (script: seq<Edit>)
    ensures Rewrites(script, [], b) && |script| == |b|
  {
    if b == [] {
      script := [];
    } else {
      var b' := b[..|b| - 1];
      var front := ScriptOfInserts(b');
      var last := Insert(|b'|, b[|b'|]);
      SingleEdit(last, b');
      assert Apply(last, b') == b;
      ScriptsCompose(front, [last], [], b', b);
      script := front + [last];
    }
  }

  lemma {:induction false} ScriptOfDeletes(a: string) returns (script: seq<Edit>)
    ensures Rewrites(script, a, []) && |script| == |a|
  {
    if a == [] {
      script := [];
    } else {
      var a' := a[..|a| - 1];
      var rest := ScriptOfDeletes(a');
      var first := Delete(|a'|);
      SingleEdit(first, a);
      assert Apply(first, a) == a';
      ScriptsCompose([first], rest, a, a', []);
      script := [first] + rest;
    }
  }

  /** A script as short as the distance. */
  lemma {:induction false} ShortestScript(a: string, b: string) returns (script: seq<Edit>)
    ensures Rewrites(script, a, b) && |script| == Distance(a, b)
    decreases |a| + |b|
  {
    if a == [] {
      script := ScriptOfInserts(b);
    } else if b == [] {
      script := ScriptOfDeletes(a);
    } else {
      var n, m := |a| - 1, |b| - 1;
      var a', b' := a[..n], b[..m];
      assert a == a' + [a[n]] && b == b' + [b[m]];
      if Distance(a, b) == Distance(a', b) + 1 {
        var rest := ShortestScript(a', b);
        SingleEdit(Delete(n), a);
        assert Apply(Delete(n), a) == a';
        ScriptsCompose([Delete(n)], rest, a, a', b);
        script := [Delete(n)] + rest;
      } else if Distance(a, b) == Distance(a, b') + 1 {
        var front := ShortestScript(a, b');
        SingleEdit(Insert(m, b[m]), b');
        assert Apply(Insert(m, b[m]), b') == b;
        ScriptsCompose(front, [Insert(m, b[m])], a, b', b);
        script := front + [Insert(m, b[m])];
      } else {
        var front := ShortestScript(a', b');
        ScriptKeepsTail(front, a', b', [a[n]]);
        if a[n] == b[m] {
          script := front;
        } else {
          var last := Substitute(m, b[m]);
          SingleEdit(last, b' + [a[n]]);
          assert Apply(last, b' + [a[n]]) == b;
          ScriptsCompose(front, [last], a, b' + [a[n]], b);
          script := front + [last];
        }
      }
    }
  }

  /** The matrix answer is the length of the shortest edit script. */
  lemma DistanceIsShortestScript(a: string, b: string)
    ensures exists script :: Rewrites(script, a, b) && |script| == Distance(a, b)
    ensures forall script :: Rewrites(script, a, b) ==> |script| >= Distance(a, b)
  {
    var script := ShortestScript(a, b);
    forall s | Rewrites(s, a, b) ensures |s| >= Distance(a, b) {
      NoShorterScript(s, a, b);
    }
  }

  lemma {:induction false} TriangleInequality(a: string, b: string, c: string)
    ensures Distance(a, c) <= Distance(a, b) + Distance(b, c)
  {
    var p := ShortestScript(a, b);
    var q := ShortestScript(b, c);
    ScriptsCompose(p, q, a, b, c);
    NoShorterScript(p + q, a, c);
  }

  /* ------------------------------------------------------- the nearest domain */

  /** Among the first `n` domains, number `best` is the first of the nearest. */
  ghost predicate NearestAmong(domain: string, domains: seq<string>, best: nat, n: nat) {
    && best < n <= |domains|
    && (forall j | 0 <= j < n :: Distance(domain, domains[best]) <= Distance(domain, domains[j]))
    && (forall j | 0 <= j < best :: Distance(domain, domains[best]) < Distance(domain, domains[j]))
  }

  /** Domain `i` is the answer: nothing listed is nearer, and nothing before it is as near. */
  ghost predicate FirstNearest(domain: string, domains: seq<string>, i: nat) {
    NearestAmong(domain, domains, i, |domains|)
  }

  ghost predicate NoneNear(domain: string, domains: seq<string>, n: nat) {
    n <= |domains| && forall j | 0 <= j < n :: Distance(domain, domains[j]) > 2
  }

  lemma OneMoreDomain(domain: string, domains: seq<string>, best: nat, n: nat)
    requires n < |domains|
    ensures NearestAmong(domain, domains, best, n) ==>
              if Distance(domain, domains[n]) < Distance(domain, domains[best])
              then NearestAmong(domain, domains, n, n + 1)
              else NearestAmong(domain, domains, best, n + 1)
    ensures NoneNear(domain, domains, n) ==>
              if Distance(domain, domains[n]) <= 2
              then NearestAmong(domain, domains, n, n + 1)
              else NoneNear(domain, domains, n + 1)
  {
  }

  /** The search loop, over any list of known domains. */
  method NearestDomain(domain: string, domains: seq<string>) returns (closest: Option<string>)
    ensures closest == None <==> forall j | 0 <= j < |domains| :: Distance(domain, domains[j]) > 2
    ensures closest.Some? ==> exists i: nat ::
              && FirstNearest(domain, domains, i)
              && closest.value == domains[i]
              && Distance(domain, domains[i]) <= 2
  {
    closest := None;
    var closestDistance: Option<nat> := None;  // None stands for Infinity
    ghost var best := 0;
    for i := 0 to |domains|
      invariant closest.Some? <==> closestDistance.Some?
      invariant closest == None ==> NoneNear(domain, domains, i)
      invariant closest.Some? ==>
                  && NearestAmong(domain, domains, best, i) && closest.value == domains[best]
                  && closestDistance.value == Distance(domain, domains[best]) <= 2
    {
      var distance := Levenshtein(domain, domains[i]);
      OneMoreDomain(domain, domains, best, i);
      if distance <= 2 && (closestDistance == None || distance < closestDistance.value) {
        closestDistance := Some(distance);
        closest := Some(domains[i]);
        best := i;
      }
    }
    if closest.Some? {
      assert FirstNearest(domain, domains, best);
    }
  }

  /**
    A listed domain is its own nearest: typed correctly it still yields a
    suggestion, namely itself, so the validator's typo layer turns it away.
   */
  lemma ListedDomainSuggestsItself(domain: string, domains: seq<string>, i: nat)
    requires domain in domains
    requires FirstNearest(domain, domains, i)
    ensures domains[i] == domain && Distance(domain, domains[i]) == 0
  {
    var k :| 0 <= k < |domains| && domains[k] == domain;
    ZeroIffEqual(domain, domains[k]);
    ZeroIffEqual(domain, domains[i]);
  }

  /** Ties go to the entry listed first: one edit from the first entry, an unlisted domain is taken for gmail.com. */
  lemma TiesGoToTheFirst(domain: string, i: nat)
    requires FirstNearest(domain, COMMON_EMAIL_DOMAINS, i) && domain !in COMMON_EMAIL_DOMAINS
    requires Distance(domain, "gmail.com") == 1
    ensures COMMON_EMAIL_DOMAINS[i] == "gmail.com"
  {
    assert COMMON_EMAIL_DOMAINS[0] == "gmail.com";
    ZeroIffEqual(domain, COMMON_EMAIL_DOMAINS[i]);
  }

  method GetDomainSuggestion(domain: string) returns (closest: Option<string>)
    ensures closest == None <==>
              forall j | 0 <= j < |COMMON_EMAIL_DOMAINS| :: Distance(domain, COMMON_EMAIL_DOMAINS[j]) > 2
    ensures closest.Some? ==> exists i: nat ::
              && FirstNearest(domain, COMMON_EMAIL_DOMAINS, i)
              && closest.value == COMMON_EMAIL_DOMAINS[i]
              && Distance(domain, closest.value) <= 2
    ensures domain in COMMON_EMAIL_DOMAINS ==> closest == Some(domain)
  {
    closest := NearestDomain(domain, COMMON_EMAIL_DOMAINS);
    if domain in COMMON_EMAIL_DOMAINS {
      ghost var k :| 0 <= k < |COMMON_EMAIL_DOMAINS| && COMMON_EMAIL_DOMAINS[k] == domain;
      ZeroIffEqual(domain, COMMON_EMAIL_DOMAINS[k]);
      ghost var i: nat :| FirstNearest(domain, COMMON_EMAIL_DOMAINS, i) && closest.value == COMMON_EMAIL_DOMAINS[i];
      ListedDomainSuggestsItself(domain, COMMON_EMAIL_DOMAINS, i);
    }
  }

  /**
    When the typo layer fires, the domain is a genuine near miss (one or two edits
    from every nearest entry) exactly when it is not itself on the list.
   */
  lemma SuggestionIsATypoIff(domain: string, domains: seq<string>, i: nat)
    requires FirstNearest(domain, domains, i) && Distance(domain, domains[i]) <= 2
    ensures 1 <= Distance(domain, domains[i]) <==> domain !in domains
  {
    ZeroIffEqual(domain, domains[i]);
    if domain in domains {
      ListedDomainSuggestsItself(domain, domains, i);
    }
  }
}
