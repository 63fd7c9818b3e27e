/**
  The soft duplicate check of src/applications/services/application-intake.service.ts:
  a database query that returns at most a hundred candidates, then a count of
  matching signals. Birth dates are calendar days.
 */
module IntakeDuplicates {
  import opened FiniteSets

  const PAGE_LIMIT := 100

  datatype Signals = Signals(
    email: string,
    phone: string,
    lastName: string,
    dob: int,
    accountLast4: string,
    bankName: string)

  type Rows = map<nat, Signals>

  /** The query's filter: any one of the four signals, the bank's name compared as it is stored. */
  predicate Candidate(row: Signals, probe: Signals) {
    || row.email == probe.email
    || row.phone == probe.phone
    || (row.lastName == probe.lastName && row.dob == probe.dob)
    || (row.accountLast4 == probe.accountLast4 && row.bankName == probe.bankName)
  }

  function One(b: bool): nat {
    if b then 1 else 0
  }

  /** The signals counted afterwards, where `fold` is the normalisation of a bank's name. */
  function SignalCount(row: Signals, probe: Signals, fold: string -> string): nat {
    One(row.email == probe.email)
    + One(row.phone == probe.phone)
    + One(row.lastName == probe.lastName && row.dob == probe.dob)
    + One(row.accountLast4 == probe.accountLast4 && fold(row.bankName) == fold(probe.bankName))
  }

  predicate Duplicate(row: Signals, probe: Signals, fold: string -> string) {
    SignalCount(row, probe, fold) >= 2
  }

  /** What the check is for: some row of the whole table matches in two signals or more. */
  predicate AnyDuplicate(rows: Rows, probe: Signals, fold: string -> string) {
    exists id | id in rows :: Duplicate(rows[id], probe, fold)
  }

  function Candidates(rows: Rows, probe: Signals): set<nat> {
    set id | id in rows && Candidate(rows[id], probe)
  }

  /** An answer the database may give: candidates in any order, all of them unless there are more than the limit. */
  predicate PageOf(page: seq<nat>, rows: Rows, probe: Signals) {
    && NoRepeats(page)
    && (forall i | 0 <= i < |page| :: page[i] in Candidates(rows, probe))
    && |page| == if |Candidates(rows, probe)| <= PAGE_LIMIT then |Candidates(rows, probe)| else PAGE_LIMIT
  }

  predicate Flagged(page: seq<nat>, rows: Rows, probe: Signals, fold: string -> string) {
    exists i | 0 <= i < |page| :: page[i] in rows && Duplicate(rows[page[i]], probe, fold)
  }

  method FindPossibleDuplicate(page: seq<nat>, rows: Rows, probe: Signals, fold: string -> string)
    returns (possible: bool)
    requires PageOf(page, rows, probe)
    ensures possible == Flagged(page, rows, probe, fold)
  {
    for i := 0 to |page|
      invariant forall k | 0 <= k < i :: !Duplicate(rows[page[k]], probe, fold)
    {
      assert page[i] in Candidates(rows, probe);
      var candidate := rows[page[i]];
      var signals := 0;
      if candidate.email == probe.email { signals := signals + 1; }
      if candidate.phone == probe.phone { signals := signals + 1; }
      if candidate.lastName == probe.lastName && candidate.dob == probe.dob { signals := signals + 1; }
      if candidate.accountLast4 == probe.accountLast4 && fold(candidate.bankName) == fold(probe.bankName) {
        signals := signals + 1;
      }
      if signals >= 2 {
        assert Duplicate(rows[page[i]], probe, fold);
        return true;
      }
    }
    possible := false;
  }

  /** Two rows alike in two of the four ways: address, phone, name with birth date, account with bank. */
  lemma DuplicateIff(row: Signals, probe: Signals, fold: string -> string)
    ensures var person := row.lastName == probe.lastName && row.dob == probe.dob;
            var account := row.accountLast4 == probe.accountLast4 && fold(row.bankName) == fold(probe.bankName);
            Duplicate(row, probe, fold) <==>
              || (row.email == probe.email && (row.phone == probe.phone || person || account))
              || (row.phone == probe.phone && (person || account))
              || (person && account)
  {
  }

  /** A bank's name taken as it is written. */
  function AsWritten(name: string): string { name }

  /** The query returns the rows alike in one way at least, no bank's name being normalised. */
  lemma CandidateIff(rows: Rows, probe: Signals, id: nat)
    ensures id in Candidates(rows, probe) <==> id in rows && SignalCount(rows[id], probe, AsWritten) >= 1
  {
  }

  /* ------------------------------------------------------ the filter loses nothing */

  /** Two signals include one the filter sees, although it compares bank names more strictly. */
  lemma DuplicatesAreCandidates(rows: Rows, probe: Signals, fold: string -> string)
    ensures forall id | id in rows && Duplicate(rows[id], probe, fold) :: id in Candidates(rows, probe)
  {
  }

  /** Candidates that match in one signal only. */
  function WeakCandidates(rows: Rows, probe: Signals, fold: string -> string): set<nat> {
    set id | id in Candidates(rows, probe) && !Duplicate(rows[id], probe, fold)
  }

  function Ids(page: seq<nat>): set<nat> {
    set i | 0 <= i < |page| :: page[i]
  }

  lemma {:induction false} NoRepeatsFillsItsSet(page: seq<nat>)
    requires NoRepeats(page)
    ensures |Ids(page)| == |page|
  {
    if page != [] {
      var n := |page| - 1;
      NoRepeatsFillsItsSet(page[..n]);
      assert forall i | 0 <= i < n :: page[..n][i] == page[i];
      assert Ids(page) == Ids(page[..n]) + {page[n]};
      assert page[n] !in Ids(page[..n]);
    }
  }

  /** A page never flags without cause. */
  lemma FlaggedIsDuplicate(page: seq<nat>, rows: Rows, probe: Signals, fold: string -> string)
    requires Flagged(page, rows, probe, fold)
    ensures AnyDuplicate(rows, probe, fold)
  {
  }

  /** With fewer weak candidates than the limit, every page holds a duplicate if the table does. */
  lemma RoomForADuplicate(page: seq<nat>, rows: Rows, probe: Signals, fold: string -> string)
    requires PageOf(page, rows, probe)
    requires AnyDuplicate(rows, probe, fold) && |WeakCandidates(rows, probe, fold)| < PAGE_LIMIT
    ensures Flagged(page, rows, probe, fold)
  {
    NoRepeatsFillsItsSet(page);
    var all, weak := Candidates(rows, probe), WeakCandidates(rows, probe, fold);
    if !Flagged(page, rows, probe, fold) {
      assert Ids(page) <= weak;
      SubsetSize(Ids(page), weak);
      SubsetSize(Ids(page), all);
      DuplicatesAreCandidates(rows, probe, fold);
      assert false;
    }
  }

  /** Some `n` members of a set, each once. */
  lemma {:induction false} PickSome(s: set<nat>, n: nat) returns (page: seq<nat>)
    requires n <= |s|
    ensures |page| == n && NoRepeats(page) && forall i | 0 <= i < n :: page[i] in s
    decreases n
  {
    if n == 0 {
      page := [];
    } else {
      var x :| x in s;
      var rest := PickSome(s - {x}, n - 1);
      page := rest + [x];
    }
  }

  /** A hundred weak candidates can fill a page and hide every duplicate behind it. */
  lemma WeakPage(rows: Rows, probe: Signals, fold: string -> string) returns (page: seq<nat>)
    requires |WeakCandidates(rows, probe, fold)| >= PAGE_LIMIT
    ensures PageOf(page, rows, probe) && !Flagged(page, rows, probe, fold)
  {
    var weak := WeakCandidates(rows, probe, fold);
    page := PickSome(weak, PAGE_LIMIT);
    SubsetSize(weak, Candidates(rows, probe));
  }

  /**
    The filtered and limited check answers as a scan of the whole table would, whatever
    page the database returns, exactly when the table holds no duplicate or fewer than
    a hundred candidates fall short of two signals.
   */
  lemma LimitedCheckIsFullScanIff(rows: Rows, probe: Signals, fold: string -> string)
    ensures (forall page: seq<nat> | PageOf(page, rows, probe) ::
               Flagged(page, rows, probe, fold) == AnyDuplicate(rows, probe, fold))
            <==>
            (!AnyDuplicate(rows, probe, fold) || |WeakCandidates(rows, probe, fold)| < 100)
  {
    if !AnyDuplicate(rows, probe, fold) || |WeakCandidates(rows, probe, fold)| < PAGE_LIMIT {
      forall page: seq<nat> | PageOf(page, rows, probe)
        ensures Flagged(page, rows, probe, fold) == AnyDuplicate(rows, probe, fold)
      {
        if AnyDuplicate(rows, probe, fold) { RoomForADuplicate(page, rows, probe, fold); }
        if Flagged(page, rows, probe, fold) { FlaggedIsDuplicate(page, rows, probe, fold); }
      }
    } else {
      var page := WeakPage(rows, probe, fold);
      assert PageOf(page, rows, probe) && Flagged(page, rows, probe, fold) != AnyDuplicate(rows, probe, fold);
    }
  }

  /** In particular the check is a full scan whenever the query returns at most a hundred rows. */
  lemma UncutPageIsFullScan(page: seq<nat>, rows: Rows, probe: Signals, fold: string -> string)
    requires PageOf(page, rows, probe) && |Candidates(rows, probe)| <= 100
    ensures Flagged(page, rows, probe, fold) <==> AnyDuplicate(rows, probe, fold)
  {
    NoRepeatsFillsItsSet(page);
    SubsetSize(Ids(page), Candidates(rows, probe));
    DuplicatesAreCandidates(rows, probe, fold);
  }
}
