/**
  For what reason a submission is turned away, in terms of the rows alone, and what
  one that is admitted leaves behind.
 */
module IntakeRefusals {
  import opened Options
  import opened LoanStatus
  import opened LoanWorkflow
  import R = LoanRecords
  import opened IntakeBlocking

  /** Neither declined, nor withdrawn, nor expired: a funded loan included, paid off or not. */
  ghost predicate Holds(a: Applicant, ssn: nat) {
    a.ssn == ssn && a.file.status !in {Declined, Withdrawn, Expired}
  }

  /** Declined, and submitted less than ninety days ago. */
  ghost predicate CoolsDown(a: Applicant, ssn: nat, now: int) {
    a.ssn == ssn && a.file.decision == DecidedDeclined && now < a.createdAt + 90 * 86_400_000
  }

  /** No row that cools down was created after the i-th, nor with it and listed below. */
  ghost predicate NewestCoolingDown(t: Table, i: nat, ssn: nat, now: int) {
    && i < |t| && CoolsDown(t[i], ssn, now)
    && forall j | 0 <= j < |t| && CoolsDown(t[j], ssn, now) ::
         t[j].createdAt < t[i].createdAt || (t[j].createdAt == t[i].createdAt && j <= i)
  }

  /** Ninety days from the decision, or from the submission when the decision has no date. */
  ghost predicate MayReapplyFrom(a: Applicant, eligible: int) {
    match a.file.decisionAt
    case Some(decided) => eligible == decided + 90 * 86_400_000
    case None => eligible == a.createdAt + 90 * 86_400_000
  }

  ghost predicate Deserved(t: Table, ssn: nat, now: int, block: Block) {
    match block
    case ExactDuplicate => exists a :: a in t && Holds(a, ssn)
    case DeclinedCooldown(eligible) =>
      && (forall a | a in t :: !Holds(a, ssn))
      && exists i: nat :: NewestCoolingDown(t, i, ssn, now) && MayReapplyFrom(t[i], eligible)
    case FundedLoanOpen => false
  }

  lemma {:induction false} LatestIsNewest(t: Table, where: Applicant -> bool, i: nat)
    requires Latest(t, where) == Some(i)
    ensures i < |t| && where(t[i])
    ensures forall j | 0 <= j < |t| && where(t[j]) ::
              t[j].createdAt < t[i].createdAt || (t[j].createdAt == t[i].createdAt && j <= i)
  {
    var n := |t| - 1;
    var before := Latest(t[..n], where);
    if before.Some? {
      LatestIsNewest(t[..n], where, before.value);
    }
    forall j | 0 <= j < |t| && where(t[j])
      ensures t[j].createdAt < t[i].createdAt || (t[j].createdAt == t[i].createdAt && j <= i)
    {
      if j < n { assert t[..n][j] == t[j]; }
    }
  }

  lemma DuplicateIffHeld(t: Table, ssn: nat, now: int)
    ensures Blocked(t, ssn, now) == Some(ExactDuplicate) <==> exists a :: a in t && Holds(a, ssn)
  {
    var found := Latest(t, a => InFlight(a, ssn));
    if found.Some? {
      assert Holds(t[found.value], ssn);
    } else {
      forall a | a in t ensures !Holds(a, ssn) {
        var i :| 0 <= i < |t| && t[i] == a;
        assert !InFlight(t[i], ssn);
      }
    }
  }

  lemma CooldownIffNewest(t: Table, ssn: nat, now: int, eligible: int)
    requires forall a | a in t :: !Holds(a, ssn)
    ensures Blocked(t, ssn, now) == Some(DeclinedCooldown(eligible))
            <==> exists i: nat :: NewestCoolingDown(t, i, ssn, now) && MayReapplyFrom(t[i], eligible)
  {
    var found := Latest(t, a => RecentlyDeclined(a, ssn, now));
    BlockedByDecline(t, ssn, now, found);
    if found.Some? {
      LatestIsNewest(t, a => RecentlyDeclined(a, ssn, now), found.value);
      NewestIs(t, found.value, ssn, now);
      forall i: nat | NewestCoolingDown(t, i, ssn, now) ensures i == found.value {
      }
    } else {
      forall i: nat ensures !NewestCoolingDown(t, i, ssn, now) {
        assert i < |t| ==> !RecentlyDeclined(t[i], ssn, now);
      }
    }
  }

  lemma BlockedByDecline(t: Table, ssn: nat, now: int, found: Option<nat>)
    requires forall a | a in t :: !Holds(a, ssn)
    requires found == Latest(t, a => RecentlyDeclined(a, ssn, now))
    ensures found == None ==> forall eligible :: Blocked(t, ssn, now) != Some(DeclinedCooldown(eligible))
    ensures found.Some? ==> found.value < |t| && forall eligible ::
              Blocked(t, ssn, now) == Some(DeclinedCooldown(eligible)) <==> MayReapplyFrom(t[found.value], eligible)
  {
    DuplicateIffHeld(t, ssn, now);
  }

  lemma NewestIs(t: Table, i: nat, ssn: nat, now: int)
    requires i < |t| && RecentlyDeclined(t[i], ssn, now)
    requires forall j | 0 <= j < |t| && RecentlyDeclined(t[j], ssn, now) ::
               t[j].createdAt < t[i].createdAt || (t[j].createdAt == t[i].createdAt && j <= i)
    ensures NewestCoolingDown(t, i, ssn, now)
  {
    forall j | 0 <= j < |t| && CoolsDown(t[j], ssn, now)
      ensures t[j].createdAt < t[i].createdAt || (t[j].createdAt == t[i].createdAt && j <= i)
    {
      assert RecentlyDeclined(t[j], ssn, now);
    }
  }

  /**
    A submission is turned away as a duplicate exactly when the SSN has a file that is
    not closed, and otherwise for the cooldown, with the date of the newest decline,
    exactly when one was created in the last ninety days; for an open loan never.
   */
  lemma TurnedAwayBecause(t: Table, ssn: nat, now: int, block: Block)
    ensures Blocked(t, ssn, now) == Some(block) <==> Deserved(t, ssn, now, block)
  {
    DuplicateIffHeld(t, ssn, now);
    match block
    case ExactDuplicate =>
    case DeclinedCooldown(eligible) =>
      if forall a | a in t :: !Holds(a, ssn) {
        CooldownIffNewest(t, ssn, now, eligible);
      }
    case FundedLoanOpen => FundedRuleIsNeverReached(t, ssn, now);
  }

  /* ------------------------------------------------------------ what is left behind */

  /** A file to which nothing has been done yet. */
  ghost predicate Untouched(f: File, asked: real, born: int) {
    && f.status == PendingCall && f.decision == Undecided
    && f.amountRequested == asked && f.updatedAt == born
    && f.attempts == 0 && f.agreementSentAt == None && f.decisionAt == None
    && R.RecordsFit(f) && forall fact :: !R.Says(f, fact)
  }

  lemma BornUntouched(asked: real, born: int)
    ensures Untouched(NewFile(asked, born), asked, born)
  {
  }

  /** A refusal leaves the table as it was; an admission adds one untouched file below the others. */
  lemma SubmissionLeaves(t: Table, ssn: nat, asked: real, now: int)
    ensures var left := Submitted(t, ssn, asked, now);
            if exists block :: Deserved(t, ssn, now, block) then left == t
            else |left| == |t| + 1 && left[..|t|] == t
                 && left[|t|].ssn == ssn && left[|t|].createdAt == now && !left[|t|].paidOff
                 && Untouched(left[|t|].file, asked, now)
  {
    var blocked := Blocked(t, ssn, now);
    forall block ensures blocked == Some(block) <==> Deserved(t, ssn, now, block) {
      TurnedAwayBecause(t, ssn, now, block);
    }
    if blocked.Some? {
      assert Deserved(t, ssn, now, blocked.value);
    } else {
      BornUntouched(asked, now);
    }
  }

  /** Files are never removed, and what they are looked up by never changes. */
  lemma {:induction false} RunKeepsApplicants(d: Desk, events: seq<Event>, i: nat)
    requires i < |d.table|
    ensures i < |Run(d, events).table|
    ensures Run(d, events).table[i].ssn == d.table[i].ssn
    ensures Run(d, events).table[i].createdAt == d.table[i].createdAt
    decreases |events|
  {
    if events != [] {
      RunKeepsApplicants(Take(d, events[0]), events[1..], i);
    }
  }
}
