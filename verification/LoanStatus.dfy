/**
  The status table of src/applications/application-status.machine.ts.

  The table is followed as it stands: DECLINED is one of the universal exits,
  although the comments above it still say a decline starts at underwriting only.
 */
module LoanStatus {

  datatype Status =
    | Received
    | PendingCall
    | InReview
    | BankVerificationPending
    | BankVerificationComplete
    | AgreementSent
    | AgreementSigned
    | VerificationDepositSent
    | VerificationDepositConfirmed
    | Underwriting
    | Approved
    | Funded
    | Declined
    | Withdrawn
    | Expired

  const UNIVERSAL_EXITS: seq<Status> := [Withdrawn, Expired, Declined]

  function AllowedTransitions(from: Status): seq<Status> {
    match from
    case Received => [PendingCall] + UNIVERSAL_EXITS
    case PendingCall => [InReview, BankVerificationPending] + UNIVERSAL_EXITS
    case InReview => [BankVerificationPending] + UNIVERSAL_EXITS
    case BankVerificationPending => [BankVerificationComplete] + UNIVERSAL_EXITS
    case BankVerificationComplete => [AgreementSent] + UNIVERSAL_EXITS
    case AgreementSent => [AgreementSigned] + UNIVERSAL_EXITS
    case AgreementSigned => [VerificationDepositSent] + UNIVERSAL_EXITS
    case VerificationDepositSent => [VerificationDepositConfirmed] + UNIVERSAL_EXITS
    case VerificationDepositConfirmed => [Underwriting] + UNIVERSAL_EXITS
    case Underwriting => [Approved, Declined] + UNIVERSAL_EXITS
    case Approved => [Funded] + UNIVERSAL_EXITS
    case Declined => []
    case Funded => []
    case Withdrawn => []
    case Expired => []
  }

  predicate IsTerminal(s: Status) {
    s == Declined || s == Funded || s == Withdrawn || s == Expired
  }

  predicate CanTransition(from: Status, to: Status) {
    to in AllowedTransitions(from)
  }

  /** Position on the ladder; every exit counts as its top. */
  function Height(s: Status): (h: nat)
    ensures h <= 11
    ensures IsTerminal(s) <==> h == 11
  {
    match s
    case Received => 0
    case PendingCall => 1
    case InReview => 2
    case BankVerificationPending => 3
    case BankVerificationComplete => 4
    case AgreementSent => 5
    case AgreementSigned => 6
    case VerificationDepositSent => 7
    case VerificationDepositConfirmed => 8
    case Underwriting => 9
    case Approved => 10
    case Funded => 11
    case Declined => 11
    case Withdrawn => 11
    case Expired => 11
  }

  /** Every legal edge climbs, none enters RECEIVED, and exits are open from every live status. */
  lemma EdgesClimb(from: Status, to: Status)
    ensures CanTransition(from, to) ==> Height(from) < Height(to) && to != Received
    ensures to in UNIVERSAL_EXITS ==> (CanTransition(from, to) <==> !IsTerminal(from))
  {
  }

  /**
    The whole table: from a live status to an exit, or one rung up, or over the review
    from PENDING_CALL to bank verification, and nowhere else.
   */
  lemma EdgesAre(from: Status, to: Status)
    ensures CanTransition(from, to) <==>
              && Height(from) < 11
              && (|| to in {Withdrawn, Expired, Declined}
                  || (Height(to) == Height(from) + 1 && to !in {Withdrawn, Expired, Declined})
                  || (from == PendingCall && to == BankVerificationPending))
  {
  }

  lemma TerminalIffNoExit(s: Status)
    ensures IsTerminal(s) <==> forall to :: !CanTransition(s, to)
  {
    if !IsTerminal(s) {
      assert CanTransition(s, Withdrawn);
    }
  }
}
