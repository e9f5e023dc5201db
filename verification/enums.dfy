/** The club's enumerations. Declaration order matters: the C# code compares
    tiers with `<`, which follows the order of the enum members. */
module Enums {

  /** Membership tier, ordered Standard < Silver < Gold < Diamond. */
  datatype MemberTier = Standard | Silver | Gold | Diamond {
    /** Position of the tier in the enum declaration (its underlying integer). */
    function Rank(): nat {
      match this
      case Standard => 0
      case Silver => 1
      case Gold => 2
      case Diamond => 3
    }
  }

  /** The C# `a < b` on tiers. */
  predicate TierBelow(a: MemberTier, b: MemberTier) {
    a.Rank() < b.Rank()
  }

  /** The higher of two tiers. */
  function MaxTier(a: MemberTier, b: MemberTier): (r: MemberTier)
    ensures r == a || r == b
    ensures !TierBelow(r, a) && !TierBelow(r, b)
  {
    if TierBelow(a, b) then b else a
  }

  /** `<` on tiers is a strict total order: irreflexive, transitive and
      connected (the rank is injective). */
  lemma TierOrderIsTotal(a: MemberTier, b: MemberTier, c: MemberTier)
    ensures !TierBelow(a, a)
    ensures TierBelow(a, b) && TierBelow(b, c) ==> TierBelow(a, c)
    ensures a != b ==> TierBelow(a, b) || TierBelow(b, a)
  {
  }

  datatype WalletTransactionType = Deposit | Withdraw | Payment | Refund | Reward

  /** Only `Completed` entries are reflected in a wallet balance. */
  datatype TransactionStatus = Pending | Completed | Rejected | Failed

  datatype BookingStatus = PendingPayment | Confirmed | Cancelled | Completed | Holding

  datatype TournamentFormat = RoundRobin | Knockout | Hybrid

  datatype TournamentStatus = Open | Registering | DrawCompleted | Ongoing | Finished {
    /** Position in the enum declaration; the lifecycle runs forward along it. */
    function Rank(): nat {
      match this
      case Open => 0
      case Registering => 1
      case DrawCompleted => 2
      case Ongoing => 3
      case Finished => 4
    }

    /** Join accepts exactly the first two statuses. */
    predicate AcceptsRegistration()
      ensures AcceptsRegistration() <==> Rank() < 2
    {
      this == Open || this == Registering
    }
  }

  datatype WinningSide = Team1 | Team2 | Draw

  datatype MatchStatus = Scheduled | InProgress | Finished
}
