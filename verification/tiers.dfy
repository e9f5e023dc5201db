/** Membership tier progression driven by cumulative spend. */
module Tiers {
  import opened Enums

  const SilverThreshold: int := 5_000_000
  const GoldThreshold: int := 20_000_000
  const DiamondThreshold: int := 50_000_000

  /** The highest tier whose threshold a cumulative spend reaches. */
  function TierFor(spent: int): MemberTier {
    if spent >= DiamondThreshold then Diamond
    else if spent >= GoldThreshold then Gold
    else if spent >= SilverThreshold then Silver
    else Standard
  }

  /** The upgrade cascade run after a booking debit: thresholds tried highest
      first, each one only raising a tier that sits below it. Its effect is
      the larger of the current tier and the tier the spend qualifies for, so
      a tier never goes down. */
  function UpgradeTier(current: MemberTier, spent: int): (r: MemberTier)
    ensures r == MaxTier(current, TierFor(spent))
    ensures !TierBelow(r, current)
    ensures spent < SilverThreshold ==> r == current
  {
    if spent >= DiamondThreshold && TierBelow(current, Diamond) then Diamond
    else if spent >= GoldThreshold && TierBelow(current, Gold) then Gold
    else if spent >= SilverThreshold && TierBelow(current, Silver) then Silver
    else current
  }

  /** More spend never qualifies for a lower tier. */
  lemma TierForMonotone(a: int, b: int)
    requires a <= b
    ensures !TierBelow(TierFor(b), TierFor(a))
  {
  }
}
