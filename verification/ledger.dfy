/** The wallet ledger seen as a sum: what the Completed entries of one member
    add up to, and how far the stored wallet balance sits from that sum. */
module Ledger {
  import opened Enums
  import opened Models

  /** What one entry adds to member `m`'s balance: its amount when it is a
      Completed entry of `m`, nothing otherwise. */
  function Contribution(e: WalletTransaction, m: MemberId): int {
    if e.memberId == m && e.status.Completed? then e.amount else 0
  }

  /** Sum of the amounts of `m`'s Completed entries. */
  function CompletedSum(ledger: seq<WalletTransaction>, m: MemberId): int
    decreases |ledger|
  {
    if ledger == [] then 0
    else CompletedSum(ledger[..|ledger| - 1], m) + Contribution(ledger[|ledger| - 1], m)
  }

  /** Stored balance minus the Completed sum. Seeding sets balances without
      ledger entries, so this is not zero in general; every action keeps it. */
  function Drift(s: State, m: MemberId): int
    requires m in s.members
  {
    s.members[m].walletBalance - CompletedSum(s.ledger, m)
  }

  /** Appending an entry adds exactly its contribution. */
  lemma CompletedSumAppend(ledger: seq<WalletTransaction>, e: WalletTransaction, m: MemberId)
    ensures CompletedSum(ledger + [e], m) == CompletedSum(ledger, m) + Contribution(e, m)
  {
    assert (ledger + [e])[..|ledger|] == ledger;
  }

  /** Replacing one entry swaps its contribution for the new one's. */
  lemma {:induction false} CompletedSumUpdate(ledger: seq<WalletTransaction>, i: nat, e: WalletTransaction, m: MemberId)
    requires i < |ledger|
    ensures CompletedSum(ledger[i := e], m) == CompletedSum(ledger, m) - Contribution(ledger[i], m) + Contribution(e, m)
    decreases |ledger|
  {
    var n := |ledger| - 1;
    if i == n {
      assert ledger[i := e][..n] == ledger[..n];
    } else {
      assert ledger[i := e][..n] == ledger[..n][i := e];
      CompletedSumUpdate(ledger[..n], i, e, m);
    }
  }

  /** A member without entries has a Completed sum of zero. */
  lemma {:induction false} CompletedSumWithoutEntries(ledger: seq<WalletTransaction>, m: MemberId)
    requires forall k :: 0 <= k < |ledger| ==> ledger[k].memberId != m
    ensures CompletedSum(ledger, m) == 0
    decreases |ledger|
  {
    if ledger != [] {
      CompletedSumWithoutEntries(ledger[..|ledger| - 1], m);
    }
  }

  /** A member stored as freshly constructed, with no ledger entries of
      their own, starts with drift zero: the balance the invariants carry
      forward is exactly the Completed sum. */
  lemma NewMemberIsBalanced(s: State, id: MemberId, fullName: string)
    requires id in s.members && s.members[id] == NewMember(id, fullName)
    requires forall k :: 0 <= k < |s.ledger| ==> s.ledger[k].memberId != id
    ensures Drift(s, id) == 0
    ensures s.members[id].totalSpent == 0 && s.members[id].tier == Standard && s.members[id].isActive
  {
    CompletedSumWithoutEntries(s.ledger, id);
  }

  /** Number of entries of type `kind` whose RelatedId is `rid`: the refunds
      of one booking, or the prize payouts of one tournament. */
  function EntryCount(ledger: seq<WalletTransaction>, kind: WalletTransactionType, rid: nat): nat
    decreases |ledger|
  {
    if ledger == [] then 0
    else EntryCount(ledger[..|ledger| - 1], kind, rid)
         + (if ledger[|ledger| - 1].txType == kind && ledger[|ledger| - 1].relatedId == Some(rid) then 1 else 0)
  }

  /** Appending counts the new entry and nothing else. */
  lemma EntryCountAppend(ledger: seq<WalletTransaction>, e: WalletTransaction, kind: WalletTransactionType, rid: nat)
    ensures EntryCount(ledger + [e], kind, rid)
            == EntryCount(ledger, kind, rid) + (if e.txType == kind && e.relatedId == Some(rid) then 1 else 0)
  {
    assert (ledger + [e])[..|ledger|] == ledger;
  }

  /** Changing an entry's status does not change any count. */
  lemma {:induction false} EntryCountStatusChange(ledger: seq<WalletTransaction>, i: nat, st: TransactionStatus,
                                                 kind: WalletTransactionType, rid: nat)
    requires i < |ledger|
    ensures EntryCount(ledger[i := ledger[i].(status := st)], kind, rid) == EntryCount(ledger, kind, rid)
    decreases |ledger|
  {
    var n := |ledger| - 1;
    if i == n {
      assert ledger[i := ledger[i].(status := st)][..n] == ledger[..n];
    } else {
      assert ledger[i := ledger[i].(status := st)][..n] == ledger[..n][i := ledger[..n][i].(status := st)];
      EntryCountStatusChange(ledger[..n], i, st, kind, rid);
    }
  }
}
