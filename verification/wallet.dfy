/** The wallet actions: a member asks for a deposit, an administrator approves
    it, and the two ledger listings. */
module Wallet {
  import opened Enums
  import opened Models

  /** The accepted range of a deposit request's amount. */
  const MinDeposit: int := 10_000
  const MaxDeposit: int := 100_000_000

  /** Record a deposit request as a Pending Deposit entry; the wallet is only
      credited when the entry is approved. An entry must belong to a member,
      so a caller without a member record makes the save fail. */
  function RequestDeposit(s: State, caller: MemberId, amount: int, now: int): (r: Result<State>)
    ensures r.Err? <==> amount < MinDeposit || amount > MaxDeposit || caller !in s.members
    ensures amount < MinDeposit || amount > MaxDeposit ==> r == Err(InvalidAmount)
    ensures MinDeposit <= amount <= MaxDeposit && caller !in s.members ==> r == Err(InternalFailure)
    ensures r.Ok? ==>
      && r.value.ledger == s.ledger + [WalletTransaction(s.nextTransactionId, caller, amount, Deposit,
                                                        Pending, None, now)]
      && r.value.nextTransactionId == s.nextTransactionId + 1
      && MembersUnchanged(s, r.value) && BookingsUnchanged(s, r.value)
      && TournamentDataUnchanged(s, r.value) && NotificationsUnchanged(s, r.value)
  {
    if amount < MinDeposit || amount > MaxDeposit then Err(InvalidAmount)
    else if caller !in s.members then Err(InternalFailure)
    else
      var entry := WalletTransaction(s.nextTransactionId, caller, amount, Deposit, Pending, None, now);
      Ok(s.(ledger := s.ledger + [entry], nextTransactionId := s.nextTransactionId + 1))
  }

  /** Approve a Pending entry: it becomes Completed and its owner's wallet
      moves by its amount. An owner without a member record is not credited. */
  function ApproveTransaction(s: State, transactionId: nat): (r: Result<State>)
    // accepted exactly when the entry exists and is Pending
    ensures r.Ok? <==>
      FindTransaction(s.ledger, transactionId).Some?
      && s.ledger[FindTransaction(s.ledger, transactionId).value].status == Pending
    ensures FindTransaction(s.ledger, transactionId).None? ==> r == Err(NotFound)
    ensures (FindTransaction(s.ledger, transactionId).Some?
             && s.ledger[FindTransaction(s.ledger, transactionId).value].status != Pending) ==> r == Err(NotPending)
    ensures r.Ok? ==>
      && FindTransaction(s.ledger, transactionId).Some?
      && var i := FindTransaction(s.ledger, transactionId).value;
         var e := s.ledger[i];
         && e.status == Pending
         && r.value.ledger == s.ledger[i := e.(status := TransactionStatus.Completed)]
         && (e.memberId in s.members ==>
               && OtherMembersUnchanged(s, r.value, e.memberId)
               && r.value.members[e.memberId]
                  == s.members[e.memberId].(walletBalance := s.members[e.memberId].walletBalance + e.amount))
         && (e.memberId !in s.members ==> MembersUnchanged(s, r.value))
    ensures r.Ok? ==>
      && r.value.nextTransactionId == s.nextTransactionId
      && BookingsUnchanged(s, r.value) && TournamentDataUnchanged(s, r.value) && NotificationsUnchanged(s, r.value)
  {
    match FindTransaction(s.ledger, transactionId)
    case None => Err(NotFound)
    case Some(i) =>
      var e := s.ledger[i];
      if e.status != Pending then Err(NotPending)
      else
        var s1 := s.(ledger := s.ledger[i := e.(status := TransactionStatus.Completed)]);
        if e.memberId in s.members then
          var owner := s.members[e.memberId];
          Ok(s1.(members := s.members[e.memberId := owner.(walletBalance := owner.walletBalance + e.amount)]))
        else Ok(s1)
  }

  /** Approving an approved entry is rejected, so an entry credits once. */
  lemma SecondApprovalIsRejected(s: State, transactionId: nat)
    requires ApproveTransaction(s, transactionId).Ok?
    ensures ApproveTransaction(ApproveTransaction(s, transactionId).value, transactionId) == Err(NotPending)
  {
    var i := FindTransaction(s.ledger, transactionId).value;
    var s' := ApproveTransaction(s, transactionId).value;
    assert s'.ledger[i].id == transactionId;
    assert FindTransaction(s'.ledger, transactionId) == Some(i) by {
      forall k | 0 <= k < i ensures s'.ledger[k].id != transactionId {
        assert s'.ledger[k] == s.ledger[k];
      }
    }
  }

  /** The entries of `xs` that satisfy `keep`, in their original order. */
  function Filter(xs: seq<WalletTransaction>, keep: WalletTransaction -> bool): (r: seq<WalletTransaction>)
    ensures forall x :: multiset(r)[x] == if keep(x) then multiset(xs)[x] else 0
    decreases |xs|
  {
    if xs == [] then []
    else
      assert xs == [xs[0]] + xs[1..];
      (if keep(xs[0]) then [xs[0]] else []) + Filter(xs[1..], keep)
  }

  /** Ordered by creation date, newest first. */
  ghost predicate NewestFirst(xs: seq<WalletTransaction>) {
    forall i, j :: 0 <= i < j < |xs| ==> xs[i].createdDate >= xs[j].createdDate
  }

  /** Putting an entry no older than any of a sorted list in front keeps it
      sorted. */
  lemma ConsNewestFirst(x: WalletTransaction, rest: seq<WalletTransaction>)
    requires NewestFirst(rest)
    requires forall y :: y in multiset(rest) ==> y.createdDate <= x.createdDate
    ensures NewestFirst([x] + rest)
  {
    var r := [x] + rest;
    forall i, j | 0 <= i < j < |r| ensures r[i].createdDate >= r[j].createdDate {
      assert r[j] == rest[j - 1];
      if i == 0 {
        assert rest[j - 1] in multiset(rest);
      } else {
        assert r[i] == rest[i - 1];
      }
    }
  }

  /** The head of a sorted list is at least as new as everything after it. */
  lemma HeadIsNewest(xs: seq<WalletTransaction>)
    requires xs != [] && NewestFirst(xs)
    ensures forall y :: y in multiset(xs[1..]) ==> y.createdDate <= xs[0].createdDate
  {
    forall y | y in multiset(xs[1..]) ensures y.createdDate <= xs[0].createdDate {
      var k :| 0 <= k < |xs[1..]| && xs[1..][k] == y;
      assert xs[k + 1] == y;
    }
  }

  function InsertNewestFirst(e: WalletTransaction, xs: seq<WalletTransaction>): (r: seq<WalletTransaction>)
    requires NewestFirst(xs)
    ensures NewestFirst(r)
    ensures multiset(r) == multiset(xs) + multiset{e}
    decreases |xs|
  {
    if xs == [] || e.createdDate >= xs[0].createdDate then
      ConsNewestFirst(e, xs);
      [e] + xs
    else
      var rest := InsertNewestFirst(e, xs[1..]);
      HeadIsNewest(xs);
      assert xs == [xs[0]] + xs[1..];
      assert multiset(xs) == multiset{xs[0]} + multiset(xs[1..]);
      ConsNewestFirst(xs[0], rest);
      [xs[0]] + rest
  }

  /** `OrderByDescending(t => t.CreatedDate)`: a permutation of the input,
      newest first. */
  function SortNewestFirst(xs: seq<WalletTransaction>): (r: seq<WalletTransaction>)
    ensures NewestFirst(r)
    ensures multiset(r) == multiset(xs)
    decreases |xs|
  {
    if xs == [] then []
    else
      assert xs == [xs[0]] + xs[1..];
      InsertNewestFirst(xs[0], SortNewestFirst(xs[1..]))
  }

  /** The caller's own ledger entries, newest first. */
  function MyTransactions(ledger: seq<WalletTransaction>, caller: MemberId): (r: seq<WalletTransaction>)
    ensures NewestFirst(r)
    ensures forall x :: multiset(r)[x] == if x.memberId == caller then multiset(ledger)[x] else 0
    ensures forall k :: 0 <= k < |r| ==> r[k].memberId == caller
  {
    var r := SortNewestFirst(Filter(ledger, (e: WalletTransaction) => e.memberId == caller));
    assert forall k :: 0 <= k < |r| ==> r[k].memberId == caller by {
      forall k | 0 <= k < |r| ensures r[k].memberId == caller {
        assert multiset(r)[r[k]] > 0;
      }
    }
    r
  }

  /** The deposit requests awaiting approval, newest first: exactly the
      Pending entries of type Deposit. */
  function PendingDeposits(ledger: seq<WalletTransaction>): (r: seq<WalletTransaction>)
    ensures NewestFirst(r)
    ensures forall x :: multiset(r)[x] == if x.status == Pending && x.txType == Deposit then multiset(ledger)[x] else 0
  {
    SortNewestFirst(Filter(ledger, (e: WalletTransaction) => e.status == Pending && e.txType == Deposit))
  }
}
