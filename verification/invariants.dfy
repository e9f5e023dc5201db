/** Whole-state invariants of the engine and the proof that every action,
    accepted or rejected, keeps them: court intervals never overlap, wallets
    never go negative, each member's balance stays the same distance from the
    sum of their Completed ledger entries, tiers only rise, a booking is
    refunded at most once, a tournament prize is paid at most once, and a
    booking is reminded at most once. Schedule generation is the corrected
    `Tournaments.GenerateSchedule`, which refuses a Finished tournament; the
    action as written lets a prize be paid twice. Wallets stay non-negative
    given that every tournament's prize pool is, since tournaments are
    created outside the model. */
module Invariants {
  import opened Enums
  import opened Models
  import opened Ledger
  import opened Slots
  import opened Bookings
  import opened Wallet
  import opened Tournaments
  import opened Cleanup

  /** Some booking with id `bid` is Cancelled. */
  ghost predicate CancelledId(bs: seq<Booking>, bid: nat) {
    exists i :: 0 <= i < |bs| && bs[i].id == bid && bs[i].status == Cancelled
  }

  /** Booking ids come from the identity counter and are never reused. */
  ghost predicate BookingsWellFormed(s: State) {
    && (forall i :: 0 <= i < |s.bookings| ==> s.bookings[i].id < s.nextBookingId)
    && DistinctBookingIds(s.bookings)
    && NonEmptyIntervals(s.bookings)
    && NoOverlap(s.bookings)
  }

  /** Balances are never negative, and nothing that can be credited is. */
  ghost predicate WalletsSound(s: State) {
    && (forall m :: m in s.members ==> s.members[m].walletBalance >= 0)
    && (forall k :: 0 <= k < |s.ledger| && s.ledger[k].status == Pending ==> s.ledger[k].amount >= 0)
    && (forall t :: t in s.tournaments ==> s.tournaments[t].prizePool >= 0)
  }

  /** A booking has at most one Refund entry, and only once it is Cancelled. */
  ghost predicate RefundsOnce(s: State) {
    forall bid: nat :: EntryCount(s.ledger, Refund, bid) <= if CancelledId(s.bookings, bid) then 1 else 0
  }

  /** A tournament has at most one Reward entry, and only once it is Finished. */
  ghost predicate RewardsOnce(s: State) {
    forall tid: nat :: EntryCount(s.ledger, Reward, tid)
                       <= if tid in s.tournaments && s.tournaments[tid].status == TournamentStatus.Finished then 1 else 0
  }

  ghost predicate Valid(s: State) {
    && BookingsWellFormed(s)
    && WalletsSound(s)
    && RefundsOnce(s)
    && RewardsOnce(s)
    && ParticipantsUnique(s.participants)
    && RemindersOnce(s.notifications)
  }

  /** What every transition from `s` to `s'` keeps about the members: nobody
      appears or disappears, each balance moves exactly as the Completed sum
      of that member's entries does, and no tier drops. */
  ghost predicate Conserves(s: State, s': State) {
    && s'.members.Keys == s.members.Keys
    && forall m :: m in s.members ==>
         && m in s'.members
         && Drift(s', m) == Drift(s, m)
         && !TierBelow(s'.members[m].tier, s.members[m].tier)
  }

  /** A freshly seeded store is valid: members, courts and tournaments, but no
      bookings, ledger entries, registrations or notifications yet, and the
      identity counters at zero. */
  lemma EmptyStoreIsValid(members: map<MemberId, Member>, courts: map<nat, Court>, tournaments: map<nat, Tournament>)
    requires forall m :: m in members ==> members[m].walletBalance >= 0
    requires forall t :: t in tournaments ==> tournaments[t].prizePool >= 0
    ensures Valid(State(members, courts, [], [], tournaments, [], [], [], 0, 0, 0, 0, 0))
  {
  }

  // ---- helpers about appending to the ledger and cancelling bookings ----

  lemma AppendCounts(ledger: seq<WalletTransaction>, e: WalletTransaction)
    ensures forall kind, rid: nat :: EntryCount(ledger + [e], kind, rid)
              == EntryCount(ledger, kind, rid) + (if e.txType == kind && e.relatedId == Some(rid) then 1 else 0)
  {
    forall kind, rid: nat
      ensures EntryCount(ledger + [e], kind, rid)
              == EntryCount(ledger, kind, rid) + (if e.txType == kind && e.relatedId == Some(rid) then 1 else 0)
    {
      EntryCountAppend(ledger, e, kind, rid);
    }
  }

  lemma AppendSums(ledger: seq<WalletTransaction>, e: WalletTransaction)
    ensures forall m :: CompletedSum(ledger + [e], m) == CompletedSum(ledger, m) + Contribution(e, m)
  {
    forall m ensures CompletedSum(ledger + [e], m) == CompletedSum(ledger, m) + Contribution(e, m) {
      CompletedSumAppend(ledger, e, m);
    }
  }

  /** A wallet move of `m` booked as one Completed entry of the same amount
      conserves every member's drift. */
  lemma BookedMoveConserves(s: State, s': State, m: MemberId, e: WalletTransaction)
    requires m in s.members && OtherMembersUnchanged(s, s', m)
    requires s'.ledger == s.ledger + [e] && e.memberId == m && e.status == TransactionStatus.Completed
    requires s'.members[m].walletBalance == s.members[m].walletBalance + e.amount
    requires !TierBelow(s'.members[m].tier, s.members[m].tier)
    ensures Conserves(s, s')
  {
    AppendSums(s.ledger, e);
  }

  /** Keeping every id and every cancellation keeps every `CancelledId`. */
  lemma CancelledStaysCancelled(bs: seq<Booking>, bs': seq<Booking>)
    requires |bs'| >= |bs|
    requires forall i :: 0 <= i < |bs| ==> bs'[i].id == bs[i].id && (bs[i].status == Cancelled ==> bs'[i].status == Cancelled)
    ensures forall bid :: CancelledId(bs, bid) ==> CancelledId(bs', bid)
  {
    forall bid | CancelledId(bs, bid) ensures CancelledId(bs', bid) {
      var i :| 0 <= i < |bs| && bs[i].id == bid && bs[i].status == Cancelled;
      assert bs'[i].id == bid && bs'[i].status == Cancelled;
    }
  }

  /** An entry that is neither a Refund nor a Reward, appended while the
      bookings only gain entries or cancellations and the tournaments stay,
      keeps both payout invariants. */
  lemma PayoutsKeptByOtherEntry(s: State, s': State, e: WalletTransaction)
    requires RefundsOnce(s) && RewardsOnce(s)
    requires s'.ledger == s.ledger + [e] && e.txType != Refund && e.txType != Reward
    requires s'.tournaments == s.tournaments
    requires |s'.bookings| >= |s.bookings|
    requires forall i :: 0 <= i < |s.bookings| ==> s'.bookings[i] == s.bookings[i]
    ensures RefundsOnce(s') && RewardsOnce(s')
  {
    AppendCounts(s.ledger, e);
    CancelledStaysCancelled(s.bookings, s'.bookings);
  }

  // ---- one lemma per action ----

  lemma CreateBookingKeepsBookings(s: State, caller: MemberId, req: BookingRequest, now: int)
    requires BookingsWellFormed(s) && req.durationHours >= 1
    requires CreateBooking(s, caller, req, now).Ok?
    ensures BookingsWellFormed(CreateBooking(s, caller, req, now).value)
  {
    var s' := CreateBooking(s, caller, req, now).value;
    var b := s'.bookings[|s.bookings|];
    assert s'.bookings == s.bookings + [b];
    NoOverlapAppend(s.bookings, b);
  }

  lemma CreateBookingKeepsValid(s: State, caller: MemberId, req: BookingRequest, now: int)
    requires Valid(s) && req.durationHours >= 1
    requires CreateBooking(s, caller, req, now).Ok?
    ensures Valid(CreateBooking(s, caller, req, now).value)
    ensures Conserves(s, CreateBooking(s, caller, req, now).value)
  {
    var s' := CreateBooking(s, caller, req, now).value;
    var e := s'.ledger[|s.ledger|];
    assert s'.ledger == s.ledger + [e];
    CreateBookingKeepsBookings(s, caller, req, now);
    PayoutsKeptByOtherEntry(s, s', e);
    BookedMoveConserves(s, s', caller, e);
  }

  /** Cancelling booking `i`, optionally booking one Refund for it, keeps
      refunds once-only: the booking was not Cancelled, so it had none. */
  lemma CancellingKeepsPayouts(s: State, s': State, i: nat, e: WalletTransaction)
    requires DistinctBookingIds(s.bookings) && RefundsOnce(s) && RewardsOnce(s)
    requires i < |s.bookings| && s.bookings[i].status != Cancelled
    requires s'.bookings == s.bookings[i := s.bookings[i].(status := Cancelled)]
    requires s'.tournaments == s.tournaments
    requires s'.ledger == s.ledger
             || (s'.ledger == s.ledger + [e] && e.txType == Refund && e.relatedId == Some(s.bookings[i].id))
    ensures RefundsOnce(s') && RewardsOnce(s')
  {
    var b := s.bookings[i];
    CancelledStaysCancelled(s.bookings, s'.bookings);
    assert !CancelledId(s.bookings, b.id);
    assert s'.bookings[i].id == b.id && s'.bookings[i].status == Cancelled;
    assert CancelledId(s'.bookings, b.id);
    if s'.ledger != s.ledger {
      AppendCounts(s.ledger, e);
    }
  }

  lemma CancelBookingKeepsPayouts(s: State, bookingId: nat, caller: MemberId, callerIsAdmin: bool, now: int)
    requires DistinctBookingIds(s.bookings) && RefundsOnce(s) && RewardsOnce(s)
    requires CancelBooking(s, bookingId, caller, callerIsAdmin, now).Ok?
    ensures RefundsOnce(CancelBooking(s, bookingId, caller, callerIsAdmin, now).value)
    ensures RewardsOnce(CancelBooking(s, bookingId, caller, callerIsAdmin, now).value)
  {
    var s' := CancelBooking(s, bookingId, caller, callerIsAdmin, now).value;
    var i := FindBooking(s.bookings, bookingId).value;
    var b := s.bookings[i];
    CancellingKeepsPayouts(s, s', i, WalletTransaction(s.nextTransactionId, b.memberId, b.totalPrice, Refund,
                                                       TransactionStatus.Completed, Some(b.id), now));
  }

  lemma CancelBookingKeepsValid(s: State, bookingId: nat, caller: MemberId, callerIsAdmin: bool, now: int)
    requires Valid(s)
    requires CancelBooking(s, bookingId, caller, callerIsAdmin, now).Ok?
    ensures Valid(CancelBooking(s, bookingId, caller, callerIsAdmin, now).value)
    ensures Conserves(s, CancelBooking(s, bookingId, caller, callerIsAdmin, now).value)
  {
    var s' := CancelBooking(s, bookingId, caller, callerIsAdmin, now).value;
    var b := s.bookings[FindBooking(s.bookings, bookingId).value];
    CancelBookingKeepsPayouts(s, bookingId, caller, callerIsAdmin, now);
    NoOverlapCancelling(s.bookings, s'.bookings);
    if s'.ledger != s.ledger {
      BookedMoveConserves(s, s', b.memberId, WalletTransaction(s.nextTransactionId, b.memberId, b.totalPrice, Refund,
                                                               TransactionStatus.Completed, Some(b.id), now));
    }
  }

  lemma RequestDepositKeepsValid(s: State, caller: MemberId, amount: int, now: int)
    requires Valid(s)
    requires RequestDeposit(s, caller, amount, now).Ok?
    ensures Valid(RequestDeposit(s, caller, amount, now).value)
    ensures Conserves(s, RequestDeposit(s, caller, amount, now).value)
  {
    var s' := RequestDeposit(s, caller, amount, now).value;
    var e := s'.ledger[|s.ledger|];
    PayoutsKeptByOtherEntry(s, s', e);
    AppendSums(s.ledger, e);
  }

  lemma ApproveTransactionKeepsValid(s: State, transactionId: nat)
    requires Valid(s)
    requires ApproveTransaction(s, transactionId).Ok?
    ensures Valid(ApproveTransaction(s, transactionId).value)
    ensures Conserves(s, ApproveTransaction(s, transactionId).value)
  {
    var s' := ApproveTransaction(s, transactionId).value;
    var i := FindTransaction(s.ledger, transactionId).value;
    var e := s.ledger[i];
    forall kind, rid ensures EntryCount(s'.ledger, kind, rid) == EntryCount(s.ledger, kind, rid) {
      EntryCountStatusChange(s.ledger, i, TransactionStatus.Completed, kind, rid);
    }
    forall m ensures CompletedSum(s'.ledger, m) == CompletedSum(s.ledger, m) + Contribution(e.(status := TransactionStatus.Completed), m) {
      CompletedSumUpdate(s.ledger, i, e.(status := TransactionStatus.Completed), m);
    }
  }

  lemma JoinTournamentKeepsValid(s: State, caller: MemberId, tid: nat, teamName: Option<string>, now: int)
    requires Valid(s)
    requires JoinTournament(s, caller, tid, teamName, now).Ok?
    ensures Valid(JoinTournament(s, caller, tid, teamName, now).value)
    ensures Conserves(s, JoinTournament(s, caller, tid, teamName, now).value)
  {
    var s' := JoinTournament(s, caller, tid, teamName, now).value;
    var e := s'.ledger[|s.ledger|];
    PayoutsKeptByOtherEntry(s, s', e);
    BookedMoveConserves(s, s', caller, e);
    var p := s'.participants[|s.participants|];
    forall k | 0 <= k < |s.participants| ensures s.participants[k].tournamentId != p.tournamentId || s.participants[k].memberId != p.memberId {
      if s.participants[k].tournamentId == tid && s.participants[k].memberId == caller {
        assert HasJoined(s.participants, tid, caller);
      }
    }
  }

  lemma GenerateScheduleKeepsValid(s: State, tid: nat, perm: seq<nat>)
    requires Valid(s)
    requires IsPermutation(perm, |ParticipantsOf(s.participants, tid)|)
    ensures var r := GenerateSchedule(s, tid, perm);
      r.Ok? ==> Valid(r.value) && Conserves(s, r.value)
  {
    var r := GenerateSchedule(s, tid, perm);
    if r.Ok? {
      assert r.value.tournaments == s.tournaments[tid := s.tournaments[tid].(status := Ongoing)];
      assert EntryCount(s.ledger, Reward, tid) == 0;
    }
  }

  lemma FinishTournamentKeepsValid(s: State, tid: nat, winnerId: MemberId, now: int)
    requires Valid(s)
    requires FinishTournament(s, tid, winnerId, now).Ok?
    ensures Valid(FinishTournament(s, tid, winnerId, now).value)
    ensures Conserves(s, FinishTournament(s, tid, winnerId, now).value)
  {
    var s' := FinishTournament(s, tid, winnerId, now).value;
    var e := s'.ledger[|s.ledger|];
    assert EntryCount(s.ledger, Reward, tid) == 0;
    AppendCounts(s.ledger, e);
    BookedMoveConserves(s, s', winnerId, e);
  }

  lemma SweepKeepsValid(s: State, now: int)
    requires Valid(s)
    ensures Valid(Sweep(s, now))
    ensures Conserves(s, Sweep(s, now))
  {
    var s' := Sweep(s, now);
    forall i | 0 <= i < |s.bookings|
      ensures s'.bookings[i] == s.bookings[i] || s'.bookings[i] == s.bookings[i].(status := Cancelled)
    {
      if Expired(s.bookings[i], now) {
        assert s'.bookings[i] == s'.bookings[i].(status := s.bookings[i].status).(status := Cancelled);
      }
    }
    NoOverlapCancelling(s.bookings, s'.bookings);
    CancelledStaysCancelled(s.bookings, s'.bookings);
    SweepKeepsRemindersOnce(s, now);
  }

  // ---- arbitrary runs ----

  /** One request to the engine, as the controllers and the cleanup service
      receive them. */
  datatype Action =
    | Book(caller: MemberId, req: BookingRequest, now: int)
    | Cancel(bookingId: nat, canceller: MemberId, isAdmin: bool, now: int)
    | AskDeposit(depositor: MemberId, amount: int, now: int)
    | Approve(transactionId: nat)
    | Join(joiner: MemberId, tournamentId: nat, teamName: Option<string>, now: int)
    | Schedule(scheduled: nat, perm: seq<nat>)
    | Finish(finished: nat, winnerId: MemberId, now: int)
    | Clean(now: int)

  /** A rejected action leaves the store as it was. */
  function Commit(s: State, r: Result<State>): State {
    if r.Ok? then r.value else s
  }

  /** Apply one action. A booking shorter than an hour lies outside the model
      and a `perm` that is not a permutation is not a shuffle; both are
      treated as leaving the store unchanged. */
  function Step(s: State, a: Action): State {
    match a
    case Book(caller, req, now) =>
      if req.durationHours < 1 then s else Commit(s, CreateBooking(s, caller, req, now))
    case Cancel(bookingId, caller, isAdmin, now) => Commit(s, CancelBooking(s, bookingId, caller, isAdmin, now))
    case AskDeposit(caller, amount, now) => Commit(s, RequestDeposit(s, caller, amount, now))
    case Approve(transactionId) => Commit(s, ApproveTransaction(s, transactionId))
    case Join(caller, tid, teamName, now) => Commit(s, JoinTournament(s, caller, tid, teamName, now))
    case Schedule(tid, perm) =>
      if !IsPermutation(perm, |ParticipantsOf(s.participants, tid)|) then s
      else Commit(s, GenerateSchedule(s, tid, perm))
    case Finish(tid, winnerId, now) => Commit(s, FinishTournament(s, tid, winnerId, now))
    case Clean(now) => Sweep(s, now)
  }

  lemma BookingStepKeepsValid(s: State, a: Action)
    requires Valid(s) && (a.Book? || a.Cancel? || a.Clean?)
    ensures Valid(Step(s, a)) && Conserves(s, Step(s, a))
  {
    match a
    case Book(caller, req, now) =>
      if req.durationHours >= 1 && CreateBooking(s, caller, req, now).Ok? {
        CreateBookingKeepsValid(s, caller, req, now);
      }
    case Cancel(bookingId, caller, isAdmin, now) =>
      if CancelBooking(s, bookingId, caller, isAdmin, now).Ok? {
        CancelBookingKeepsValid(s, bookingId, caller, isAdmin, now);
      }
    case Clean(now) =>
      SweepKeepsValid(s, now);
  }

  lemma WalletStepKeepsValid(s: State, a: Action)
    requires Valid(s) && (a.AskDeposit? || a.Approve?)
    ensures Valid(Step(s, a)) && Conserves(s, Step(s, a))
  {
    match a
    case AskDeposit(caller, amount, now) =>
      if RequestDeposit(s, caller, amount, now).Ok? {
        RequestDepositKeepsValid(s, caller, amount, now);
      }
    case Approve(transactionId) =>
      if ApproveTransaction(s, transactionId).Ok? {
        ApproveTransactionKeepsValid(s, transactionId);
      }
  }

  lemma TournamentStepKeepsValid(s: State, a: Action)
    requires Valid(s) && (a.Join? || a.Schedule? || a.Finish?)
    ensures Valid(Step(s, a)) && Conserves(s, Step(s, a))
  {
    match a
    case Join(caller, tid, teamName, now) =>
      if JoinTournament(s, caller, tid, teamName, now).Ok? {
        JoinTournamentKeepsValid(s, caller, tid, teamName, now);
      }
    case Schedule(tid, perm) =>
      if IsPermutation(perm, |ParticipantsOf(s.participants, tid)|) && GenerateSchedule(s, tid, perm).Ok? {
        GenerateScheduleKeepsValid(s, tid, perm);
      }
    case Finish(tid, winnerId, now) =>
      if FinishTournament(s, tid, winnerId, now).Ok? {
        FinishTournamentKeepsValid(s, tid, winnerId, now);
      }
  }

  /** Every action, accepted or not, keeps the invariants and the members'
      balances in step with their ledgers. */
  lemma StepKeepsValid(s: State, a: Action)
    requires Valid(s)
    ensures Valid(Step(s, a)) && Conserves(s, Step(s, a))
  {
    if a.Book? || a.Cancel? || a.Clean? {
      BookingStepKeepsValid(s, a);
    } else if a.AskDeposit? || a.Approve? {
      WalletStepKeepsValid(s, a);
    } else {
      TournamentStepKeepsValid(s, a);
    }
  }

  /** Apply a sequence of actions in order. */
  function Run(s: State, actions: seq<Action>): State
    decreases |actions|
  {
    if actions == [] then s else Run(Step(s, actions[0]), actions[1..])
  }

  /** From a valid store, any run of actions ends in a valid store in which
      each member's balance still sits at the same distance from their
      Completed sum and no tier has dropped. */
  lemma {:induction false} RunKeepsValid(s: State, actions: seq<Action>)
    requires Valid(s)
    ensures Valid(Run(s, actions)) && Conserves(s, Run(s, actions))
    decreases |actions|
  {
    if actions != [] {
      var s1 := Step(s, actions[0]);
      StepKeepsValid(s, actions[0]);
      RunKeepsValid(s1, actions[1..]);
    }
  }
}
