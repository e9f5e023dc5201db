/** The booking actions: create a paid booking, cancel one with the 24-hour
    refund rule, and the recurring-booking endpoint. Each action is one atomic
    transition: a rejection returns an error and the caller keeps the old
    state. */
module Bookings {
  import opened Enums
  import opened Models
  import opened Tiers
  import opened Slots

  /** A booking request: a calendar date (any time on that day), the hour the
      slot starts at, and how many hours it lasts. */
  datatype BookingRequest = BookingRequest(courtId: nat, date: int, startHour: int, durationHours: int)

  /** Midnight of the request's date plus `startHour` hours. */
  function SlotStart(req: BookingRequest): int {
    req.date - req.date % MinutesPerDay + req.startHour * MinutesPerHour
  }

  function SlotEnd(req: BookingRequest): int {
    SlotStart(req) + req.durationHours * MinutesPerHour
  }

  function BookingPrice(court: Court, req: BookingRequest): int {
    court.pricePerHour * req.durationHours
  }

  /** Book a court and pay for it from the caller's wallet. */
  function CreateBooking(s: State, caller: MemberId, req: BookingRequest, now: int): (r: Result<State>)
    requires req.durationHours >= 1
    // accepted exactly when every guard passes
    ensures r.Ok? <==>
      && caller in s.members && req.courtId in s.courts
      && !SlotBusy(s.bookings, req.courtId, SlotStart(req), SlotEnd(req))
      && s.members[caller].walletBalance >= BookingPrice(s.courts[req.courtId], req)
    // rejections, in the order the action tests them
    ensures caller !in s.members ==> r == Err(Unauthorized)
    ensures caller in s.members && req.courtId !in s.courts ==> r == Err(NotFound)
    ensures (caller in s.members && req.courtId in s.courts
             && SlotBusy(s.bookings, req.courtId, SlotStart(req), SlotEnd(req))) ==> r == Err(SlotTaken)
    ensures (caller in s.members && req.courtId in s.courts
             && !SlotBusy(s.bookings, req.courtId, SlotStart(req), SlotEnd(req))
             && s.members[caller].walletBalance < BookingPrice(s.courts[req.courtId], req)) ==> r == Err(InsufficientFunds)
    ensures r.Ok? ==> caller in s.members && req.courtId in s.courts
                      && !SlotBusy(s.bookings, req.courtId, SlotStart(req), SlotEnd(req))
                      && s.members[caller].walletBalance >= BookingPrice(s.courts[req.courtId], req)
                      && OtherMembersUnchanged(s, r.value, caller)
    // the wallet: debited by exactly the price, never below zero, tier raised only
    ensures r.Ok? ==>
      var price := BookingPrice(s.courts[req.courtId], req);
      var before := s.members[caller];
      var after := r.value.members[caller];
      && after.walletBalance == before.walletBalance - price >= 0
      && after.totalSpent == before.totalSpent + price
      && after.tier == MaxTier(before.tier, TierFor(after.totalSpent))
      && after.(walletBalance := before.walletBalance, totalSpent := before.totalSpent, tier := before.tier) == before
    // one Completed Payment entry and one Confirmed booking, linked both ways
    ensures r.Ok? ==>
      var price := BookingPrice(s.courts[req.courtId], req);
      var s' := r.value;
      && |s'.ledger| == |s.ledger| + 1 && s'.ledger[..|s.ledger|] == s.ledger
      && |s'.bookings| == |s.bookings| + 1 && s'.bookings[..|s.bookings|] == s.bookings
      && var payment := s'.ledger[|s.ledger|];
         var booking := s'.bookings[|s.bookings|];
         && payment.id == s.nextTransactionId && booking.id == s.nextBookingId
         && payment.memberId == caller && payment.amount == -price
         && payment.txType == Payment && payment.status == TransactionStatus.Completed
         && payment.createdDate == now
         && booking.courtId == req.courtId && booking.memberId == caller
         && booking.startTime == SlotStart(req) && booking.endTime == SlotEnd(req)
         && booking.startTime < booking.endTime
         && booking.totalPrice == price && booking.status == Confirmed
         && !booking.isRecurring && booking.recurrenceRule == None && booking.parentBookingId == None
         && booking.createdDate == now
         && booking.transactionId == Some(payment.id) && payment.relatedId == Some(booking.id)
    // nothing else changes
    ensures r.Ok? ==>
      && r.value.courts == s.courts
      && r.value.nextBookingId == s.nextBookingId + 1
      && r.value.nextTransactionId == s.nextTransactionId + 1
      && TournamentDataUnchanged(s, r.value) && NotificationsUnchanged(s, r.value)
  {
    if caller !in s.members then Err(Unauthorized)
    else if req.courtId !in s.courts then Err(NotFound)
    else
      var start := SlotStart(req);
      var end := SlotEnd(req);
      if SlotBusy(s.bookings, req.courtId, start, end) then Err(SlotTaken)
      else
        var price := BookingPrice(s.courts[req.courtId], req);
        var user := s.members[caller];
        if user.walletBalance < price then Err(InsufficientFunds)
        else
          var spent := user.totalSpent + price;
          var user' := user.(walletBalance := user.walletBalance - price,
                             totalSpent := spent,
                             tier := UpgradeTier(user.tier, spent));
          var payment := WalletTransaction(s.nextTransactionId, caller, -price, Payment,
                                           TransactionStatus.Completed, Some(s.nextBookingId), now);
          var booking := NewBooking(s.nextBookingId, req.courtId, caller, start, end, now)
                           .(totalPrice := price, status := Confirmed,
                             transactionId := Some(s.nextTransactionId), isRecurring := false);
          Ok(s.(members := s.members[caller := user'],
                bookings := s.bookings + [booking],
                ledger := s.ledger + [payment],
                nextBookingId := s.nextBookingId + 1,
                nextTransactionId := s.nextTransactionId + 1))
  }

  /** The refund policy: the full price when the slot starts at least 24 hours
      after `now`, nothing otherwise. */
  function RefundFor(b: Booking, now: int): int {
    if b.startTime - now >= 24 * MinutesPerHour then b.totalPrice else 0
  }

  /** Cancel a booking as `caller`; the owner is refunded by the policy above. */
  function CancelBooking(s: State, bookingId: nat, caller: MemberId, callerIsAdmin: bool, now: int): (r: Result<State>)
    // accepted exactly when every guard passes and a refund, if owed, has a member to go to
    ensures r.Ok? <==>
      && FindBooking(s.bookings, bookingId).Some?
      && var b := s.bookings[FindBooking(s.bookings, bookingId).value];
         && (b.memberId == caller || callerIsAdmin) && b.status != Cancelled
         && !(RefundFor(b, now) > 0 && b.memberId !in s.members)
    // rejections
    ensures FindBooking(s.bookings, bookingId).None? ==> r == Err(NotFound)
    ensures FindBooking(s.bookings, bookingId).Some? ==>
      var b := s.bookings[FindBooking(s.bookings, bookingId).value];
      && (b.memberId != caller && !callerIsAdmin ==> r == Err(Forbidden))
      && ((b.memberId == caller || callerIsAdmin) && b.status == Cancelled ==> r == Err(AlreadyCancelled))
    ensures r.Ok? ==>
      && FindBooking(s.bookings, bookingId).Some?
      && var i := FindBooking(s.bookings, bookingId).value;
         var b := s.bookings[i];
         && (b.memberId == caller || callerIsAdmin)
         && b.status != Cancelled
         // the status always becomes Cancelled and no other booking changes
         && r.value.bookings == s.bookings[i := b.(status := Cancelled)]
         // refund exactly when the start is at least 24 hours away and the price positive
         && (b.startTime - now >= 24 * MinutesPerHour && b.totalPrice > 0 ==>
               && b.memberId in s.members
               && OtherMembersUnchanged(s, r.value, b.memberId)
               && var before := s.members[b.memberId];
                  var after := r.value.members[b.memberId];
                  && after.walletBalance == before.walletBalance + b.totalPrice
                  && after.totalSpent == before.totalSpent - b.totalPrice
                  && after.tier == before.tier
                  && after.(walletBalance := before.walletBalance, totalSpent := before.totalSpent) == before
                  && r.value.ledger == s.ledger + [WalletTransaction(s.nextTransactionId, b.memberId, b.totalPrice,
                                                                    Refund, TransactionStatus.Completed, Some(b.id), now)]
                  && r.value.nextTransactionId == s.nextTransactionId + 1)
         && (b.startTime - now < 24 * MinutesPerHour || b.totalPrice <= 0 ==>
               MembersUnchanged(s, r.value) && LedgerUnchanged(s, r.value))
    // a refund owed to a member the store cannot load fails and rolls back
    ensures r == Err(InternalFailure) <==>
      && FindBooking(s.bookings, bookingId).Some?
      && var b := s.bookings[FindBooking(s.bookings, bookingId).value];
         && (b.memberId == caller || callerIsAdmin) && b.status != Cancelled
         && RefundFor(b, now) > 0 && b.memberId !in s.members
    ensures r.Ok? ==>
      && r.value.courts == s.courts && r.value.nextBookingId == s.nextBookingId
      && TournamentDataUnchanged(s, r.value) && NotificationsUnchanged(s, r.value)
  {
    match FindBooking(s.bookings, bookingId)
    case None => Err(NotFound)
    case Some(i) =>
      var b := s.bookings[i];
      if b.memberId != caller && !callerIsAdmin then Err(Forbidden)
      else if b.status == Cancelled then Err(AlreadyCancelled)
      else
        var refund := RefundFor(b, now);
        var s1 := s.(bookings := s.bookings[i := b.(status := Cancelled)]);
        if refund > 0 then
          if b.memberId !in s.members then Err(InternalFailure)
          else
            var user := s.members[b.memberId];
            var user' := user.(walletBalance := user.walletBalance + refund,
                               totalSpent := user.totalSpent - refund);
            var entry := WalletTransaction(s.nextTransactionId, b.memberId, refund, Refund,
                                           TransactionStatus.Completed, Some(b.id), now);
            Ok(s1.(members := s.members[b.memberId := user'],
                   ledger := s.ledger + [entry],
                   nextTransactionId := s.nextTransactionId + 1))
        else Ok(s1)
  }

  /** Cancelling a cancelled booking is always rejected, so a booking is
      refunded at most once. */
  lemma SecondCancelIsRejected(s: State, bookingId: nat, caller: MemberId, isAdmin: bool, now: int,
                               caller2: MemberId, isAdmin2: bool, now2: int)
    requires CancelBooking(s, bookingId, caller, isAdmin, now).Ok?
    ensures CancelBooking(CancelBooking(s, bookingId, caller, isAdmin, now).value,
                          bookingId, caller2, isAdmin2, now2).Err?
  {
    var i := FindBooking(s.bookings, bookingId).value;
    var s' := CancelBooking(s, bookingId, caller, isAdmin, now).value;
    assert s'.bookings[i].status == Cancelled;
    var j := FindBooking(s'.bookings, bookingId);
    assert j == Some(i) by {
      forall k | 0 <= k < i ensures s'.bookings[k].id != bookingId {
        assert s'.bookings[k] == s.bookings[k];
      }
    }
  }

  /** The recurring-booking endpoint accepts callers in the VIP or Admin role
      and then always answers "coming soon": it never changes anything. */
  function CreateRecurringBooking(s: State, callerIsVipOrAdmin: bool): (r: Result<State>)
    ensures r.Err?
    ensures r.error == (if callerIsVipOrAdmin then ComingSoon else Forbidden)
  {
    if callerIsVipOrAdmin then Err(ComingSoon) else Err(Forbidden)
  }
}
