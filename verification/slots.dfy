/** Slot availability: the collision test the booking action runs against the
    existing bookings of a court, and the no-overlap invariant it protects. */
module Slots {
  import opened Enums
  import opened Models

  /** A booking blocks its slot unless it is Cancelled. */
  predicate Blocks(b: Booking) {
    !b.status.Cancelled?
  }

  /** Standard overlap of the half-open intervals `[aStart, aEnd)` and
      `[bStart, bEnd)`. */
  predicate Overlaps(aStart: int, aEnd: int, bStart: int, bEnd: int) {
    aStart < bEnd && bStart < aEnd
  }

  /** The availability query's test against one existing booking `b`, for a
      request on `courtId` over `[start, end)`: same court, not Cancelled, and
      one of three clauses (b starts inside the request, b ends inside it, or
      b covers it). */
  predicate Collides(b: Booking, courtId: nat, start: int, end: int) {
    && b.courtId == courtId
    && Blocks(b)
    && ((b.startTime < end && b.startTime >= start)
        || (b.endTime > start && b.endTime <= end)
        || (b.startTime <= start && b.endTime >= end))
  }

  /** Every booking spans a non-empty interval. */
  ghost predicate NonEmptyIntervals(bs: seq<Booking>) {
    forall i :: 0 <= i < |bs| ==> bs[i].startTime < bs[i].endTime
  }

  /** The availability query: is any existing booking colliding? When all
      intervals are non-empty this is exactly "some blocking booking on the
      court overlaps the request". */
  function SlotBusy(bs: seq<Booking>, courtId: nat, start: int, end: int): (busy: bool)
    ensures start < end && NonEmptyIntervals(bs) ==>
      (busy <==> exists i :: 0 <= i < |bs| && bs[i].courtId == courtId && Blocks(bs[i])
                                && Overlaps(bs[i].startTime, bs[i].endTime, start, end))
  {
    exists i :: 0 <= i < |bs| && Collides(bs[i], courtId, start, end)
  }

  /** The three clauses are the standard half-open overlap whenever both
      intervals are non-empty. */
  lemma CollidesIsOverlap(b: Booking, courtId: nat, start: int, end: int)
    requires start < end && b.startTime < b.endTime
    ensures Collides(b, courtId, start, end)
        <==> b.courtId == courtId && Blocks(b) && Overlaps(b.startTime, b.endTime, start, end)
  {
  }

  /** Cancelled bookings, bookings on other courts, and back-to-back slots
      never make a request collide. */
  lemma NeverCollides(b: Booking, courtId: nat, start: int, end: int)
    requires start < end && b.startTime < b.endTime
    requires b.status.Cancelled? || b.courtId != courtId || b.endTime == start || b.startTime == end
    ensures !Collides(b, courtId, start, end)
  {
  }

  /** No two blocking bookings on the same court overlap. */
  ghost predicate NoOverlap(bs: seq<Booking>) {
    forall i, j :: 0 <= i < j < |bs| && Blocks(bs[i]) && Blocks(bs[j]) && bs[i].courtId == bs[j].courtId
      ==> !Overlaps(bs[i].startTime, bs[i].endTime, bs[j].startTime, bs[j].endTime)
  }

  /** Adding a booking the availability query found free keeps the
      invariant. */
  lemma NoOverlapAppend(bs: seq<Booking>, b: Booking)
    requires NoOverlap(bs) && NonEmptyIntervals(bs)
    requires b.startTime < b.endTime
    requires !SlotBusy(bs, b.courtId, b.startTime, b.endTime)
    ensures NoOverlap(bs + [b]) && NonEmptyIntervals(bs + [b])
  {
    var bs' := bs + [b];
    forall i, j | 0 <= i < j < |bs'| && Blocks(bs'[i]) && Blocks(bs'[j]) && bs'[i].courtId == bs'[j].courtId
      ensures !Overlaps(bs'[i].startTime, bs'[i].endTime, bs'[j].startTime, bs'[j].endTime)
    {
      if j == |bs| {
        assert bs'[i] == bs[i];
        assert !Collides(bs[i], b.courtId, b.startTime, b.endTime);
      }
    }
  }

  /** Turning bookings into Cancelled ones, and nothing else, keeps the
      invariant. */
  lemma NoOverlapCancelling(bs: seq<Booking>, bs': seq<Booking>)
    requires NoOverlap(bs) && NonEmptyIntervals(bs)
    requires |bs'| == |bs|
    requires forall i :: 0 <= i < |bs| ==> bs'[i] == bs[i] || bs'[i] == bs[i].(status := Cancelled)
    ensures NoOverlap(bs') && NonEmptyIntervals(bs')
  {
  }
}
