/** One pass of the background cleanup service: expire unpaid bookings older
    than the grace period, then remind the owners of Confirmed bookings that
    start 23 to 24 hours from now, at most once per booking. */
module Cleanup {
  import opened Enums
  import opened Models

  const HoldGraceMinutes: int := 5
  const ReminderFrom: int := 23 * MinutesPerHour
  const ReminderTo: int := 24 * MinutesPerHour
  const ReminderType: string := "Reminder"

  /** An unpaid booking created strictly more than five minutes before `now`. */
  predicate Expired(b: Booking, now: int) {
    b.status == PendingPayment && b.createdDate < now - HoldGraceMinutes
  }

  /** The expiry step: exactly the expired bookings become Cancelled; every
      other booking, and every other field, is left as it was. */
  function ExpireUnpaid(bs: seq<Booking>, now: int): (r: seq<Booking>)
    ensures |r| == |bs|
    ensures forall i :: 0 <= i < |bs| ==> r[i].(status := bs[i].status) == bs[i]
    ensures forall i :: 0 <= i < |bs| ==> (r[i].status == Cancelled <==> bs[i].status == Cancelled || Expired(bs[i], now))
    ensures forall i :: 0 <= i < |bs| && !Expired(bs[i], now) ==> r[i] == bs[i]
  {
    seq(|bs|, i requires 0 <= i < |bs| => if Expired(bs[i], now) then bs[i].(status := Cancelled) else bs[i])
  }

  predicate IsReminder(n: Notification) {
    n.notificationType == ReminderType
  }

  /** Is there a Reminder about booking `id`? */
  predicate HasReminder(ns: seq<Notification>, id: nat) {
    exists k :: 0 <= k < |ns| && IsReminder(ns[k]) && ns[k].relatedId == Some(id)
  }

  /** A Confirmed booking starting between 23 and 24 hours from `now`, both
      ends included. */
  predicate ReminderDue(b: Booking, now: int) {
    b.status == Confirmed && now + ReminderFrom <= b.startTime <= now + ReminderTo
  }

  function ReminderFor(b: Booking, id: nat, now: int): Notification {
    Notification(id, b.memberId, ReminderType, Some(b.id), false, now)
  }

  /** Booking ids are pairwise distinct. */
  ghost predicate DistinctBookingIds(bs: seq<Booking>) {
    forall i, j :: 0 <= i < j < |bs| ==> bs[i].id != bs[j].id
  }

  /** No two Reminders are about the same booking. */
  ghost predicate RemindersOnce(ns: seq<Notification>) {
    forall i, j :: 0 <= i < j < |ns| && IsReminder(ns[i]) && IsReminder(ns[j]) && ns[i].relatedId.Some?
      ==> ns[i].relatedId != ns[j].relatedId
  }

  /** The reminder step over `bs`, checking each booking against the
      notifications stored before the step: consecutive ids from `nextId`, each
      an unread Reminder about some booking, stamped `now`. */
  function NewReminders(bs: seq<Booking>, existing: seq<Notification>, nextId: nat, now: int): (r: seq<Notification>)
    ensures |r| <= |bs|
    ensures forall k :: 0 <= k < |r| ==>
      && r[k].id == nextId + k && IsReminder(r[k]) && r[k].relatedId.Some?
      && !r[k].isRead && r[k].createdDate == now
    decreases |bs|
  {
    if bs == [] then []
    else if ReminderDue(bs[0], now) && !HasReminder(existing, bs[0].id) then
      [ReminderFor(bs[0], nextId, now)] + NewReminders(bs[1..], existing, nextId + 1, now)
    else NewReminders(bs[1..], existing, nextId, now)
  }

  /** Each new reminder is about a due booking that had none, and goes to
      that booking's owner. */
  ghost predicate ReminderJustified(n: Notification, bs: seq<Booking>, existing: seq<Notification>, now: int) {
    exists i :: 0 <= i < |bs| && ReminderDue(bs[i], now) && !HasReminder(existing, bs[i].id)
                && n.relatedId == Some(bs[i].id) && n.receiverId == bs[i].memberId
  }

  lemma {:induction false} NewRemindersJustified(bs: seq<Booking>, existing: seq<Notification>, nextId: nat, now: int)
    ensures forall n :: n in NewReminders(bs, existing, nextId, now) ==> ReminderJustified(n, bs, existing, now)
    decreases |bs|
  {
    if bs != [] {
      var due := ReminderDue(bs[0], now) && !HasReminder(existing, bs[0].id);
      var next := if due then nextId + 1 else nextId;
      NewRemindersJustified(bs[1..], existing, next, now);
      forall n | n in NewReminders(bs[1..], existing, next, now) ensures ReminderJustified(n, bs, existing, now) {
        var i :| 0 <= i < |bs[1..]| && ReminderDue(bs[1..][i], now) && !HasReminder(existing, bs[1..][i].id)
                 && n.relatedId == Some(bs[1..][i].id) && n.receiverId == bs[1..][i].memberId;
        assert bs[1..][i] == bs[i + 1];
      }
    }
  }

  /** Every due booking without a reminder gets one. */
  lemma {:induction false} DueBookingsReminded(bs: seq<Booking>, existing: seq<Notification>, nextId: nat, now: int)
    ensures forall i :: 0 <= i < |bs| && ReminderDue(bs[i], now) && !HasReminder(existing, bs[i].id)
              ==> HasReminder(NewReminders(bs, existing, nextId, now), bs[i].id)
    decreases |bs|
  {
    if bs != [] {
      var due := ReminderDue(bs[0], now) && !HasReminder(existing, bs[0].id);
      var next := if due then nextId + 1 else nextId;
      var rest := NewReminders(bs[1..], existing, next, now);
      var r := NewReminders(bs, existing, nextId, now);
      DueBookingsReminded(bs[1..], existing, next, now);
      forall i | 0 <= i < |bs| && ReminderDue(bs[i], now) && !HasReminder(existing, bs[i].id)
        ensures HasReminder(r, bs[i].id)
      {
        if i == 0 {
          assert r[0] == ReminderFor(bs[0], nextId, now);
        } else {
          assert bs[1..][i - 1] == bs[i];
          var k :| 0 <= k < |rest| && IsReminder(rest[k]) && rest[k].relatedId == Some(bs[i].id);
          if due {
            assert r[k + 1] == rest[k];
          }
        }
      }
    }
  }

  /** With distinct booking ids the step never reminds the same booking
      twice. */
  lemma {:induction false} NewRemindersOnce(bs: seq<Booking>, existing: seq<Notification>, nextId: nat, now: int)
    requires DistinctBookingIds(bs)
    ensures RemindersOnce(NewReminders(bs, existing, nextId, now))
    decreases |bs|
  {
    if bs != [] {
      var due := ReminderDue(bs[0], now) && !HasReminder(existing, bs[0].id);
      var next := if due then nextId + 1 else nextId;
      var rest := NewReminders(bs[1..], existing, next, now);
      var r := NewReminders(bs, existing, nextId, now);
      assert DistinctBookingIds(bs[1..]) by {
        forall i, j | 0 <= i < j < |bs[1..]| ensures bs[1..][i].id != bs[1..][j].id {
          assert bs[1..][i] == bs[i + 1] && bs[1..][j] == bs[j + 1];
        }
      }
      NewRemindersOnce(bs[1..], existing, next, now);
      if due {
        NewRemindersJustified(bs[1..], existing, next, now);
        forall i, j | 0 <= i < j < |r| && IsReminder(r[i]) && IsReminder(r[j]) && r[i].relatedId.Some?
          ensures r[i].relatedId != r[j].relatedId
        {
          assert r[j] == rest[j - 1];
          if i == 0 {
            assert rest[j - 1] in rest;
            var m :| 0 <= m < |bs[1..]| && rest[j - 1].relatedId == Some(bs[1..][m].id);
            assert bs[1..][m] == bs[m + 1];
          } else {
            assert r[i] == rest[i - 1];
          }
        }
      }
    }
  }

  /** A reminder step over bookings that all already have their reminder adds
      nothing. */
  lemma {:induction false} NoRemindersWhenAllSent(bs: seq<Booking>, existing: seq<Notification>, nextId: nat, now: int)
    requires forall i :: 0 <= i < |bs| && ReminderDue(bs[i], now) ==> HasReminder(existing, bs[i].id)
    ensures NewReminders(bs, existing, nextId, now) == []
    decreases |bs|
  {
    if bs != [] {
      assert forall i :: 0 <= i < |bs[1..]| ==> bs[1..][i] == bs[i + 1];
      NoRemindersWhenAllSent(bs[1..], existing, nextId, now);
    }
  }

  /** One iteration of the service at time `now`. */
  function Sweep(s: State, now: int): (r: State)
    // expiry: exactly the expired bookings are cancelled, nothing is created
    ensures |r.bookings| == |s.bookings|
    ensures forall i :: 0 <= i < |s.bookings| ==>
      && r.bookings[i].(status := s.bookings[i].status) == s.bookings[i]
      && (r.bookings[i].status == Cancelled <==> s.bookings[i].status == Cancelled || Expired(s.bookings[i], now))
      && (!Expired(s.bookings[i], now) ==> r.bookings[i] == s.bookings[i])
    // reminders are only appended, as unread Reminders with fresh ids
    ensures |r.notifications| >= |s.notifications|
    ensures r.notifications[..|s.notifications|] == s.notifications
    ensures r.nextNotificationId == s.nextNotificationId + |r.notifications| - |s.notifications|
    ensures forall k :: |s.notifications| <= k < |r.notifications| ==>
      && r.notifications[k].id == s.nextNotificationId + k - |s.notifications|
      && IsReminder(r.notifications[k]) && !r.notifications[k].isRead && r.notifications[k].createdDate == now
    // wallets, the ledger and the tournaments are never touched
    ensures MembersUnchanged(s, r) && LedgerUnchanged(s, r) && TournamentDataUnchanged(s, r)
    ensures r.courts == s.courts && r.nextBookingId == s.nextBookingId
  {
    var added := NewReminders(ExpireUnpaid(s.bookings, now), s.notifications, s.nextNotificationId, now);
    var notes := s.notifications + added;
    assert notes[..|s.notifications|] == s.notifications;
    assert forall k :: |s.notifications| <= k < |notes| ==> notes[k] == added[k - |s.notifications|];
    s.(bookings := ExpireUnpaid(s.bookings, now), notifications := notes,
       nextNotificationId := s.nextNotificationId + |added|)
  }

  /** After a sweep every due booking has a Reminder, and every Reminder the
      sweep added is about a due booking that had none, sent to its owner. */
  lemma SweepRemindsDueBookings(s: State, now: int)
    ensures forall i :: 0 <= i < |s.bookings| && ReminderDue(s.bookings[i], now)
              ==> HasReminder(Sweep(s, now).notifications, s.bookings[i].id)
    ensures forall k :: |s.notifications| <= k < |Sweep(s, now).notifications| ==>
              ReminderJustified(Sweep(s, now).notifications[k], s.bookings, s.notifications, now)
  {
    var bookings := ExpireUnpaid(s.bookings, now);
    assert forall i :: 0 <= i < |bookings| ==> (ReminderDue(bookings[i], now) <==> ReminderDue(s.bookings[i], now));
    var added := NewReminders(bookings, s.notifications, s.nextNotificationId, now);
    var notes := Sweep(s, now).notifications;
    assert notes == s.notifications + added;
    DueBookingsReminded(bookings, s.notifications, s.nextNotificationId, now);
    NewRemindersJustified(bookings, s.notifications, s.nextNotificationId, now);
    forall i | 0 <= i < |s.bookings| && ReminderDue(s.bookings[i], now) ensures HasReminder(notes, s.bookings[i].id) {
      if HasReminder(s.notifications, s.bookings[i].id) {
        var k :| 0 <= k < |s.notifications| && IsReminder(s.notifications[k]) && s.notifications[k].relatedId == Some(s.bookings[i].id);
        assert notes[k] == s.notifications[k];
      } else {
        assert bookings[i].id == s.bookings[i].id;
        var k :| 0 <= k < |added| && IsReminder(added[k]) && added[k].relatedId == Some(s.bookings[i].id);
        assert notes[|s.notifications| + k] == added[k];
      }
    }
    forall k | |s.notifications| <= k < |notes| ensures ReminderJustified(notes[k], s.bookings, s.notifications, now) {
      var n := notes[k];
      assert n == added[k - |s.notifications|];
      assert n in added;
      var i :| 0 <= i < |bookings| && ReminderDue(bookings[i], now) && !HasReminder(s.notifications, bookings[i].id)
               && n.relatedId == Some(bookings[i].id) && n.receiverId == bookings[i].memberId;
      assert bookings[i].id == s.bookings[i].id && bookings[i].memberId == s.bookings[i].memberId;
    }
  }

  /** A second sweep at the same time changes nothing at all. */
  lemma SweepIsIdempotent(s: State, now: int)
    ensures Sweep(Sweep(s, now), now) == Sweep(s, now)
  {
    var s1 := Sweep(s, now);
    assert forall i :: 0 <= i < |s1.bookings| ==> !Expired(s1.bookings[i], now);
    assert ExpireUnpaid(s1.bookings, now) == s1.bookings;
    SweepRemindsDueBookings(s, now);
    assert forall i :: 0 <= i < |s1.bookings| && ReminderDue(s1.bookings[i], now) ==> s1.bookings[i] == s.bookings[i];
    NoRemindersWhenAllSent(s1.bookings, s1.notifications, s1.nextNotificationId, now);
    assert s1.notifications + [] == s1.notifications;
  }

  /** Across sweeps a booking is reminded at most once. */
  lemma SweepKeepsRemindersOnce(s: State, now: int)
    requires DistinctBookingIds(s.bookings)
    requires RemindersOnce(s.notifications)
    ensures RemindersOnce(Sweep(s, now).notifications)
  {
    var bookings := ExpireUnpaid(s.bookings, now);
    assert DistinctBookingIds(bookings);
    var added := NewReminders(bookings, s.notifications, s.nextNotificationId, now);
    NewRemindersOnce(bookings, s.notifications, s.nextNotificationId, now);
    NewRemindersJustified(bookings, s.notifications, s.nextNotificationId, now);
    var notes := s.notifications + added;
    assert Sweep(s, now).notifications == notes;
    var n := |s.notifications|;
    forall i, j | 0 <= i < j < |notes| && IsReminder(notes[i]) && IsReminder(notes[j]) && notes[i].relatedId.Some?
      ensures notes[i].relatedId != notes[j].relatedId
    {
      if j < n {
        assert notes[i] == s.notifications[i] && notes[j] == s.notifications[j];
      } else if i >= n {
        assert notes[i] == added[i - n] && notes[j] == added[j - n];
      } else {
        assert notes[i] == s.notifications[i] && notes[j] == added[j - n];
        assert added[j - n] in added;
        var b :| 0 <= b < |bookings| && !HasReminder(s.notifications, bookings[b].id)
                 && added[j - n].relatedId == Some(bookings[b].id);
      }
    }
  }

  /** A booking left with its constructor defaults (PendingPayment, stamped
      `created`) is cancelled by a sweep exactly when the sweep runs more
      than five minutes later; one exactly five minutes old is kept. */
  lemma DefaultBookingExpiry(s: State, i: nat, id: nat, courtId: nat, memberId: MemberId,
                             start: int, end: int, created: int, now: int)
    requires i < |s.bookings|
    requires s.bookings[i] == NewBooking(id, courtId, memberId, start, end, created)
    ensures Sweep(s, now).bookings[i].status == Cancelled <==> now > created + HoldGraceMinutes
    ensures now == created + HoldGraceMinutes ==> Sweep(s, now).bookings[i] == s.bookings[i]
  {
  }
}
