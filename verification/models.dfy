/** The persistent records of the booking and wallet-ledger engine and the one
    immutable `State` that holds them all. Money is an `int` (the C# `decimal`
    amounts are whole currency units), and every `DateTime` is an `int` count of
    minutes. A `RelatedId` string always holds an integer id written out with
    `ToString()`, which is injective, so it is kept here as that integer. */
module Models {
  import opened Enums

  type MemberId = string

  const MinutesPerHour: int := 60
  const MinutesPerDay: int := 24 * 60

  datatype Option<T> = None | Some(value: T)

  /** Why an action was turned down. A rejected action changes nothing. */
  datatype Error =
    | Unauthorized          // the authenticated id has no member record
    | NotFound              // missing court, booking, entry, tournament or winner
    | Forbidden             // not the owner and not an administrator
    | SlotTaken             // the requested interval collides with a booking
    | InsufficientFunds     // wallet balance below the amount to debit
    | AlreadyCancelled
    | RegistrationClosed    // tournament neither Open nor Registering
    | AlreadyJoined
    | ScheduleExists        // the tournament already has matches
    | TooFewParticipants
    | AlreadyFinished
    | NotPending            // ledger entry is not awaiting approval
    | InvalidAmount         // deposit amount outside the accepted range
    | ComingSoon            // the recurring-booking endpoint
    | InternalFailure       // an exception inside the DB transaction, rolled back

  datatype Result<T> = Ok(value: T) | Err(error: Error)

  /** A club member: the wallet, tier and spend fields of the identity user. */
  datatype Member = Member(
    id: MemberId,
    fullName: string,
    isActive: bool,
    walletBalance: int,
    tier: MemberTier,
    totalSpent: int)

  /** A member as the constructor leaves it: active, empty wallet, nothing
      spent, tier Standard. */
  function NewMember(id: MemberId, fullName: string): Member {
    Member(id, fullName, true, 0, Standard, 0)
  }

  datatype Court = Court(id: nat, name: string, isActive: bool, pricePerHour: int)

  /** A court reservation over the half-open interval `[startTime, endTime)`. */
  datatype Booking = Booking(
    id: nat,
    courtId: nat,
    memberId: MemberId,
    startTime: int,
    endTime: int,
    totalPrice: int,
    transactionId: Option<nat>,
    isRecurring: bool,
    recurrenceRule: Option<string>,
    parentBookingId: Option<nat>,
    status: BookingStatus,
    createdDate: int)

  /** A booking as its property initialisers leave it when constructed at
      `now`: status PendingPayment, stamped with `now`, no ledger link, not
      recurring, no parent, no price yet. */
  function NewBooking(id: nat, courtId: nat, memberId: MemberId, startTime: int, endTime: int, now: int): Booking {
    Booking(id, courtId, memberId, startTime, endTime, 0, None, false, None, None, PendingPayment, now)
  }

  /** One ledger entry; a negative amount leaves the wallet, a positive one
      enters it. */
  datatype WalletTransaction = WalletTransaction(
    id: nat,
    memberId: MemberId,
    amount: int,
    txType: WalletTransactionType,
    status: TransactionStatus,
    relatedId: Option<nat>,
    createdDate: int)

  datatype Tournament = Tournament(
    id: nat,
    name: string,
    startDate: int,
    endDate: int,
    format: TournamentFormat,
    entryFee: int,
    prizePool: int,
    status: TournamentStatus)

  datatype Participant = Participant(
    id: nat,
    tournamentId: nat,
    memberId: MemberId,
    teamName: string,
    isPaid: bool)

  /** A match; generated matches are singles, so only the first player slot of
      each team is filled. */
  datatype Match = Match(
    id: nat,
    tournamentId: Option<nat>,
    roundName: string,
    date: Option<int>,
    team1Player1: Option<MemberId>,
    team1Player2: Option<MemberId>,
    team2Player1: Option<MemberId>,
    team2Player2: Option<MemberId>,
    score1: int,
    score2: int,
    winner: Option<WinningSide>,
    status: MatchStatus)

  datatype Notification = Notification(
    id: nat,
    receiverId: MemberId,
    notificationType: string,
    relatedId: Option<nat>,
    isRead: bool,
    createdDate: int)

  /** Everything the engine reads and writes. The `next...Id` counters stand
      for the database's identity columns. */
  datatype State = State(
    members: map<MemberId, Member>,
    courts: map<nat, Court>,
    bookings: seq<Booking>,
    ledger: seq<WalletTransaction>,
    tournaments: map<nat, Tournament>,
    participants: seq<Participant>,
    matches: seq<Match>,
    notifications: seq<Notification>,
    nextBookingId: nat,
    nextTransactionId: nat,
    nextParticipantId: nat,
    nextMatchId: nat,
    nextNotificationId: nat)

  /** Frame conditions: which parts of the state an action leaves alone. */
  ghost predicate MembersUnchanged(s: State, s': State) {
    s'.members == s.members
  }

  /** Members other than `m` keep their records, and no member comes or goes. */
  ghost predicate OtherMembersUnchanged(s: State, s': State, m: MemberId) {
    && s'.members.Keys == s.members.Keys
    && forall x :: x in s.members && x != m ==> s'.members[x] == s.members[x]
  }

  ghost predicate BookingsUnchanged(s: State, s': State) {
    s'.courts == s.courts && s'.bookings == s.bookings && s'.nextBookingId == s.nextBookingId
  }

  ghost predicate LedgerUnchanged(s: State, s': State) {
    s'.ledger == s.ledger && s'.nextTransactionId == s.nextTransactionId
  }

  ghost predicate TournamentDataUnchanged(s: State, s': State) {
    && s'.tournaments == s.tournaments
    && s'.participants == s.participants && s'.nextParticipantId == s.nextParticipantId
    && s'.matches == s.matches && s'.nextMatchId == s.nextMatchId
  }

  ghost predicate NotificationsUnchanged(s: State, s': State) {
    s'.notifications == s.notifications && s'.nextNotificationId == s.nextNotificationId
  }

  /** Index of the first element whose key is `id` (`FirstOrDefaultAsync`
      on a primary key), or None when no element has it. */
  function FindFirst<T>(xs: seq<T>, key: T -> nat, id: nat): (r: Option<nat>)
    ensures r.Some? ==> r.value < |xs| && key(xs[r.value]) == id
    ensures r.Some? ==> forall k :: 0 <= k < r.value ==> key(xs[k]) != id
    ensures r.None? ==> forall k :: 0 <= k < |xs| ==> key(xs[k]) != id
    decreases |xs|
  {
    if xs == [] then None
    else if key(xs[0]) == id then Some(0)
    else match FindFirst(xs[1..], key, id)
      case None => None
      case Some(k) => Some(k + 1)
  }

  function BookingId(b: Booking): nat { b.id }

  function TransactionId(e: WalletTransaction): nat { e.id }

  /** Index of the first booking with the given id. */
  function FindBooking(bs: seq<Booking>, id: nat): Option<nat> {
    FindFirst(bs, BookingId, id)
  }

  /** Index of the first ledger entry with the given id. */
  function FindTransaction(ledger: seq<WalletTransaction>, id: nat): Option<nat> {
    FindFirst(ledger, TransactionId, id)
  }
}
