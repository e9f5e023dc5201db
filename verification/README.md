# Club booking and wallet-ledger engine, modelled in Dafny

This project models the core of a badminton club's backend: members with a
prepaid wallet and a membership tier, courts booked by the hour and paid from
the wallet, a wallet ledger, tournaments with an entry fee and a prize pool,
and a background service that expires unpaid bookings and reminds members of
the next day's games.

The whole store is one immutable `State` (module `Models`). Each controller
action is a pure function from a `State` to a `Result<State>`: an `Err` means
the request was turned down and nothing changed, and an `Ok` holds the new
store. This matches the code's all-or-nothing database transactions. Money is
an `int`. Every timestamp is an `int` count of minutes. A `RelatedId` string
always holds an integer id written with `ToString()`, which is injective, so
the model keeps that integer.

Modules, in dependency order:

- `Enums`: the enumerations and the declaration order of tiers and tournament statuses.
- `Models`: the records, their constructor defaults, the `State`, the error codes and the frame predicates.
- `Ledger`: the sum of a member's Completed entries, the balance-to-sum distance ("drift"), and the count of Refund or Reward entries per related id.
- `Tiers`: the spend thresholds and the upgrade cascade.
- `Slots`: the court-collision test and the no-overlap invariant.
- `Bookings`: create, cancel, and the recurring-booking stub.
- `Wallet`: deposit request, approval, and the two ledger listings.
- `Tournaments`: join, knockout and round-robin schedule generation, and finish.
- `Cleanup`: one iteration of the cleanup service.
- `Invariants`: the whole-state invariant `Valid` and the member-wise conservation relation `Conserves`, with one preservation lemma per action, `Step`, and `RunKeepsValid` over any sequence of actions.

`RunKeepsValid` proves the following for any run of actions that starts from a valid store. Schedule generation in these runs is the corrected one described under "## Findings"; the action as written lets a prize be paid twice. Every tournament in a valid store has a non-negative prize pool, because tournaments are created outside the model:

- Non-cancelled bookings on the same court never overlap.
- No wallet is ever negative.
- Each member's balance stays the same distance from the sum of their Completed ledger entries.
- No tier drops.
- A booking is refunded at most once, and only once it is Cancelled.
- A tournament prize is paid at most once, and only once the tournament is Finished.
- No booking is reminded twice.

Where one might expect otherwise, the model follows the code:

- Booking does not check `Court.IsActive`.
- The cleanup service expires only `PendingPayment` bookings, never `Holding` ones. No code path creates `Holding` bookings.
- Expiry uses a strict `CreatedDate < now − 5 min`, so a booking exactly five minutes old is kept.
- Joining a tournament counts the fee as spend but does not re-evaluate the tier.
- The winner paid by `FinishTournament` need not be a participant.
- Every non-Knockout format, Hybrid included, is scheduled as an all-pairs round robin.
- Approval credits any Pending entry, but only when the entry's member record exists.
- A deposit request does not check that the caller has a member record; the ledger's foreign key to the members table (backend/Migrations/20260127081452_InitialCreate.cs:195-200) makes the save fail instead, so nothing is stored.

## Model

| member | source | states |
|---|---|---|
| Enums.MaxTier | backend/Models/Enums.cs:3-9 | the higher of two tiers in declaration order Standard < Silver < Gold < Diamond; the result is one of the two and below neither |
| Enums.TierOrderIsTotal | backend/Models/Enums.cs:3-9 | the `<` on tiers is irreflexive, transitive and total, as the tier comparisons in the booking action rely on |
| Models.FindFirst | backend/Controllers/BookingsController.cs:132 | the index of the first element with the key, or none exactly when no element has it; it serves both the booking lookup here and the ledger lookup at backend/Controllers/WalletController.cs:111 |
| Ledger.CompletedSumAppend | backend/Controllers/BookingsController.cs:82-91 | appending an entry, as the booking's Completed Payment is appended with the debit, changes a member's Completed sum by exactly that entry's contribution |
| Ledger.CompletedSumUpdate | backend/Controllers/WalletController.cs:117-122 | replacing one entry, as approval does, swaps its contribution for the new entry's and leaves the rest of the sum alone |
| Ledger.NewMemberIsBalanced | backend/Models/Member.cs:11-19 | a newly created member with no ledger entries of their own has drift 0 (balance equal to the Completed sum), and starts active, at tier Standard, with nothing spent |
| Ledger.EntryCountAppend | backend/Controllers/BookingsController.cs:155-165 | appending an entry raises the Refund or Reward count of its related id by one and changes no other count |
| Ledger.EntryCountStatusChange | backend/Controllers/WalletController.cs:117 | changing an entry's status changes no Refund or Reward count |
| Tiers.UpgradeTier | backend/Controllers/BookingsController.cs:77-79 | the first-match cascade over 50,000,000 / 20,000,000 / 5,000,000 equals the higher of the current tier and the tier the spend earns; it is never below the current tier, and below 5,000,000 it keeps the current tier |
| Tiers.TierForMonotone | backend/Controllers/BookingsController.cs:77-79 | spending more never earns a lower tier |
| Slots.SlotBusy | backend/Controllers/BookingsController.cs:54-59 | for non-empty intervals, the three-clause busy test holds exactly when a non-cancelled booking on the same court overlaps the half-open request interval |
| Slots.CollidesIsOverlap | backend/Controllers/BookingsController.cs:54-59 | for one booking and non-empty intervals, the three-clause test is the half-open overlap test |
| Slots.NeverCollides | backend/Controllers/BookingsController.cs:55-59 | a Cancelled booking, a booking on another court, or a back-to-back slot never makes a request busy |
| Slots.NoOverlapAppend | backend/Controllers/BookingsController.cs:54-61 | adding a non-empty booking that the busy test accepted keeps non-cancelled bookings on each court pairwise disjoint |
| Slots.NoOverlapCancelling | backend/Controllers/BookingsController.cs:147 | cancelling bookings keeps non-cancelled bookings pairwise disjoint |
| Bookings.CreateBooking | backend/Controllers/BookingsController.cs:41-118 | accepts exactly when the caller is a member, the court exists, the slot is free and the wallet covers the price; otherwise rejects an unknown caller, an unknown court, a busy slot and a short wallet, in that order. On success: the balance drops by exactly price = hourly price × hours and stays ≥ 0, spend rises by price, and the tier becomes the higher of the old tier and the earned tier. Exactly one Completed Payment entry of −price and one Confirmed, non-recurring booking with no recurrence rule over [midnight + start hour, + duration) are added, linked both ways. Nothing else changes |
| Bookings.CancelBooking | backend/Controllers/BookingsController.cs:128-179 | accepts exactly when the booking exists, the caller is its owner or an admin, it is not cancelled, and any refund owed has a member to go to; otherwise rejects a missing booking, a caller who is neither owner nor admin, and a cancelled booking. On success the booking, and only it, becomes Cancelled. When the start is at least 24 h away and the price positive, the owner gets the full price back, spend drops by it, the tier stays, and one Completed Refund entry for the booking is appended. Otherwise the wallets and the ledger are untouched. A refund owed to an owner with no member record fails |
| Bookings.SecondCancelIsRejected | backend/Controllers/BookingsController.cs:134-136 | cancelling a booking that was just cancelled is always rejected, whoever asks and whenever |
| Bookings.CreateRecurringBooking | backend/Controllers/BookingsController.cs:182-193 | the recurring endpoint always refuses: coming soon for VIP or admin callers, forbidden otherwise |
| Wallet.RequestDeposit | backend/Controllers/WalletController.cs:90-102 | an amount outside 10,000..100,000,000 is refused, and a caller without a member record fails the save. Otherwise exactly one Pending Deposit entry with that amount is appended, and no wallet changes |
| Wallet.ApproveTransaction | backend/Controllers/WalletController.cs:109-133 | accepts exactly when the entry exists and is Pending; otherwise rejects a missing entry and an entry that is not Pending. On success that entry, and only it, becomes Completed, the owner's balance rises by exactly its amount with spend and tier unchanged, and nothing else changes |
| Wallet.SecondApprovalIsRejected | backend/Controllers/WalletController.cs:114-115 | approving an entry that was just approved is rejected, so an entry credits once |
| Wallet.SortNewestFirst | backend/Controllers/WalletController.cs:37 | the result is a permutation of the input ordered by creation time, newest first |
| Wallet.MyTransactions | backend/Controllers/WalletController.cs:35-47 | exactly the caller's entries, each with its multiplicity, newest first |
| Wallet.PendingDeposits | backend/Controllers/WalletController.cs:56-68 | exactly the Pending Deposit entries, each with its multiplicity, newest first |
| Tournaments.ParticipantsOfDistinct | backend/Controllers/TournamentsController.cs:154 | with one registration per tournament and member, a tournament's participants have distinct member ids |
| Tournaments.JoinTournament | backend/Controllers/TournamentsController.cs:142-198 | accepts exactly when the caller is a member, the tournament exists and is Open or Registering, the caller has not joined, and the wallet covers the fee; otherwise rejects an unknown caller, a missing tournament, a status other than Open or Registering, a repeat registration and a short wallet, in that order. On success the fee is debited (balance stays ≥ 0), spend rises by it, and the tier stays. One Completed Payment entry of −fee for the tournament and one paid participant under the given team name or the member's full name are appended |
| Tournaments.KnockoutPairs | backend/Controllers/TournamentsController.cs:221-233 | ⌊n/2⌋ pairs (2k, 2k+1); no position is in two pairs, and the only unpaired position is the last one when n is odd |
| Tournaments.TriangleClosedForm | backend/Controllers/TournamentsController.cs:238-241 | the row-by-row pair count 0 + 1 + … + (n−1) is n(n−1)/2 |
| Tournaments.PairsFromCoverAll | backend/Controllers/TournamentsController.cs:238-241 | the nested loops list every pair i < j |
| Tournaments.PairsFromOrdered | backend/Controllers/TournamentsController.cs:238-241 | the nested loops list the pairs in strictly increasing lexicographic order, so none twice |
| Tournaments.RoundRobinPairs | backend/Controllers/TournamentsController.cs:236-253 | n(n−1)/2 pairs i < j < n, every such pair present, no pair twice |
| Tournaments.PairMatches | backend/Controllers/TournamentsController.cs:224-250 | one match per pair, with consecutive ids: Scheduled, in the tournament, singles (no second players), score 0–0 and no winner, the pair's first player in team 1 and second in team 2; "Round 1" at the start date for Knockout, "Group Stage" dated i hours after the start otherwise, i being the pair's first position |
| Tournaments.ShuffledIsPermutation | backend/Controllers/TournamentsController.cs:216 | the shuffled players are the tournament's registrations' member ids, each exactly as often as registered |
| Tournaments.ShuffledDistinct | backend/Controllers/TournamentsController.cs:212-216 | shuffling the unique registrations of a tournament yields distinct players |
| Tournaments.PairMatchesFair | backend/Controllers/TournamentsController.cs:218-253 | over distinct players no match pits a member against themself, every match is a Scheduled match of the tournament, and position-disjoint pairs put no member in two matches |
| Tournaments.ScheduleFairness | backend/Controllers/TournamentsController.cs:218-253 | generated matches never pit a member against themself, are all Scheduled for the tournament, and in a knockout round no member plays twice |
| Tournaments.GenerateScheduleAsWritten | backend/Controllers/TournamentsController.cs:203-259 | accepts exactly when the tournament exists, has no matches and has at least 2 participants; otherwise rejects a missing tournament, one that already has matches and one with fewer than 2 participants. On acceptance it appends the knockout (⌊n/2⌋) or round-robin (n(n−1)/2) matches over the shuffled participants and sets the status to Ongoing, whatever it was. Wallets, ledger, participants and bookings are untouched |
| Tournaments.GenerateSchedule | backend/Controllers/TournamentsController.cs:203-259 | the corrected action: a Finished tournament is refused, every other request behaves as written, and the tournament status never moves backwards |
| Tournaments.FinishTournament | backend/Controllers/TournamentsController.cs:262-303 | accepts exactly when the tournament exists and is not Finished and the winner is a member; otherwise rejects a missing tournament, a Finished one and an unknown winner. On success the winner's balance, and nothing else about any member, rises by the prize pool. One Completed Reward entry for the tournament is appended, and the status becomes Finished |
| Tournaments.SecondFinishIsRejected | backend/Controllers/TournamentsController.cs:267-268 | finishing a tournament that was just finished is rejected |
| Tournaments.AsWrittenPaysPrizeTwice | backend/Controllers/TournamentsController.cs:209-255 | as written, a Finished tournament with one prize paid, no matches and two participants is put back to Ongoing, and finishing it again pays a second prize |
| Cleanup.ExpireUnpaid | backend/Services/BookingCleanupService.cs:29-42 | exactly the PendingPayment bookings created more than five minutes before now become Cancelled; every other booking, and every other field, is unchanged |
| Cleanup.NewReminders | backend/Services/BookingCleanupService.cs:58-73 | the new notifications are unread Reminders stamped now, with consecutive fresh ids, one per reminded booking |
| Cleanup.NewRemindersJustified | backend/Services/BookingCleanupService.cs:53-71 | each new reminder is about a Confirmed booking starting 23 to 24 hours ahead that had no reminder, and goes to its owner |
| Cleanup.DueBookingsReminded | backend/Services/BookingCleanupService.cs:53-72 | each Confirmed booking starting 23 to 24 hours ahead that had no reminder gets one |
| Cleanup.NewRemindersOnce | backend/Services/BookingCleanupService.cs:58-72 | with distinct booking ids one pass never reminds a booking twice |
| Cleanup.NoRemindersWhenAllSent | backend/Services/BookingCleanupService.cs:61-62 | when every due booking already has a reminder, the pass adds nothing |
| Cleanup.Sweep | backend/Services/BookingCleanupService.cs:24-74 | a sweep cancels exactly the expired bookings, only appends unread Reminders with fresh ids, and never touches wallets, the ledger, courts or tournaments |
| Cleanup.SweepRemindsDueBookings | backend/Services/BookingCleanupService.cs:50-72 | after a sweep every due booking has a reminder, and every reminder the sweep added is about a due booking that had none, sent to its owner |
| Cleanup.SweepIsIdempotent | backend/Services/BookingCleanupService.cs:29-72 | a second sweep at the same time changes nothing |
| Cleanup.SweepKeepsRemindersOnce | backend/Services/BookingCleanupService.cs:61-72 | across sweeps no booking has two reminders |
| Cleanup.DefaultBookingExpiry | backend/Models/Booking.cs:28-29 | a booking left with its defaults (PendingPayment, stamped at creation) is cancelled exactly when the sweep runs more than five minutes later; one exactly five minutes old is untouched |
| Invariants.EmptyStoreIsValid | backend/Data/DbSeeder.cs:30-115 | a freshly seeded store, with members of non-negative balance, courts, and tournaments with non-negative prize pools, but no bookings, ledger entries, registrations or notifications, satisfies every invariant |
| Invariants.CreateBookingKeepsValid | backend/Controllers/BookingsController.cs:54-111 | a booking keeps courts free of overlaps, refunds and prizes once-only, wallets non-negative, and every member's drift, and raises tiers only |
| Invariants.CancelBookingKeepsValid | backend/Controllers/BookingsController.cs:134-166 | a cancellation keeps every invariant and every member's drift; the refund is the first and only one for that booking |
| Invariants.RequestDepositKeepsValid | backend/Controllers/WalletController.cs:90-102 | a deposit request keeps every invariant and changes no drift |
| Invariants.ApproveTransactionKeepsValid | backend/Controllers/WalletController.cs:114-131 | an approval keeps every invariant; the credit equals the entry's new Completed contribution, so no drift changes |
| Invariants.JoinTournamentKeepsValid | backend/Controllers/TournamentsController.cs:154-187 | a registration keeps one registration per tournament and member, every other invariant, and every member's drift |
| Invariants.GenerateScheduleKeepsValid | backend/Controllers/TournamentsController.cs:209-255 | the corrected schedule generation keeps every invariant, including one prize per Finished tournament |
| Invariants.FinishTournamentKeepsValid | backend/Controllers/TournamentsController.cs:267-292 | finishing pays the first and only prize of the tournament and keeps every member's drift |
| Invariants.SweepKeepsValid | backend/Services/BookingCleanupService.cs:29-74 | a sweep keeps every invariant, including one reminder per booking, and changes no member |
| Invariants.StepKeepsValid | backend/Controllers/BookingsController.cs:41-179 | any single action, accepted or rejected, with schedule generation corrected as under "## Findings", keeps every invariant, every member's drift, and raises tiers only |
| Invariants.RunKeepsValid | backend/Controllers/TournamentsController.cs:140-303 | any sequence of actions from a valid store, with schedule generation corrected as under "## Findings", ends in a valid store with each member's drift unchanged and no tier lower |

## Left out

- Concurrency and the database transaction machinery: each action is one atomic transition, so the race between the busy check and the insert, and the service's one-minute delay loop, are not modelled.
- Clock and identity are inputs: `now` and the caller id are parameters. The wallet endpoints' "no user id" rejection is not modelled, because the caller always has an id. The cleanup service reads the clock for the expiry cut-off, for each end of the reminder window, and again for each reminder's timestamp; the model uses one `now` for all of them.
- Roles: the admin role is an input of the cancellation and the admin-or-VIP role an input of the recurring stub. The administrator-only endpoints take no role input, because the framework's authorization attribute turns other callers away before the action runs; they are modelled as called by an administrator. The four lines below record this.
- Wallet.ApproveTransaction: modelled as called by an administrator (backend/Controllers/WalletController.cs:108); a non-administrator's call is not modelled.
- Wallet.PendingDeposits: modelled as called by an administrator (backend/Controllers/WalletController.cs:53).
- Tournaments.GenerateSchedule: modelled as called by an administrator (backend/Controllers/TournamentsController.cs:202), as is Tournaments.GenerateScheduleAsWritten.
- Tournaments.FinishTournament: modelled as called by an administrator (backend/Controllers/TournamentsController.cs:261).
- Foreign keys: of the database's constraints only the ledger's member key is modelled, in Wallet.RequestDeposit; every other action either looks the member up itself before saving or writes rows only for members that stored rows already reference.
- Randomness: the shuffle before pairing is an input permutation `perm`.
- Floating point: `TotalHours >= 24` is compared exactly on whole minutes. Amounts with fractional currency units are not modelled, and the match-result DUPR rating update is left out.
- Text and transport: descriptions, messages, proof-image URLs, court names, listing DTO projections, and the real-time calendar and notification broadcasts.
- Plain CRUD, seeding and the schema: courts, members, news and tournaments are created outside the model.
- Bookings.CreateBooking: requires `durationHours >= 1`. The request DTO defaults to 1 but does not validate it; a zero or negative duration, which would produce an empty or inverted interval, is outside the model.
- Invariants.StepKeepsValid: a booking action with `durationHours < 1`, or a schedule action whose `perm` is not a permutation, leaves the store unchanged in `Step`, since neither input is modelled.
- Invariants.RunKeepsValid: the balance-to-ledger relation is stated as preserved, not as equality from the start, because seeding sets balances without ledger entries.
- Invariants.RunKeepsValid: tournaments are assumed to have non-negative prize pools, because creating them is outside the model. Tournament creation does not validate the prize pool (backend/Models/DTOs/TournamentDTOs.cs:13), and finishing credits it unchecked, so a negative pool would take the winner's wallet below zero.
- Bookings.CreateRecurringBooking: the endpoint is a stub that always refuses, so the recurrence fields are never set by any action.
- Match records omit `StartTime`, `Details` and `IsRanked` (backend/Models/Match.cs:14, :30, :33): schedule generation leaves them null or false and nothing in the model reads them.
- Knockout byes: with an odd number of participants the last one gets no match, as in the code; no later round is generated.

## Findings

| source | as written | input that shows it | evidently intended | confidence | as-written member | corrected member |
|---|---|---|---|---|---|---|
| backend/Controllers/TournamentsController.cs:203-255 | schedule generation checks only for a missing tournament, existing matches and fewer than two participants, then sets the status to Ongoing whatever it was | a Finished tournament whose prize was paid, with no matches and two participants: generating the schedule makes it Ongoing, and finishing it again appends a second Reward and credits the prize twice | a Finished tournament is refused, so the lifecycle only moves forward and the prize is paid once | medium; not executed | Tournaments.AsWrittenPaysPrizeTwice | Tournaments.GenerateSchedule |
