/** The tournament actions: join (paying the entry fee), generate the
    schedule (knockout round 1 or all-pairs round robin), and finish (paying
    the prize pool to the winner). */
module Tournaments {
  import opened Enums
  import opened Models
  import opened Ledger

  /** The participants registered for tournament `tid`, in store order. */
  function ParticipantsOf(ps: seq<Participant>, tid: nat): (r: seq<Participant>)
    ensures forall k :: 0 <= k < |r| ==> r[k].tournamentId == tid && r[k] in ps
    ensures forall k :: 0 <= k < |ps| && ps[k].tournamentId == tid ==> ps[k] in r
    ensures |r| <= |ps|
    decreases |ps|
  {
    if ps == [] then []
    else
      var rest := ParticipantsOf(ps[1..], tid);
      if ps[0].tournamentId == tid then [ps[0]] + rest else rest
  }

  /** Has `m` already joined tournament `tid`? */
  predicate HasJoined(ps: seq<Participant>, tid: nat, m: MemberId) {
    exists k :: 0 <= k < |ps| && ps[k].tournamentId == tid && ps[k].memberId == m
  }

  /** At most one participant per (tournament, member). */
  ghost predicate ParticipantsUnique(ps: seq<Participant>) {
    forall i, j :: 0 <= i < j < |ps| ==>
      ps[i].tournamentId != ps[j].tournamentId || ps[i].memberId != ps[j].memberId
  }

  /** No member id occurs twice. */
  ghost predicate DistinctMembers(ps: seq<Participant>) {
    forall k, l :: 0 <= k < l < |ps| ==> ps[k].memberId != ps[l].memberId
  }

  /** Within one tournament, unique participants have distinct member ids. */
  lemma {:induction false} ParticipantsOfDistinct(ps: seq<Participant>, tid: nat)
    requires ParticipantsUnique(ps)
    ensures DistinctMembers(ParticipantsOf(ps, tid))
    decreases |ps|
  {
    if ps != [] {
      var rest := ParticipantsOf(ps[1..], tid);
      assert ParticipantsUnique(ps[1..]) by {
        forall i, j | 0 <= i < j < |ps[1..]|
          ensures ps[1..][i].tournamentId != ps[1..][j].tournamentId || ps[1..][i].memberId != ps[1..][j].memberId
        {
          assert ps[1..][i] == ps[i + 1] && ps[1..][j] == ps[j + 1];
        }
      }
      ParticipantsOfDistinct(ps[1..], tid);
      if ps[0].tournamentId == tid {
        forall l | 0 <= l < |rest| ensures rest[l].memberId != ps[0].memberId {
          var j :| 0 <= j < |ps[1..]| && ps[1..][j] == rest[l];
          assert ps[j + 1] == rest[l];
        }
        var r := [ps[0]] + rest;
        forall k, l | 0 <= k < l < |r| ensures r[k].memberId != r[l].memberId {
          assert r[l] == rest[l - 1];
          if k > 0 {
            assert r[k] == rest[k - 1];
            assert 0 <= k - 1 < l - 1 < |rest|;
            assert rest[k - 1].memberId != rest[l - 1].memberId;
          }
        }
      }
    }
  }

  /** Register the caller for a tournament and charge the entry fee. */
  function JoinTournament(s: State, caller: MemberId, tid: nat, teamName: Option<string>, now: int): (r: Result<State>)
    // accepted exactly when every guard passes
    ensures r.Ok? <==>
      && caller in s.members && tid in s.tournaments
      && s.tournaments[tid].status.AcceptsRegistration()
      && !HasJoined(s.participants, tid, caller)
      && s.members[caller].walletBalance >= s.tournaments[tid].entryFee
    ensures caller !in s.members ==> r == Err(Unauthorized)
    ensures caller in s.members && tid !in s.tournaments ==> r == Err(NotFound)
    ensures (caller in s.members && tid in s.tournaments
             && !s.tournaments[tid].status.AcceptsRegistration()) ==> r == Err(RegistrationClosed)
    ensures (caller in s.members && tid in s.tournaments && s.tournaments[tid].status.AcceptsRegistration()
             && HasJoined(s.participants, tid, caller)) ==> r == Err(AlreadyJoined)
    ensures (caller in s.members && tid in s.tournaments && s.tournaments[tid].status.AcceptsRegistration()
             && !HasJoined(s.participants, tid, caller)
             && s.members[caller].walletBalance < s.tournaments[tid].entryFee) ==> r == Err(InsufficientFunds)
    ensures r.Ok? ==>
      && caller in s.members && tid in s.tournaments
      && s.tournaments[tid].status.AcceptsRegistration()
      && !HasJoined(s.participants, tid, caller)
      && s.members[caller].walletBalance >= s.tournaments[tid].entryFee
      && OtherMembersUnchanged(s, r.value, caller)
    // the fee is debited and counted as spend; the tier is left alone
    ensures r.Ok? ==>
      var fee := s.tournaments[tid].entryFee;
      var before := s.members[caller];
      var after := r.value.members[caller];
      && after == before.(walletBalance := before.walletBalance - fee, totalSpent := before.totalSpent + fee)
      && after.walletBalance >= 0
      && r.value.ledger == s.ledger + [WalletTransaction(s.nextTransactionId, caller, -fee, Payment,
                                                        TransactionStatus.Completed, Some(tid), now)]
      && r.value.nextTransactionId == s.nextTransactionId + 1
      && r.value.participants == s.participants
           + [Participant(s.nextParticipantId, tid, caller,
                          if teamName.Some? then teamName.value else before.fullName, true)]
      && r.value.nextParticipantId == s.nextParticipantId + 1
      && HasJoined(r.value.participants, tid, caller)
    ensures r.Ok? ==>
      && r.value.tournaments == s.tournaments
      && r.value.matches == s.matches && r.value.nextMatchId == s.nextMatchId
      && BookingsUnchanged(s, r.value) && NotificationsUnchanged(s, r.value)
  {
    if caller !in s.members then Err(Unauthorized)
    else if tid !in s.tournaments then Err(NotFound)
    else
      var t := s.tournaments[tid];
      if !t.status.AcceptsRegistration() then Err(RegistrationClosed)
      else if HasJoined(s.participants, tid, caller) then Err(AlreadyJoined)
      else
        var user := s.members[caller];
        if user.walletBalance < t.entryFee then Err(InsufficientFunds)
        else
          var user' := user.(walletBalance := user.walletBalance - t.entryFee,
                             totalSpent := user.totalSpent + t.entryFee);
          var payment := WalletTransaction(s.nextTransactionId, caller, -t.entryFee, Payment,
                                           TransactionStatus.Completed, Some(tid), now);
          var team := if teamName.Some? then teamName.value else user.fullName;
          var participant := Participant(s.nextParticipantId, tid, caller, team, true);
          assert (s.participants + [participant])[|s.participants|] == participant;
          Ok(s.(members := s.members[caller := user'],
                ledger := s.ledger + [payment],
                nextTransactionId := s.nextTransactionId + 1,
                participants := s.participants + [participant],
                nextParticipantId := s.nextParticipantId + 1))
  }

  /** Is `perm` a permutation of the positions `0 .. n-1`? It stands for the
      random shuffle applied before pairing. */
  predicate IsPermutation(perm: seq<nat>, n: nat) {
    && |perm| == n
    && (forall k :: 0 <= k < n ==> perm[k] < n)
    && (forall k, l :: 0 <= k < l < n ==> perm[k] != perm[l])
  }

  /** Removing position `p` from `a` takes exactly one `a[p]` out of its
      multiset. */
  lemma RemovePosition<T>(a: seq<T>, p: nat)
    requires p < |a|
    ensures multiset(a) == multiset(a[..p] + a[p + 1..]) + multiset{a[p]}
  {
    assert a == a[..p] + [a[p]] + a[p + 1..];
    assert multiset(a) == multiset(a[..p]) + multiset{a[p]} + multiset(a[p + 1..]);
  }

  /** The positions of `perm`'s first `m` entries once position `p`, which
      none of them names, has been taken out. */
  function Renumber(perm: seq<nat>, p: nat, m: nat): (r: seq<nat>)
    requires m <= |perm| && forall k :: 0 <= k < m ==> perm[k] != p
    ensures |r| == m
    ensures forall k :: 0 <= k < m ==> r[k] == if perm[k] < p then perm[k] else perm[k] - 1
  {
    seq(m, k requires 0 <= k < m => if perm[k] < p then perm[k] else perm[k] - 1)
  }

  /** Dropping the last entry `p` of a permutation of `0 .. n-1` and
      renumbering leaves a permutation of `0 .. n-2`. */
  lemma RenumberIsPermutation(perm: seq<nat>, n: nat)
    requires n > 0 && IsPermutation(perm, n)
    ensures forall k :: 0 <= k < n - 1 ==> perm[k] != perm[n - 1]
    ensures IsPermutation(Renumber(perm, perm[n - 1], n - 1), n - 1)
  {
    var p := perm[n - 1];
    forall k | 0 <= k < n - 1 ensures perm[k] != p {
      assert perm[k] != perm[n - 1];
    }
    var perm' := Renumber(perm, p, n - 1);
    forall k, l | 0 <= k < l < n - 1 ensures perm'[k] != perm'[l] {
      assert perm[k] != perm[l];
    }
  }

  /** Reading `a` through a permutation of its positions keeps every element
      with its multiplicity. */
  lemma {:induction false} PermutationKeepsMultiset<T>(a: seq<T>, perm: seq<nat>, r: seq<T>)
    requires IsPermutation(perm, |a|)
    requires |r| == |a| && forall k :: 0 <= k < |r| ==> r[k] == a[perm[k]]
    ensures multiset(r) == multiset(a)
    decreases |a|
  {
    if |a| == 0 {
      assert r == [];
      return;
    }
    var n := |a|;
    var p := perm[n - 1];
    var a' := a[..p] + a[p + 1..];
    RenumberIsPermutation(perm, n);
    var perm' := Renumber(perm, p, n - 1);
    var r' := r[..n - 1];
    forall k | 0 <= k < n - 1 ensures r'[k] == a'[perm'[k]] {
      if perm[k] < p {
        assert a'[perm[k]] == a[perm[k]];
      } else {
        assert a'[perm[k] - 1] == a[perm[k]];
      }
    }
    PermutationKeepsMultiset(a', perm', r');
    assert r == r' + [a[p]];
    RemovePosition(a, p);
  }

  /** The member ids of registrations, in registration order. */
  function MemberIds(ps: seq<Participant>): (r: seq<MemberId>)
    ensures |r| == |ps| && forall k :: 0 <= k < |r| ==> r[k] == ps[k].memberId
  {
    seq(|ps|, k requires 0 <= k < |ps| => ps[k].memberId)
  }

  /** Member ids in the order `perm` picks. */
  function Shuffled(ps: seq<Participant>, perm: seq<nat>): (r: seq<MemberId>)
    requires IsPermutation(perm, |ps|)
    ensures |r| == |ps|
    ensures forall k :: 0 <= k < |r| ==> r[k] == ps[perm[k]].memberId
  {
    seq(|ps|, k requires 0 <= k < |ps| => ps[perm[k]].memberId)
  }

  /** The shuffle keeps every registered member exactly as often as they are
      registered. */
  lemma ShuffledIsPermutation(ps: seq<Participant>, perm: seq<nat>)
    requires IsPermutation(perm, |ps|)
    ensures multiset(Shuffled(ps, perm)) == multiset(MemberIds(ps))
  {
    PermutationKeepsMultiset(MemberIds(ps), perm, Shuffled(ps, perm));
  }

  /** Is position `i` in one of the pairs? */
  predicate Paired(pairs: seq<(nat, nat)>, i: nat) {
    exists k :: 0 <= k < |pairs| && (pairs[k].0 == i || pairs[k].1 == i)
  }

  /** Knockout round 1 over `n` shuffled positions: position 2k meets 2k+1.
      Each position is in at most one pair, and the only unpaired position
      is the last one when `n` is odd. */
  function KnockoutPairs(n: nat): (r: seq<(nat, nat)>)
    ensures |r| == n / 2
    ensures forall k :: 0 <= k < |r| ==> r[k] == (2 * k, 2 * k + 1)
    ensures forall k :: 0 <= k < |r| ==> r[k].0 < r[k].1 < n
    ensures forall k, l :: 0 <= k < l < |r| ==>
      r[k].0 != r[l].0 && r[k].0 != r[l].1 && r[k].1 != r[l].0 && r[k].1 != r[l].1
    ensures forall i :: 0 <= i < n ==> (Paired(r, i) <==> !(n % 2 == 1 && i == n - 1))
  {
    var r := seq(n / 2, k requires 0 <= k < n / 2 => (2 * k, 2 * k + 1));
    assert forall i :: 0 <= i < n && !(n % 2 == 1 && i == n - 1) ==> Paired(r, i) by {
      forall i | 0 <= i < n && !(n % 2 == 1 && i == n - 1) ensures Paired(r, i) {
        var k := i / 2;
        assert r[k] == (2 * k, 2 * k + 1);
      }
    }
    assert forall k :: 0 <= k < |r| ==> r[k].1 < 2 * (n / 2) <= n;
    r
  }

  /** Strict lexicographic order on pairs of positions. */
  predicate PairBefore(a: (nat, nat), b: (nat, nat)) {
    a.0 < b.0 || (a.0 == b.0 && a.1 < b.1)
  }

  /** The pairs (i, j) for j = from .. n-1. */
  function RowPairs(i: nat, from: nat, n: nat): (r: seq<(nat, nat)>)
    ensures |r| == if from <= n then n - from else 0
    ensures forall k :: 0 <= k < |r| ==> r[k] == (i, from + k)
    decreases n - from
  {
    if from >= n then [] else [(i, from)] + RowPairs(i, from + 1, n)
  }

  /** 0 + 1 + ... + (m - 1): the number of pairs among `m` positions. */
  function Triangle(m: nat): nat {
    if m == 0 then 0 else (m - 1) + Triangle(m - 1)
  }

  lemma {:induction false} TriangleClosedForm(m: nat)
    ensures Triangle(m) == m * (m - 1) / 2
  {
    if m > 0 {
      TriangleClosedForm(m - 1);
      assert m * (m - 1) == 2 * (m - 1) + (m - 1) * (m - 2);
    }
  }

  /** The pairs i < j < n with i >= first, row by row. */
  function PairsFrom(first: nat, n: nat): (r: seq<(nat, nat)>)
    ensures |r| == if first <= n then Triangle(n - first) else 0
    ensures forall k :: 0 <= k < |r| ==> first <= r[k].0 < r[k].1 < n
    decreases n - first
  {
    if first >= n then []
    else
      var row := RowPairs(first, first + 1, n);
      var rest := PairsFrom(first + 1, n);
      assert forall k :: |row| <= k < |row + rest| ==> (row + rest)[k] == rest[k - |row|];
      row + rest
  }

  /** Every pair i < j from `first` on is listed. */
  lemma {:induction false} PairsFromCoverAll(first: nat, n: nat)
    ensures forall i, j :: first <= i < j < n ==> (i, j) in PairsFrom(first, n)
    decreases n - first
  {
    if first < n {
      var row := RowPairs(first, first + 1, n);
      var rest := PairsFrom(first + 1, n);
      PairsFromCoverAll(first + 1, n);
      forall i, j | first <= i < j < n ensures (i, j) in row + rest {
        if i == first {
          assert row[j - first - 1] == (i, j);
        } else {
          assert (i, j) in rest;
        }
      }
    }
  }

  /** The list is strictly increasing in the lexicographic order. */
  lemma {:induction false} PairsFromOrdered(first: nat, n: nat)
    ensures forall k, l :: 0 <= k < l < |PairsFrom(first, n)| ==> PairBefore(PairsFrom(first, n)[k], PairsFrom(first, n)[l])
    decreases n - first
  {
    if first < n {
      var row := RowPairs(first, first + 1, n);
      var rest := PairsFrom(first + 1, n);
      var r := row + rest;
      assert PairsFrom(first, n) == r;
      PairsFromOrdered(first + 1, n);
      forall k, l | 0 <= k < l < |r| ensures PairBefore(r[k], r[l]) {
        if l < |row| {
          assert r[k] == row[k] && r[l] == row[l];
        } else if k >= |row| {
          assert r[k] == rest[k - |row|] && r[l] == rest[l - |row|];
        } else {
          assert r[k] == row[k] && r[l] == rest[l - |row|];
        }
      }
    }
  }

  /** Round robin over `n` shuffled positions: every pair i < j exactly once
      (the list is strictly ordered, so it has no repeats), n(n-1)/2 pairs,
      never a position against itself. */
  function RoundRobinPairs(n: nat): (r: seq<(nat, nat)>)
    ensures |r| == n * (n - 1) / 2
    ensures forall k :: 0 <= k < |r| ==> r[k].0 < r[k].1 < n
    ensures forall i, j :: 0 <= i < j < n ==> (i, j) in r
    ensures forall k, l :: 0 <= k < l < |r| ==> r[k] != r[l]
  {
    TriangleClosedForm(n);
    PairsFromCoverAll(0, n);
    PairsFromOrdered(0, n);
    PairsFrom(0, n)
  }

  /** A singles match between `p1` and `p2`, Scheduled, with no score. */
  function SinglesMatch(id: nat, tid: nat, round: string, date: int, p1: MemberId, p2: MemberId): Match {
    Match(id, Some(tid), round, Some(date), Some(p1), None, Some(p2), None, 0, 0, None, Scheduled)
  }

  /** The matches one pairing produces; the knockout round is dated at the
      tournament start, round-robin matches `i` hours after it, `i` being the
      first position of the pair. */
  function PairMatches(t: Tournament, tid: nat, players: seq<MemberId>, pairs: seq<(nat, nat)>, firstId: nat): (r: seq<Match>)
    requires forall k :: 0 <= k < |pairs| ==> pairs[k].0 < pairs[k].1 < |players|
    ensures |r| == |pairs|
    ensures forall k :: 0 <= k < |r| ==>
      && r[k].id == firstId + k
      && r[k].tournamentId == Some(tid)
      && r[k].status == Scheduled
      && r[k].team1Player1 == Some(players[pairs[k].0])
      && r[k].team2Player1 == Some(players[pairs[k].1])
      && r[k].team1Player2.None? && r[k].team2Player2.None?
      && r[k].score1 == 0 && r[k].score2 == 0 && r[k].winner.None?
    ensures forall k :: 0 <= k < |r| ==>
      if t.format == Knockout then r[k].roundName == "Round 1" && r[k].date == Some(t.startDate)
      else r[k].roundName == "Group Stage" && r[k].date == Some(t.startDate + pairs[k].0 * MinutesPerHour)
  {
    seq(|pairs|, k requires 0 <= k < |pairs| =>
      SinglesMatch(firstId + k, tid,
                   if t.format == Knockout then "Round 1" else "Group Stage",
                   if t.format == Knockout then t.startDate else t.startDate + pairs[k].0 * MinutesPerHour,
                   players[pairs[k].0], players[pairs[k].1]))
  }

  /** The pairing a format uses: Knockout pairs neighbours, every other
      format (RoundRobin and Hybrid alike) plays all pairs. */
  function PairingFor(format: TournamentFormat, n: nat): (r: seq<(nat, nat)>)
    ensures forall k :: 0 <= k < |r| ==> r[k].0 < r[k].1 < n
  {
    if format == Knockout then KnockoutPairs(n) else RoundRobinPairs(n)
  }

  /** Does the tournament already have matches? */
  predicate HasMatches(ms: seq<Match>, tid: nat) {
    exists k :: 0 <= k < |ms| && ms[k].tournamentId == Some(tid)
  }

  /** Schedule generation exactly as the action is written: it never looks
      at the tournament's status. */
  function GenerateScheduleAsWritten(s: State, tid: nat, perm: seq<nat>): (r: Result<State>)
    requires IsPermutation(perm, |ParticipantsOf(s.participants, tid)|)
    // accepted exactly when every guard passes
    ensures r.Ok? <==>
      tid in s.tournaments && !HasMatches(s.matches, tid) && |ParticipantsOf(s.participants, tid)| >= 2
    ensures tid !in s.tournaments ==> r == Err(NotFound)
    ensures tid in s.tournaments && HasMatches(s.matches, tid) ==> r == Err(ScheduleExists)
    ensures (tid in s.tournaments && !HasMatches(s.matches, tid)
             && |ParticipantsOf(s.participants, tid)| < 2) ==> r == Err(TooFewParticipants)
    ensures r.Ok? ==>
      && tid in s.tournaments && !HasMatches(s.matches, tid)
      && |ParticipantsOf(s.participants, tid)| >= 2
      && var t := s.tournaments[tid];
         var players := Shuffled(ParticipantsOf(s.participants, tid), perm);
         var n := |players|;
         var pairs := PairingFor(t.format, n);
         && |r.value.matches| == |s.matches| + |pairs|
         && r.value.matches[..|s.matches|] == s.matches
         && r.value.matches[|s.matches|..] == PairMatches(t, tid, players, pairs, s.nextMatchId)
         && r.value.nextMatchId == s.nextMatchId + |pairs|
         && (t.format == Knockout ==> |pairs| == n / 2)
         && (t.format != Knockout ==> |pairs| == n * (n - 1) / 2)
         // the tournament, and only it, moves to Ongoing
         && r.value.tournaments == s.tournaments[tid := t.(status := Ongoing)]
    ensures r.Ok? ==>
      && MembersUnchanged(s, r.value) && LedgerUnchanged(s, r.value)
      && r.value.participants == s.participants && r.value.nextParticipantId == s.nextParticipantId
      && BookingsUnchanged(s, r.value) && NotificationsUnchanged(s, r.value)
  {
    if tid !in s.tournaments then Err(NotFound)
    else if HasMatches(s.matches, tid) then Err(ScheduleExists)
    else
      var ps := ParticipantsOf(s.participants, tid);
      if |ps| < 2 then Err(TooFewParticipants)
      else
        var t := s.tournaments[tid];
        var players := Shuffled(ps, perm);
        var pairs := PairingFor(t.format, |players|);
        var created := PairMatches(t, tid, players, pairs, s.nextMatchId);
        assert (s.matches + created)[..|s.matches|] == s.matches;
        assert (s.matches + created)[|s.matches|..] == created;
        Ok(s.(matches := s.matches + created,
              nextMatchId := s.nextMatchId + |created|,
              tournaments := s.tournaments[tid := t.(status := Ongoing)]))
  }

  /** Schedule generation with a Finished tournament turned away, so that
      the tournament lifecycle only moves forward and a prize stays paid
      once. Otherwise identical to the action as written. */
  function GenerateSchedule(s: State, tid: nat, perm: seq<nat>): (r: Result<State>)
    requires IsPermutation(perm, |ParticipantsOf(s.participants, tid)|)
    ensures tid in s.tournaments && s.tournaments[tid].status == TournamentStatus.Finished ==> r == Err(AlreadyFinished)
    ensures !(tid in s.tournaments && s.tournaments[tid].status == TournamentStatus.Finished) ==>
              r == GenerateScheduleAsWritten(s, tid, perm)
    ensures r.Ok? ==> tid in s.tournaments && tid in r.value.tournaments
                      && r.value.tournaments[tid].status.Rank() >= s.tournaments[tid].status.Rank()
  {
    if tid in s.tournaments && s.tournaments[tid].status == TournamentStatus.Finished then Err(AlreadyFinished)
    else GenerateScheduleAsWritten(s, tid, perm)
  }

  ghost predicate DistinctIds(ids: seq<MemberId>) {
    forall a, b :: 0 <= a < b < |ids| ==> ids[a] != ids[b]
  }

  /** Shuffling unique registrations yields distinct member ids. */
  lemma ShuffledDistinct(s: State, tid: nat, perm: seq<nat>)
    requires ParticipantsUnique(s.participants)
    requires IsPermutation(perm, |ParticipantsOf(s.participants, tid)|)
    ensures DistinctIds(Shuffled(ParticipantsOf(s.participants, tid), perm))
  {
    var ps := ParticipantsOf(s.participants, tid);
    ParticipantsOfDistinct(s.participants, tid);
    var players := Shuffled(ps, perm);
    forall a, b | 0 <= a < b < |players| ensures players[a] != players[b] {
      assert perm[a] != perm[b] && perm[a] < |ps| && perm[b] < |ps|;
      if perm[a] < perm[b] {
        assert ps[perm[a]].memberId != ps[perm[b]].memberId;
      } else {
        assert ps[perm[b]].memberId != ps[perm[a]].memberId;
      }
    }
  }

  /** No match sets a member against themself. */
  ghost predicate NoSelfMatch(ms: seq<Match>) {
    forall k :: 0 <= k < |ms| ==> ms[k].team1Player1 != ms[k].team2Player1
  }

  /** Every match is a Scheduled match of tournament `tid`. */
  ghost predicate ScheduledFor(ms: seq<Match>, tid: nat) {
    forall k :: 0 <= k < |ms| ==> ms[k].status == Scheduled && ms[k].tournamentId == Some(tid)
  }

  /** No member plays in two of the matches. */
  ghost predicate NoOneTwice(ms: seq<Match>) {
    forall k, l :: 0 <= k < l < |ms| ==>
      && ms[k].team1Player1 != ms[l].team1Player1
      && ms[k].team1Player1 != ms[l].team2Player1
      && ms[k].team2Player1 != ms[l].team1Player1
      && ms[k].team2Player1 != ms[l].team2Player1
  }

  /** Matches built over distinct players from ordered pairs never pit a
      player against themself; from position-disjoint pairs, no player is in
      two matches. */
  lemma PairMatchesFair(t: Tournament, tid: nat, players: seq<MemberId>, pairs: seq<(nat, nat)>, firstId: nat)
    requires DistinctIds(players)
    requires forall k :: 0 <= k < |pairs| ==> pairs[k].0 < pairs[k].1 < |players|
    ensures NoSelfMatch(PairMatches(t, tid, players, pairs, firstId))
    ensures ScheduledFor(PairMatches(t, tid, players, pairs, firstId), tid)
    ensures (forall k, l :: 0 <= k < l < |pairs| ==>
               pairs[k].0 != pairs[l].0 && pairs[k].0 != pairs[l].1
               && pairs[k].1 != pairs[l].0 && pairs[k].1 != pairs[l].1)
            ==> NoOneTwice(PairMatches(t, tid, players, pairs, firstId))
  {
    var ms := PairMatches(t, tid, players, pairs, firstId);
    forall k | 0 <= k < |ms| ensures ms[k].team1Player1 != ms[k].team2Player1 {
      assert players[pairs[k].0] != players[pairs[k].1];
    }
    if forall k, l :: 0 <= k < l < |pairs| ==>
         pairs[k].0 != pairs[l].0 && pairs[k].0 != pairs[l].1
         && pairs[k].1 != pairs[l].0 && pairs[k].1 != pairs[l].1
    {
      forall k, l | 0 <= k < l < |ms|
        ensures ms[k].team1Player1 != ms[l].team1Player1
        ensures ms[k].team1Player1 != ms[l].team2Player1
        ensures ms[k].team2Player1 != ms[l].team1Player1
        ensures ms[k].team2Player1 != ms[l].team2Player1
      {
        var a, b, c, d := pairs[k].0, pairs[k].1, pairs[l].0, pairs[l].1;
        assert players[a] != players[c] && players[a] != players[d];
        assert players[b] != players[c] && players[b] != players[d];
      }
    }
  }

  /** With unique registrations no generated match sets a member against
      themself, every generated match is a Scheduled match of the
      tournament, and in a knockout round no member plays twice. */
  lemma ScheduleFairness(s: State, tid: nat, perm: seq<nat>)
    requires ParticipantsUnique(s.participants)
    requires IsPermutation(perm, |ParticipantsOf(s.participants, tid)|)
    ensures var r := GenerateScheduleAsWritten(s, tid, perm);
      r.Ok? ==>
        && NoSelfMatch(r.value.matches[|s.matches|..])
        && ScheduledFor(r.value.matches[|s.matches|..], tid)
        && (s.tournaments[tid].format == Knockout ==> NoOneTwice(r.value.matches[|s.matches|..]))
  {
    var r := GenerateScheduleAsWritten(s, tid, perm);
    if r.Ok? {
      var t := s.tournaments[tid];
      var players := Shuffled(ParticipantsOf(s.participants, tid), perm);
      var pairs := PairingFor(t.format, |players|);
      ShuffledDistinct(s, tid, perm);
      PairMatchesFair(t, tid, players, pairs, s.nextMatchId);
    }
  }

  /** Pay the prize pool to the winner and close the tournament. */
  function FinishTournament(s: State, tid: nat, winnerId: MemberId, now: int): (r: Result<State>)
    // accepted exactly when every guard passes
    ensures r.Ok? <==>
      tid in s.tournaments && s.tournaments[tid].status != TournamentStatus.Finished && winnerId in s.members
    ensures tid !in s.tournaments ==> r == Err(NotFound)
    ensures tid in s.tournaments && s.tournaments[tid].status == TournamentStatus.Finished ==> r == Err(AlreadyFinished)
    ensures (tid in s.tournaments && s.tournaments[tid].status != TournamentStatus.Finished
             && winnerId !in s.members) ==> r == Err(NotFound)
    ensures r.Ok? ==>
      && tid in s.tournaments && s.tournaments[tid].status != TournamentStatus.Finished
      && winnerId in s.members
      && OtherMembersUnchanged(s, r.value, winnerId)
    ensures r.Ok? ==>
      var t := s.tournaments[tid];
      var before := s.members[winnerId];
      // the prize is credited; it is not spend, so TotalSpent and the tier stay
      && r.value.members[winnerId] == before.(walletBalance := before.walletBalance + t.prizePool)
      && r.value.ledger == s.ledger + [WalletTransaction(s.nextTransactionId, winnerId, t.prizePool, Reward,
                                                        TransactionStatus.Completed, Some(tid), now)]
      && r.value.nextTransactionId == s.nextTransactionId + 1
      && r.value.tournaments == s.tournaments[tid := t.(status := TournamentStatus.Finished)]
    ensures r.Ok? ==>
      && r.value.participants == s.participants && r.value.nextParticipantId == s.nextParticipantId
      && r.value.matches == s.matches && r.value.nextMatchId == s.nextMatchId
      && BookingsUnchanged(s, r.value) && NotificationsUnchanged(s, r.value)
  {
    if tid !in s.tournaments then Err(NotFound)
    else
      var t := s.tournaments[tid];
      if t.status == TournamentStatus.Finished then Err(AlreadyFinished)
      else if winnerId !in s.members then Err(NotFound)
      else
        var winner := s.members[winnerId];
        var reward := WalletTransaction(s.nextTransactionId, winnerId, t.prizePool, Reward,
                                        TransactionStatus.Completed, Some(tid), now);
        Ok(s.(members := s.members[winnerId := winner.(walletBalance := winner.walletBalance + t.prizePool)],
              ledger := s.ledger + [reward],
              nextTransactionId := s.nextTransactionId + 1,
              tournaments := s.tournaments[tid := t.(status := TournamentStatus.Finished)]))
  }

  /** Finishing a finished tournament is rejected. */
  lemma SecondFinishIsRejected(s: State, tid: nat, winnerId: MemberId, now: int, winner2: MemberId, now2: int)
    requires FinishTournament(s, tid, winnerId, now).Ok?
    ensures FinishTournament(FinishTournament(s, tid, winnerId, now).value, tid, winner2, now2) == Err(AlreadyFinished)
  {
  }

  /** As written, a Finished tournament that never had matches and has two
      participants is put back to Ongoing by schedule generation, after which
      finishing it again pays the prize a second time. */
  lemma AsWrittenPaysPrizeTwice(s: State, tid: nat, perm: seq<nat>, winnerId: MemberId, now: int)
    requires tid in s.tournaments && s.tournaments[tid].status == TournamentStatus.Finished
    requires EntryCount(s.ledger, Reward, tid) == 1
    requires !HasMatches(s.matches, tid)
    requires IsPermutation(perm, |ParticipantsOf(s.participants, tid)|)
    requires |ParticipantsOf(s.participants, tid)| >= 2
    requires winnerId in s.members
    ensures GenerateScheduleAsWritten(s, tid, perm).Ok?
    ensures var s2 := GenerateScheduleAsWritten(s, tid, perm).value;
            && s2.tournaments[tid].status == Ongoing
            && FinishTournament(s2, tid, winnerId, now).Ok?
            && EntryCount(FinishTournament(s2, tid, winnerId, now).value.ledger, Reward, tid) == 2
  {
    var r2 := GenerateScheduleAsWritten(s, tid, perm);
    assert r2.Ok?;
    var s2 := r2.value;
    assert s2.ledger == s.ledger && s2.members == s.members;
    assert s2.tournaments[tid].status == Ongoing;
    var r3 := FinishTournament(s2, tid, winnerId, now);
    assert r3.Ok?;
    var e := WalletTransaction(s.nextTransactionId, winnerId, s2.tournaments[tid].prizePool, Reward,
                               TransactionStatus.Completed, Some(tid), now);
    assert r3.value.ledger == s.ledger + [e];
    EntryCountAppend(s.ledger, e, Reward, tid);
  }
}
