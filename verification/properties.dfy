/**
  Properties that relate handler calls to each other or to invariants of the
  state: the profile's ledger stays in step with its total, credits reach
  exactly the matched users, terminal transitions cannot be repeated, the
  profile keeps mirroring its row of the user list, and the seed scenarios.
 */
module Properties {
  import opened SeqUtil
  import opened Rules
  import opened AppState
  import opened Handlers

  // ===== Ledger and total move together =====

  /** How far the profile's total departs from the sum of its ledger (51 vs 162 in the seed). */
  function Drift(p: Profile): int
  {
    p.totalPoints - LedgerSum(p.ledger)
  }

  lemma {:induction false} LedgerSumAppend(l: seq<LedgerEntry>, e: LedgerEntry)
    ensures LedgerSum(l + [e]) == LedgerSum(l) + e.points
  {
    if |l| > 0 {
      assert (l + [e])[1..] == l[1..] + [e];
      LedgerSumAppend(l[1..], e);
    }
  }

  /** Booking an entry leaves the gap between total and ledger sum unchanged. */
  lemma BookedKeepsDrift(before: Profile, after: Profile, e: LedgerEntry)
    requires Booked(before, after, e)
    ensures Drift(after) == Drift(before)
  {
    LedgerSumAppend(before.ledger, e);
  }

  /** `approvePR` keeps total minus ledger sum; a balanced profile stays balanced. */
  lemma ApprovePRKeepsDrift(s: State, id: string)
    ensures Drift(ApprovePR(s, id).profile) == Drift(s.profile)
  {
    var s' := ApprovePR(s, id);
    var found := FirstWithKey(s.queues.pointRequests, RequestId, id);
    if found.Some? && ParseKey(found.value.kind).Some? && found.value.user == s.profile.name {
      var req := found.value;
      var pts := Points(ParseKey(req.kind).value);
      BookedKeepsDrift(s.profile, s'.profile, LedgerEntry(id, req.date, pts, req.kind, req.note));
    }
  }

  /** `approveChallenge` keeps total minus ledger sum. */
  lemma ApproveChallengeKeepsDrift(s: State, subId: string, today: string)
    ensures Drift(ApproveChallenge(s, subId, today).profile) == Drift(s.profile)
  {
    var s' := ApproveChallenge(s, subId, today);
    var found := FirstWithKey(s.queues.challengeSubmissions, SubmissionId, subId);
    if found.Some? && found.value.user == s.profile.name {
      var sub := found.value;
      BookedKeepsDrift(s.profile, s'.profile,
                       LedgerEntry(subId, today, sub.challenge.points, Key(SpecialEvent), ChallengeNote(sub.challenge)));
    }
  }

  /** `grantPoints` keeps total minus ledger sum. */
  lemma GrantPointsKeepsDrift(s: State, userId: string, kind: Activity, date: string, note: string,
                              points: int, freshId: string)
    ensures Drift(GrantPoints(s, userId, kind, date, note, points, freshId).profile) == Drift(s.profile)
  {
    var s' := GrantPoints(s, userId, kind, date, note, points, freshId);
    var found := FirstWithKey(s.users, UserId, userId);
    if found.Some? && FullName(found.value) == s.profile.name {
      BookedKeepsDrift(s.profile, s'.profile, LedgerEntry(freshId, date, points, Key(kind), note));
    }
  }

  /**
    `adjustPoints` on the profile's own id moves the total without a ledger
    entry, so the gap grows by the delta whenever the clamp does not fire.
   */
  lemma AdjustPointsShiftsDrift(s: State, userId: string, delta: int)
    requires s.profile.id == userId
    requires s.profile.totalPoints + delta >= 0
    ensures Drift(AdjustPoints(s, userId, delta).profile) == Drift(s.profile) + delta
  {
  }

  // ===== Credits reach exactly the matched users =====

  lemma {:induction false} GainedSum(before: seq<User>, after: seq<User>, key: User -> string, k: string, pts: int)
    requires GainedWhere(before, after, key, k, pts)
    ensures TotalOf(after) == TotalOf(before) + pts * CountKey(before, key, k)
  {
    if |before| > 0 {
      assert GainedWhere(before[1..], after[1..], key, k, pts) by {
        forall i | 0 <= i < |before[1..]|
          ensures after[1..][i] == if key(before[1..][i]) == k then Gain(before[1..][i], pts) else before[1..][i]
        {
          assert after[1..][i] == after[i + 1] && before[1..][i] == before[i + 1];
        }
      }
      GainedSum(before[1..], after[1..], key, k, pts);
      assert after[0] == if key(before[0]) == k then Gain(before[0], pts) else before[0];
    }
  }

  /** No two users of the list share a key. */
  ghost predicate UniqueKeys(us: seq<User>, key: User -> string)
  {
    forall i, j :: 0 <= i < |us| && 0 <= j < |us| && key(us[i]) == key(us[j]) ==> i == j
  }

  lemma {:induction false} CountUnique(us: seq<User>, key: User -> string, k: string, i: nat)
    requires UniqueKeys(us, key)
    requires i < |us| && key(us[i]) == k
    ensures CountKey(us, key, k) == 1
  {
    if i == 0 {
      CountAbsent(us[1..], key, k);
    } else {
      assert key(us[0]) != k;
      assert UniqueKeys(us[1..], key) by {
        forall a, b | 0 <= a < |us| - 1 && 0 <= b < |us| - 1 && key(us[1..][a]) == key(us[1..][b])
          ensures a == b
        {
          assert us[1..][a] == us[a + 1] && us[1..][b] == us[b + 1];
        }
      }
      assert us[1..][i - 1] == us[i];
      CountUnique(us[1..], key, k, i - 1);
    }
  }

  lemma {:induction false} CountAbsent(us: seq<User>, key: User -> string, k: string)
    requires forall i :: 0 <= i < |us| ==> key(us[i]) != k
    ensures CountKey(us, key, k) == 0
  {
    if |us| > 0 {
      assert forall i :: 0 <= i < |us[1..]| ==> us[1..][i] == us[i + 1];
      CountAbsent(us[1..], key, k);
    }
  }

  /**
    `approvePR` adds the activity's points once per user bearing the
    request's name; with unique names that is exactly one credit.  A request
    whose key has no rule leaves the sum as it was.
   */
  lemma ApprovePRUserTotal(s: State, id: string)
    requires FirstWithKey(s.queues.pointRequests, RequestId, id).Some?
    ensures var req := FirstWithKey(s.queues.pointRequests, RequestId, id).value;
            TotalOf(ApprovePR(s, id).users)
            == TotalOf(s.users) + (match ParseKey(req.kind)
                                   case Some(a) => Points(a) * CountKey(s.users, FullName, req.user)
                                   case None => 0)
  {
    var req := FirstWithKey(s.queues.pointRequests, RequestId, id).value;
    if ParseKey(req.kind).Some? {
      GainedSum(s.users, ApprovePR(s, id).users, FullName, req.user, Points(ParseKey(req.kind).value));
    }
  }

  /**
    With unique user ids, `grantPoints` to an existing user raises the sum of
    all totals by exactly `points`: one user is credited, no other changes.
   */
  lemma GrantPointsCreditsOne(s: State, userId: string, kind: Activity, date: string, note: string,
                              points: int, freshId: string, i: nat)
    requires UniqueKeys(s.users, UserId)
    requires i < |s.users| && s.users[i].id == userId
    ensures var s' := GrantPoints(s, userId, kind, date, note, points, freshId);
            && TotalOf(s'.users) == TotalOf(s.users) + points
            && s'.users[i].totalPoints == s.users[i].totalPoints + points
            && forall j :: 0 <= j < |s.users| && j != i ==> s'.users[j] == s.users[j]
  {
    var s' := GrantPoints(s, userId, kind, date, note, points, freshId);
    assert UserId(s.users[i]) == userId;
    GainedSum(s.users, s'.users, UserId, userId, points);
    CountUnique(s.users, UserId, userId, i);
  }

  /** `approveChallenge` adds the challenge's points once per user bearing the submitter's name. */
  lemma ApproveChallengeUserTotal(s: State, subId: string, today: string)
    requires FirstWithKey(s.queues.challengeSubmissions, SubmissionId, subId).Some?
    ensures var sub := FirstWithKey(s.queues.challengeSubmissions, SubmissionId, subId).value;
            TotalOf(ApproveChallenge(s, subId, today).users)
            == TotalOf(s.users) + sub.challenge.points * CountKey(s.users, FullName, sub.user)
  {
    var sub := FirstWithKey(s.queues.challengeSubmissions, SubmissionId, subId).value;
    GainedSum(s.users, ApproveChallenge(s, subId, today).users, FullName, sub.user, sub.challenge.points);
  }

  // ===== Terminal transitions are one-shot =====

  /** A second `approvePR` of the same id finds nothing and changes nothing. */
  lemma ApprovePRTwice(s: State, id: string)
    ensures ApprovePR(ApprovePR(s, id), id) == ApprovePR(s, id)
  {
    var s' := ApprovePR(s, id);
    assert forall i :: 0 <= i < |s'.queues.pointRequests| ==> s'.queues.pointRequests[i] in s'.queues.pointRequests;
  }

  /** A second `rejectPR` of the same id changes nothing. */
  lemma RejectPRTwice(s: State, id: string)
    ensures RejectPR(RejectPR(s, id), id) == RejectPR(s, id)
  {
    var s' := RejectPR(s, id);
    assert forall i :: 0 <= i < |s'.queues.pointRequests| ==> s'.queues.pointRequests[i] in s'.queues.pointRequests;
  }

  /** A rejected request can no longer be approved. */
  lemma RejectThenApprove(s: State, id: string)
    ensures ApprovePR(RejectPR(s, id), id) == RejectPR(s, id)
  {
    var s' := RejectPR(s, id);
    assert forall i :: 0 <= i < |s'.queues.pointRequests| ==> s'.queues.pointRequests[i] in s'.queues.pointRequests;
  }

  /** A second `approveChallenge` of the same submission changes nothing. */
  lemma ApproveChallengeTwice(s: State, subId: string, today: string, later: string)
    ensures ApproveChallenge(ApproveChallenge(s, subId, today), subId, later) == ApproveChallenge(s, subId, today)
  {
    var s' := ApproveChallenge(s, subId, today);
    assert forall i :: 0 <= i < |s'.queues.challengeSubmissions| ==>
      s'.queues.challengeSubmissions[i] in s'.queues.challengeSubmissions;
  }

  /**
    `issueVoucher` does not look the request up, so issuing the same id twice
    leaves two vouchers on the profile, one per code, while the second call
    finds no request left to drop.
   */
  lemma IssueVoucherTwice(s: State, id: string, code: string, code2: string, today: string)
    ensures var s1 := IssueVoucher(s, id, code, today);
            var s2 := IssueVoucher(s1, id, code2, today);
            && s2.profile.vouchers
               == s.profile.vouchers + [Voucher(id, NewVoucherTitle, Issued, code, today, FixedExpiry),
                                        Voucher(id, NewVoucherTitle, Issued, code2, today, FixedExpiry)]
            && s2.queues == s1.queues
  {
    var s1 := IssueVoucher(s, id, code, today);
    assert forall i :: 0 <= i < |s1.queues.voucherRequests| ==> s1.queues.voucherRequests[i] in s1.queues.voucherRequests;
  }

  // ===== Challenge lifecycle =====

  /**
    A challenge just added to the catalogue under a new id can be submitted,
    and the submission carries that very challenge.
   */
  lemma CreateThenSubmit(s: State, c: Challenge, freshId: string)
    requires forall i :: 0 <= i < |s.challenges| ==> s.challenges[i].id != c.id
    ensures SubmitChallenge(CreateChallenge(s, c), c.id, freshId).queues.challengeSubmissions
            == s.queues.challengeSubmissions + [Submission(freshId, s.profile.name, c, Pending)]
  {
  }

  /**
    A submission made under a fresh id and then approved credits the
    challenge's points to the profile with one special-event entry, and leaves
    the submission queue exactly as it was before, order included.
   */
  lemma SubmitThenApprove(s: State, challengeId: string, freshId: string, today: string)
    requires FirstWithKey(s.challenges, ChallengeId, challengeId).Some?
    requires forall i :: 0 <= i < |s.queues.challengeSubmissions| ==> s.queues.challengeSubmissions[i].id != freshId
    ensures var c := FirstWithKey(s.challenges, ChallengeId, challengeId).value;
            var s' := ApproveChallenge(SubmitChallenge(s, challengeId, freshId), freshId, today);
            && Booked(s.profile, s'.profile, LedgerEntry(freshId, today, c.points, Key(SpecialEvent), ChallengeNote(c)))
            && s'.queues.challengeSubmissions == s.queues.challengeSubmissions
  {
    var c := FirstWithKey(s.challenges, ChallengeId, challengeId).value;
    var sub := Submission(freshId, s.profile.name, c, Pending);
    var s1 := SubmitChallenge(s, challengeId, freshId);
    var found := FirstWithKey(s1.queues.challengeSubmissions, SubmissionId, freshId);
    assert s1.queues.challengeSubmissions[|s.queues.challengeSubmissions|] == sub;
    assert found == Some(sub) by {
      var k :| 0 <= k < |s1.queues.challengeSubmissions| && s1.queues.challengeSubmissions[k] == found.value;
      if k < |s.queues.challengeSubmissions| {
        assert s1.queues.challengeSubmissions[k] == s.queues.challengeSubmissions[k];
      }
    }
    WithoutKeyAppendDrop(s.queues.challengeSubmissions, sub, SubmissionId, freshId);
  }

  // ===== The profile mirrors its row of the user list =====

  /**
    The users named like the profile are exactly the users with the profile's
    id, and they carry the profile's total.
   */
  ghost predicate Synced(s: State)
  {
    forall i :: 0 <= i < |s.users| ==>
      && (FullName(s.users[i]) == s.profile.name <==> s.users[i].id == s.profile.id)
      && (s.users[i].id == s.profile.id ==> s.users[i].totalPoints == s.profile.totalPoints)
  }

  lemma ApprovePRKeepsSynced(s: State, id: string)
    requires Synced(s)
    ensures Synced(ApprovePR(s, id))
  {
  }

  lemma ApproveChallengeKeepsSynced(s: State, subId: string, today: string)
    requires Synced(s)
    ensures Synced(ApproveChallenge(s, subId, today))
  {
  }

  lemma GrantPointsKeepsSynced(s: State, userId: string, kind: Activity, date: string, note: string,
                               points: int, freshId: string)
    requires Synced(s)
    ensures Synced(GrantPoints(s, userId, kind, date, note, points, freshId))
  {
    var found := FirstWithKey(s.users, UserId, userId);
    if found.Some? {
      var k :| 0 <= k < |s.users| && s.users[k] == found.value;
      assert FullName(found.value) == s.profile.name <==> userId == s.profile.id;
    }
  }

  /** `adjustPoints` keeps the mirror in step exactly as long as the profile's clamp does not fire. */
  lemma AdjustPointsKeepsSynced(s: State, userId: string, delta: int)
    requires Synced(s)
    requires userId != s.profile.id || s.profile.totalPoints + delta >= 0
    ensures Synced(AdjustPoints(s, userId, delta))
  {
  }

  lemma OtherHandlersKeepSynced(s: State, id: string, code: string, today: string, c: Challenge, freshId: string)
    requires Synced(s)
    ensures Synced(RejectPR(s, id))
    ensures Synced(IssueVoucher(s, id, code, today))
    ensures Synced(SubmitChallenge(s, id, freshId))
    ensures Synced(CreateChallenge(s, c))
  {
  }

  // ===== Seed scenarios =====

  lemma SeedSynced()
    ensures Synced(Seed)
  {
    assert FullName(SeedUsers[0]) == "Max Mustermann";
  }

  /** The seeded training request is found, its key has a rule, and it is booked on the profile. */
  lemma SeedRequestBooked()
    ensures var s' := ApprovePR(Seed, "pr1");
            && Booked(Seed.profile, s'.profile, LedgerEntry("pr1", "2025-09-10", 1, "TRAINING", "Abend-Session"))
            && GainedWhere(Seed.users, s'.users, FullName, "Max Mustermann", 1)
            && s'.queues.pointRequests == []
  {
    var req := PointRequest("pr1", "Max Mustermann", "TRAINING", "2025-09-10", "Abend-Session", Pending);
    assert FirstWithKey(Seed.queues.pointRequests, RequestId, "pr1") == Some(req);
    assert ParseKey(req.kind) == Some(Training);
    var s' := ApprovePR(Seed, "pr1");
    assert forall r :: r !in s'.queues.pointRequests;
  }

  /** Approving the seeded training request lifts Max from 162 to 163. */
  lemma SeedApprovePR()
    ensures var s' := ApprovePR(Seed, "pr1");
            && s'.profile.totalPoints == 163
            && s'.profile.ledger == SeedProfile.ledger + [LedgerEntry("pr1", "2025-09-10", 1, "TRAINING", "Abend-Session")]
            && s'.users[0].totalPoints == 163
            && s'.queues.pointRequests == []
  {
    SeedRequestBooked();
    var s' := ApprovePR(Seed, "pr1");
    var e := LedgerEntry("pr1", "2025-09-10", 1, "TRAINING", "Abend-Session");
    assert Booked(Seed.profile, s'.profile, e);
    assert GainedWhere(Seed.users, s'.users, FullName, "Max Mustermann", 1);
    assert FullName(Seed.users[0]) == "Max Mustermann" && Seed.users[0].totalPoints == 162;
    assert s'.users[0] == Gain(Seed.users[0], 1);
  }

  lemma SeedChallengeBooked(today: string)
    ensures var s' := ApproveChallenge(Seed, "cs1", today);
            && Booked(Seed.profile, s'.profile, LedgerEntry("cs1", today, 30, "SPECIAL_EVENT", ChallengeNote(PushUps)))
            && s'.queues.challengeSubmissions == []
  {
    var s' := ApproveChallenge(Seed, "cs1", today);
    assert FirstWithKey(Seed.queues.challengeSubmissions, SubmissionId, "cs1")
           == Some(Submission("cs1", "Max Mustermann", PushUps, Pending));
    assert forall r :: r !in s'.queues.challengeSubmissions;
  }

  /** Approving the seeded push-up challenge lifts Max from 162 to 192. */
  lemma SeedApproveChallenge(today: string)
    ensures var s' := ApproveChallenge(Seed, "cs1", today);
            && s'.profile.totalPoints == 192
            && s'.profile.ledger[|s'.profile.ledger| - 1].note == ChallengeNote(PushUps)
            && s'.queues.challengeSubmissions == []
  {
    SeedChallengeBooked(today);
  }

  /** Issuing the seeded voucher request adds one issued voucher and empties the queue. */
  lemma SeedIssueVoucher(today: string)
    ensures var s' := IssueVoucher(Seed, "rq1", "SN-1234", today);
            && s'.profile.vouchers[1] == Voucher("rq1", "NEU", Issued, "SN-1234", today, "2026-09-11")
            && s'.queues.voucherRequests == []
  {
    var s' := IssueVoucher(Seed, "rq1", "SN-1234", today);
    assert forall r :: r !in s'.queues.voucherRequests;
  }

  /**
    Taking 500 points from Max clamps the profile at 0 while the user list
    shows -338: the mirror is out of step afterwards.
   */
  lemma SeedAdjustClamps()
    ensures var s' := AdjustPoints(Seed, "u1", -500);
            && s'.profile.totalPoints == 0
            && s'.users[0].totalPoints == -338
            && !Synced(s')
  {
    assert FullName(SeedUsers[0]) == "Max Mustermann";
    var s' := AdjustPoints(Seed, "u1", -500);
    assert s'.users[0].id == s'.profile.id;
  }
}
