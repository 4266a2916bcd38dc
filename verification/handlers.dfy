/**
  The state-transition handlers of the application root: approving and
  rejecting point requests, approving challenge submissions, issuing
  vouchers, direct grants and adjustments by an admin, and the challenge
  lifecycle.  Each handler is a pure function from the state before to the
  state after.  Fresh ids and today's date, which the application draws from
  `Math.random` and the clock, are parameters.
 */
module Handlers {
  import opened SeqUtil
  import opened Rules
  import opened AppState

  /** The title and expiry date `issueVoucher` writes into every new voucher. */
  const NewVoucherTitle := "NEU"
  const FixedExpiry := "2026-09-11"

  function Gain(u: User, pts: int): User
  {
    u.(totalPoints := u.totalPoints + pts)
  }

  /** `after` is `before` with the users whose key is `k`, and only those, credited `pts`. */
  ghost predicate GainedWhere(before: seq<User>, after: seq<User>, key: User -> string, k: string, pts: int)
  {
    && |after| == |before|
    && forall i :: 0 <= i < |before| ==>
         after[i] == if key(before[i]) == k then Gain(before[i], pts) else before[i]
  }

  /** Credits `pts` to every user whose key is `k`, keeping the list order. */
  function CreditWhere(us: seq<User>, key: User -> string, k: string, pts: int): (r: seq<User>)
    ensures GainedWhere(us, r, key, k, pts)
  {
    if |us| == 0 then []
    else [if key(us[0]) == k then Gain(us[0], pts) else us[0]] + CreditWhere(us[1..], key, k, pts)
  }

  /** `after` is `before` with entry `e` appended to the ledger and its points added to the total. */
  ghost predicate Booked(before: Profile, after: Profile, e: LedgerEntry)
  {
    && after.totalPoints == before.totalPoints + e.points
    && after.ledger == before.ledger + [e]
    && after.(totalPoints := before.totalPoints, ledger := before.ledger) == before
  }

  function Book(p: Profile, e: LedgerEntry): Profile
  {
    p.(totalPoints := p.totalPoints + e.points, ledger := p.ledger + [e])
  }

  /** `after` holds exactly the elements of `before` whose key is not `k`. */
  ghost predicate Dropped<T(!new)>(before: seq<T>, after: seq<T>, key: T -> string, k: string)
  {
    && |after| <= |before|
    && forall x :: x in after <==> x in before && key(x) != k
  }

  /**
    `approvePR(id)`: credits the activity's points to every user whose full
    name is the request's user and, when the profile bears that name, books
    them in its ledger under the request's key; then drops the request.  An
    unknown id changes nothing, and so does a request whose key is not one of
    the five rule keys: the model treats the failed point lookup as leaving
    the state untouched.
   */
  function ApprovePR(s: State, id: string): (s': State)
    ensures FirstWithKey(s.queues.pointRequests, RequestId, id).None? ==> s' == s
    ensures FirstWithKey(s.queues.pointRequests, RequestId, id).Some? ==>
      var req := FirstWithKey(s.queues.pointRequests, RequestId, id).value;
      ParseKey(req.kind).None? ==> s' == s
    ensures FirstWithKey(s.queues.pointRequests, RequestId, id).Some? ==>
      var req := FirstWithKey(s.queues.pointRequests, RequestId, id).value;
      ParseKey(req.kind).Some? ==>
      var pts := Points(ParseKey(req.kind).value);
      && GainedWhere(s.users, s'.users, FullName, req.user, pts)
      && (if req.user == s.profile.name
          then Booked(s.profile, s'.profile, LedgerEntry(id, req.date, pts, req.kind, req.note))
          else s'.profile == s.profile)
      && Dropped(s.queues.pointRequests, s'.queues.pointRequests, RequestId, id)
      && s'.queues.voucherRequests == s.queues.voucherRequests
      && s'.queues.challengeSubmissions == s.queues.challengeSubmissions
      && s'.challenges == s.challenges
  {
    match FirstWithKey(s.queues.pointRequests, RequestId, id)
    case None => s
    case Some(req) =>
      match ParseKey(req.kind)
      case None => s
      case Some(activity) =>
        var pts := Points(activity);
        var profile :=
          if req.user == s.profile.name
          then Book(s.profile, LedgerEntry(id, req.date, pts, req.kind, req.note))
          else s.profile;
        State(CreditWhere(s.users, FullName, req.user, pts), profile,
              s.queues.(pointRequests := WithoutKey(s.queues.pointRequests, RequestId, id)),
              s.challenges)
  }

  /** `rejectPR(id)`: drops the requests with that id and touches nothing else. */
  function RejectPR(s: State, id: string): (s': State)
    ensures Dropped(s.queues.pointRequests, s'.queues.pointRequests, RequestId, id)
    ensures s'.queues.(pointRequests := s.queues.pointRequests) == s.queues
    ensures s'.(queues := s.queues) == s
  {
    s.(queues := s.queues.(pointRequests := WithoutKey(s.queues.pointRequests, RequestId, id)))
  }

  /** The ledger note written for an approved challenge. */
  function ChallengeNote(c: Challenge): string
  {
    "Challenge: " + c.name
  }

  /**
    `approveChallenge(subId)`: credits the challenge's points to every user
    named like the submitter and, when the profile bears that name, books them
    as a special event dated today; then drops the submission.  An unknown id
    changes nothing.
   */
  function ApproveChallenge(s: State, subId: string, today: string): (s': State)
    ensures FirstWithKey(s.queues.challengeSubmissions, SubmissionId, subId).None? ==> s' == s
    ensures FirstWithKey(s.queues.challengeSubmissions, SubmissionId, subId).Some? ==>
      var sub := FirstWithKey(s.queues.challengeSubmissions, SubmissionId, subId).value;
      var pts := sub.challenge.points;
      && GainedWhere(s.users, s'.users, FullName, sub.user, pts)
      && (if sub.user == s.profile.name
          then Booked(s.profile, s'.profile,
                      LedgerEntry(subId, today, pts, Key(SpecialEvent), ChallengeNote(sub.challenge)))
          else s'.profile == s.profile)
      && Dropped(s.queues.challengeSubmissions, s'.queues.challengeSubmissions, SubmissionId, subId)
      && s'.queues.pointRequests == s.queues.pointRequests
      && s'.queues.voucherRequests == s.queues.voucherRequests
      && s'.challenges == s.challenges
  {
    match FirstWithKey(s.queues.challengeSubmissions, SubmissionId, subId)
    case None => s
    case Some(sub) =>
      var pts := sub.challenge.points;
      var profile :=
        if sub.user == s.profile.name
        then Book(s.profile, LedgerEntry(subId, today, pts, Key(SpecialEvent), ChallengeNote(sub.challenge)))
        else s.profile;
      State(CreditWhere(s.users, FullName, sub.user, pts), profile,
            s.queues.(challengeSubmissions := WithoutKey(s.queues.challengeSubmissions, SubmissionId, subId)),
            s.challenges)
  }

  /**
    `issueVoucher(id, code)`: drops the voucher requests with that id and adds
    one issued voucher with the given code to the profile.  The handler does
    not check that the request exists.
   */
  function IssueVoucher(s: State, id: string, code: string, today: string): (s': State)
    ensures Dropped(s.queues.voucherRequests, s'.queues.voucherRequests, VoucherRequestId, id)
    ensures s'.queues.(voucherRequests := s.queues.voucherRequests) == s.queues
    ensures s'.profile.vouchers == s.profile.vouchers + [Voucher(id, NewVoucherTitle, Issued, code, today, FixedExpiry)]
    ensures s'.profile.(vouchers := s.profile.vouchers) == s.profile
    ensures s'.users == s.users && s'.challenges == s.challenges
  {
    var voucher := Voucher(id, NewVoucherTitle, Issued, code, today, FixedExpiry);
    s.(queues := s.queues.(voucherRequests := WithoutKey(s.queues.voucherRequests, VoucherRequestId, id)),
       profile := s.profile.(vouchers := s.profile.vouchers + [voucher]))
  }

  /**
    `grantPoints`: an admin's direct booking.  The users with the given id gain
    `points`; when the first of them has the profile's name, the profile gets
    the same credit and one ledger entry.  An unknown user id changes nothing.
   */
  function GrantPoints(s: State, userId: string, kind: Activity, date: string, note: string,
                       points: int, freshId: string): (s': State)
    ensures FirstWithKey(s.users, UserId, userId).None? ==> s' == s
    ensures FirstWithKey(s.users, UserId, userId).Some? ==>
      var target := FirstWithKey(s.users, UserId, userId).value;
      && GainedWhere(s.users, s'.users, UserId, userId, points)
      && (if FullName(target) == s.profile.name
          then Booked(s.profile, s'.profile, LedgerEntry(freshId, date, points, Key(kind), note))
          else s'.profile == s.profile)
      && s'.queues == s.queues
      && s'.challenges == s.challenges
  {
    match FirstWithKey(s.users, UserId, userId)
    case None => s
    case Some(target) =>
      var profile :=
        if FullName(target) == s.profile.name
        then Book(s.profile, LedgerEntry(freshId, date, points, Key(kind), note))
        else s.profile;
      s.(users := CreditWhere(s.users, UserId, userId, points), profile := profile)
  }

  /**
    `adjustPoints(userId, delta)`: the users with that id change by `delta`
    without bound; a profile with that id takes `max(0, total + delta)`.  No
    ledger entry is written.
   */
  function AdjustPoints(s: State, userId: string, delta: int): (s': State)
    ensures GainedWhere(s.users, s'.users, UserId, userId, delta)
    ensures s.profile.id == userId ==>
      var t := s'.profile.totalPoints;
      && t >= 0
      && t >= s.profile.totalPoints + delta
      && (t == 0 || t == s.profile.totalPoints + delta)
    ensures s.profile.id != userId ==> s'.profile.totalPoints == s.profile.totalPoints
    ensures s'.profile.(totalPoints := s.profile.totalPoints) == s.profile
    ensures s'.queues == s.queues && s'.challenges == s.challenges
  {
    var profile :=
      if s.profile.id == userId
      then
        var t := s.profile.totalPoints + delta;
        s.profile.(totalPoints := if t > 0 then t else 0)
      else s.profile;
    s.(users := CreditWhere(s.users, UserId, userId, delta), profile := profile)
  }

  /**
    `submitChallenge(id)`: queues one pending submission of the catalogue's
    first challenge with that id for the profile's user.  An unknown challenge
    id changes nothing.
   */
  function SubmitChallenge(s: State, challengeId: string, freshId: string): (s': State)
    ensures FirstWithKey(s.challenges, ChallengeId, challengeId).None? ==> s' == s
    ensures FirstWithKey(s.challenges, ChallengeId, challengeId).Some? ==>
      var c := FirstWithKey(s.challenges, ChallengeId, challengeId).value;
      && c.id == challengeId
      && s'.queues.challengeSubmissions
         == s.queues.challengeSubmissions + [Submission(freshId, s.profile.name, c, Pending)]
      && s'.queues.(challengeSubmissions := s.queues.challengeSubmissions) == s.queues
      && s'.(queues := s.queues) == s
  {
    match FirstWithKey(s.challenges, ChallengeId, challengeId)
    case None => s
    case Some(c) =>
      var sub := Submission(freshId, s.profile.name, c, Pending);
      s.(queues := s.queues.(challengeSubmissions := s.queues.challengeSubmissions + [sub]))
  }

  /**
    `createChallenge(c)`: appends the challenge to the catalogue, after which
    its id can be submitted; when the id was new, a lookup finds `c` itself.
   */
  function CreateChallenge(s: State, c: Challenge): (s': State)
    ensures s'.challenges == s.challenges + [c]
    ensures s'.(challenges := s.challenges) == s
    ensures FirstWithKey(s'.challenges, ChallengeId, c.id).Some?
    ensures FirstWithKey(s.challenges, ChallengeId, c.id).None? ==>
              FirstWithKey(s'.challenges, ChallengeId, c.id) == Some(c)
  {
    var s' := s.(challenges := s.challenges + [c]);
    assert s'.challenges[|s.challenges|] == c;
    s'
  }
}
