/**
  The application state of the bonus programme: the user list, the profile
  of the signed-in user (a mirror of one user, carrying that user's ledger
  and vouchers), the three approval queues and the challenge catalogue,
  together with the seed data the application starts from.
 */
module AppState {
  import opened Rules

  /** A row of the admin user list. */
  datatype User = User(id: string, firstName: string, lastName: string, email: string, totalPoints: int)

  /** The name under which queue items refer to a user: first and last name joined by one space. */
  function FullName(u: User): string
  {
    u.firstName + " " + u.lastName
  }

  function UserId(u: User): string
  {
    u.id
  }

  /** One booking in a ledger; `rule` is a `POINT_RULES` key. */
  datatype LedgerEntry = LedgerEntry(id: string, date: string, points: int, rule: string, note: string)

  datatype VoucherStatus = Issued | Redeemed | Expired

  datatype Voucher = Voucher(id: string, title: string, status: VoucherStatus, code: string,
                             issuedAt: string, expiresAt: string)

  /** The signed-in user's own view: its total, ledger and vouchers. */
  datatype Profile = Profile(id: string, name: string, email: string, totalPoints: int,
                             ledger: seq<LedgerEntry>, vouchers: seq<Voucher>)

  datatype RequestStatus = Pending | Approved | Rejected

  /**
    A user's claim for the points of one activity, waiting for an admin.  The
    activity is kept as the key string the request carries, so a request may
    name a key the rule table does not know.
   */
  datatype PointRequest = PointRequest(id: string, user: string, kind: string, date: string,
                                       note: string, status: RequestStatus)

  function RequestId(r: PointRequest): string
  {
    r.id
  }

  datatype Challenge = Challenge(id: string, name: string, description: string, points: int,
                                 validFrom: string, validTo: string)

  function ChallengeId(c: Challenge): string
  {
    c.id
  }

  /** A user's claim to have completed a challenge. */
  datatype Submission = Submission(id: string, user: string, challenge: Challenge, status: RequestStatus)

  function SubmissionId(s: Submission): string
  {
    s.id
  }

  datatype VoucherRequestStatus = Requested

  /** A user's request for the voucher of a reached tier. */
  datatype VoucherRequest = VoucherRequest(id: string, user: string, level: string, threshold: int,
                                           status: VoucherRequestStatus)

  function VoucherRequestId(v: VoucherRequest): string
  {
    v.id
  }

  datatype Queues = Queues(pointRequests: seq<PointRequest>, voucherRequests: seq<VoucherRequest>,
                           challengeSubmissions: seq<Submission>)

  datatype State = State(users: seq<User>, profile: Profile, queues: Queues, challenges: seq<Challenge>)

  /** Sum of the points booked in a ledger. */
  function LedgerSum(l: seq<LedgerEntry>): int
  {
    if |l| == 0 then 0 else l[0].points + LedgerSum(l[1..])
  }

  /** Sum of the totals in a user list. */
  function TotalOf(us: seq<User>): int
  {
    if |us| == 0 then 0 else us[0].totalPoints + TotalOf(us[1..])
  }

  /** How many users of the list carry key `k`. */
  function CountKey(us: seq<User>, key: User -> string, k: string): nat
  {
    if |us| == 0 then 0 else (if key(us[0]) == k then 1 else 0) + CountKey(us[1..], key, k)
  }

  // ===== Seed data =====

  const PushUps := Challenge("c1", "30 Liegestütze in 1 Minute", "Schaffe 30 Push-ups innerhalb einer Minute.",
                             30, "2025-09-10", "2025-09-20")

  const SeedUsers: seq<User> := [
    User("u1", "Max", "Mustermann", "max@example.com", 162),
    User("u2", "Erika", "Muster", "erika@example.com", 176),
    User("u3", "Luca", "Bernasconi", "luca@example.com", 210),
    User("u4", "Samira", "Khan", "samira@example.com", 140)
  ]

  const SeedProfile := Profile(
    "u1", "Max Mustermann", "max@example.com", 162,
    [ LedgerEntry("l1", "2025-09-01", 50, "NEW_CLIENT", "Anna geworben"),
      LedgerEntry("l2", "2025-09-03", 1, "TRAINING", "Montag") ],
    [ Voucher("v1", "CHF 50", Redeemed, "SN-50A1", "2025-03-02", "2026-03-02") ])

  const SeedQueues := Queues(
    [ PointRequest("pr1", "Max Mustermann", "TRAINING", "2025-09-10", "Abend-Session", Pending) ],
    [ VoucherRequest("rq1", "Max Mustermann", "CHF 100", 150, Requested) ],
    [ Submission("cs1", "Max Mustermann", PushUps, Pending) ])

  const Seed := State(SeedUsers, SeedProfile, SeedQueues, [PushUps])
}
