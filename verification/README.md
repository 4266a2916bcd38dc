# Bonus programme rule engine — a Dafny model

The bonus programme lets users earn points for training activities. Point
totals reach tiers that pay out cash vouchers or a free private training.
Administrators approve point requests and challenge submissions, issue
voucher codes, and book or adjust points directly. All of this logic lives in
`components/BonusApp.tsx`; the rest of that file and the repository is
presentation.

This project models that logic:

- `util.dfy` — module `SeqUtil`. The array operations the handlers rely on:
  `find` (first match), `filter`, and "sort ascending, take `[0]`" (the
  minimum).
- `rules.dfy` — module `Rules`. The `POINT_RULES` activity table, the
  `LEVELS` tier table, `LEVEL_BADGE`, and the dashboard's next-threshold and
  remaining-points calculation.
- `state.dfy` — module `AppState`. Users, ledger entries, vouchers, the
  mirrored profile, the three approval queues, challenges, and the seed data.
- `handlers.dfy` — module `Handlers`. `approvePR`, `rejectPR`,
  `approveChallenge`, `issueVoucher`, `grantPoints`, `adjustPoints`,
  `submitChallenge` and `createChallenge`, each as a pure `State -> State`
  function.
- `properties.dfy` — module `Properties`. Lemmas about sequences of handler
  calls. Approvals and grants raise the profile total and the ledger sum
  together; an adjustment moves the total alone. Credits reach
  exactly the matched users. Approvals and rejections are one-shot. The
  profile keeps mirroring its row of the user list.

The handlers match users the same way the source does. Queue items refer to a
user by the string `firstName + " " + lastName` (`FullName`). The profile is
matched by its `name` in `approvePR`, `approveChallenge` and `grantPoints`,
and by its `id` in `adjustPoints`. Fresh ids come from `Math.random` in the
source and today's date from `new Date()`; in the model both are parameters
(`freshId`, `today`).

Two behaviours of the source are modelled as written:

- `adjustPoints` clamps the profile total at zero but not the user-list
  total. `Properties.SeedAdjustClamps` shows the two views disagreeing
  afterwards.
- `issueVoucher` does not check that the request exists.
  `Properties.IssueVoucherTwice` shows that issuing twice leaves two
  vouchers.

The seed profile's ledger sums to 51 while its total is 162. So the model
does not claim `totalPoints == sum(ledger)`. It tracks the difference
(`Drift`) instead. `approvePR`, `approveChallenge` and `grantPoints` preserve
it. `rejectPR`, `issueVoucher`, `submitChallenge` and `createChallenge` touch
neither the total nor the ledger. `adjustPoints` writes no ledger entry, so
it moves the difference by the delta whenever the clamp does not fire
(`Properties.AdjustPointsShiftsDrift`).

## Model

| member | source | states |
|---|---|---|
| Rules.ParseKey | components/BonusApp.tsx:32-38 | looking a key up in the rule table yields the activity filed under exactly that key, and nothing for a key that is not in the table |
| Rules.Points | components/BonusApp.tsx:32-38 | the fixed point value of each activity, between 1 and 75 |
| Rules.PointsByKey | components/BonusApp.tsx:32-38 | looking each key up gives its value: TRAINING 1, NEW_CLIENT 50, COMPANY_TRAINING 75, PRIVATE_TRAINING 10, SPECIAL_EVENT 5 |
| Rules.KeyRoundTrip | components/BonusApp.tsx:32-38 | every activity is found again under its own key, and under no other key |
| Rules.LevelsTiling | components/BonusApp.tsx:40-45 | the tiers [100,149], [150,199], [200,249], [250,∞) follow each other without gap or overlap; only the top tier is unbounded |
| Rules.TilingCovers | components/BonusApp.tsx:40-45 | a gapless tier table holds a total in some tier exactly when the total is at least the first tier's minimum |
| Rules.TilingDisjoint | components/BonusApp.tsx:40-45 | in a gapless tier table no total lies in two tiers |
| Rules.LevelBadge | components/BonusApp.tsx:47 | the badge is a tier of the table whose range holds the total; there is no badge exactly when no tier holds it |
| Rules.LevelBadgeExactlyOne | components/BonusApp.tsx:40-47 | a total has a badge if and only if it is at least 100, and the badge is the one tier whose range holds it |
| Rules.LevelBadgeRanges | components/BonusApp.tsx:40-47 | the badge agrees with plain range comparisons against 100/150/200/250; 162 earns "CHF 100" |
| Rules.NextThreshold | components/BonusApp.tsx:134-139 | the threshold is a tier minimum above the total and no larger than any other minimum above it; with no minimum above, it is the total itself |
| Rules.NextThresholdTable | components/BonusApp.tsx:134-139 | the threshold equals the first of 100, 150, 200, 250 above the total, or the total from 250 on |
| Rules.Remaining | components/BonusApp.tsx:141 | the remaining points are never negative, zero exactly when the total is at least 250, at most 100 for non-negative totals, and at most 50 once a tier is reached |
| Rules.RemainingTable | components/BonusApp.tsx:134-141 | the remaining points are 100, 150, 200 or 250 minus the total, whichever is the first tier minimum above it, and 0 from 250 on |
| Rules.NextThresholdIsNextTier | components/BonusApp.tsx:134-141 | progress targets the tier right above the current badge (the first tier below 100, the total itself from 250); 162 needs 38 to reach 200 |
| Handlers.ApprovePR | components/BonusApp.tsx:709-717 | an unknown id changes nothing, and so does a request whose key has no rule; otherwise exactly the users whose full name is the request's user gain the activity's points, a profile with that name gets the same credit plus one ledger entry with those points under the request's key, all requests with the id leave the queue, and the other queues and the catalogue stay as they were |
| Handlers.RejectPR | components/BonusApp.tsx:718 | the requests with the id leave the queue; the users, the profile, the other queues and the catalogue stay as they were |
| Handlers.ApproveChallenge | components/BonusApp.tsx:721-730 | an unknown submission changes nothing; otherwise the users named like the submitter gain the challenge's points, a profile with that name gets one "SPECIAL_EVENT" entry with those points and a note naming the challenge, and the submission leaves its queue |
| Handlers.IssueVoucher | components/BonusApp.tsx:733-736 | no voucher request with the id remains, and the profile gains exactly one voucher, issued, with the given code; users and the other queues stay as they were |
| Handlers.GrantPoints | components/BonusApp.tsx:739-745 | an unknown user id changes nothing; otherwise exactly the users with the id gain the points, and the profile gets the same credit plus one ledger entry exactly when the first such user bears the profile's name |
| Handlers.AdjustPoints | components/BonusApp.tsx:756-759 | users with the id change by the delta without bound; a profile with the id ends at the larger of zero and total plus delta, so never negative; no ledger entry is written |
| Handlers.SubmitChallenge | components/BonusApp.tsx:762-765 | an unknown challenge id changes nothing; otherwise exactly one pending submission of that challenge by the profile's user is appended and nothing else changes |
| Handlers.CreateChallenge | components/BonusApp.tsx:766 | the catalogue gains the challenge at its end and nothing else changes; its id can then be submitted, and a new id finds this very challenge |
| Handlers.CreditWhere | components/BonusApp.tsx:715 | the users carrying the key, and only those, gain the points; the list keeps its length and every other field |
| Properties.BookedKeepsDrift | components/BonusApp.tsx:713 | booking an entry raises total and ledger sum by the same amount |
| Properties.ApprovePRKeepsDrift | components/BonusApp.tsx:709-717 | approving a request keeps the profile's total minus ledger sum unchanged |
| Properties.ApproveChallengeKeepsDrift | components/BonusApp.tsx:721-730 | approving a challenge keeps the profile's total minus ledger sum unchanged |
| Properties.GrantPointsKeepsDrift | components/BonusApp.tsx:739-745 | a direct grant keeps the profile's total minus ledger sum unchanged |
| Properties.AdjustPointsShiftsDrift | components/BonusApp.tsx:756-759 | an unclamped adjustment of the profile moves its total minus ledger sum by the delta |
| Properties.GainedSum | components/BonusApp.tsx:715 | crediting the users with a key raises the sum of totals by the points times the number of such users |
| Properties.ApprovePRUserTotal | components/BonusApp.tsx:709-717 | approving a request raises the sum of user totals by the activity's points once per user with the request's name, and by nothing when the key has no rule |
| Properties.ApproveChallengeUserTotal | components/BonusApp.tsx:721-730 | approving a challenge raises the sum of user totals by its points once per user with the submitter's name |
| Properties.GrantPointsCreditsOne | components/BonusApp.tsx:739-745 | with unique ids, a grant to an existing user credits that user and no other, so the sum of totals rises by exactly the points |
| Properties.ApprovePRTwice | components/BonusApp.tsx:709-717 | approving the same request twice has the effect of approving it once |
| Properties.RejectPRTwice | components/BonusApp.tsx:718 | rejecting the same request twice has the effect of rejecting it once |
| Properties.RejectThenApprove | components/BonusApp.tsx:709-718 | a rejected request can no longer be approved |
| Properties.ApproveChallengeTwice | components/BonusApp.tsx:721-730 | approving the same submission twice has the effect of approving it once |
| Properties.IssueVoucherTwice | components/BonusApp.tsx:733-736 | issuing the same request id twice appends two issued vouchers, one per code, while the second call leaves the queues as the first left them |
| Properties.CreateThenSubmit | components/BonusApp.tsx:762-766 | a challenge created under a new id can be submitted, and the queued submission carries that very challenge |
| SeqUtil.WithoutKeyAppendDrop | components/BonusApp.tsx:729 | dropping a key from a list whose only element with that key was just appended gives back the list before, in the same order |
| Properties.SubmitThenApprove | components/BonusApp.tsx:762-765 | submitting a challenge under a fresh id and approving it books the challenge's points on the profile as one special-event entry and leaves the submission queue exactly as it was, order included |
| Properties.ApprovePRKeepsSynced | components/BonusApp.tsx:709-717 | when the profile mirrors its row of the user list, approving a request keeps it so |
| Properties.ApproveChallengeKeepsSynced | components/BonusApp.tsx:721-730 | when the profile mirrors its row, approving a challenge keeps it so |
| Properties.GrantPointsKeepsSynced | components/BonusApp.tsx:739-745 | when the profile mirrors its row, a direct grant keeps it so |
| Properties.AdjustPointsKeepsSynced | components/BonusApp.tsx:756-759 | the mirror survives an adjustment whenever the profile's clamp does not fire |
| Properties.OtherHandlersKeepSynced | components/BonusApp.tsx:718-766 | rejecting, issuing, submitting and creating challenges keep the mirror |
| Properties.SeedSynced | components/BonusApp.tsx:83-105 | the seed profile mirrors user u1 |
| Properties.SeedApprovePR | components/BonusApp.tsx:709-717 | approving the seeded training request takes Max from 162 to 163 with a "TRAINING" entry of 1 point and empties the queue |
| Properties.SeedApproveChallenge | components/BonusApp.tsx:721-730 | approving the seeded push-up challenge takes Max from 162 to 192 with a note naming the challenge and empties the queue |
| Properties.SeedIssueVoucher | components/BonusApp.tsx:733-736 | issuing "SN-1234" for the seeded request adds one issued voucher with that code and empties the queue |
| Properties.SeedAdjustClamps | components/BonusApp.tsx:756-759 | taking 500 from Max clamps the profile at 0 while the user list shows -338, so the mirror breaks |

## Left out

- The React components, dialogs, tables, tabs, login screen and `components/ui/`: presentation only. The voucher dialog only calls `issueVoucher` with a non-empty code (components/BonusApp.tsx:489). The handler itself accepts any code, and so does the model.
- The `Ring` progress arc: floating-point geometry with `Math.PI`.
- `lib/db.ts`: asynchronous I/O against a database client that is not part of this model.
- Random ids and the current date: these are parameters. The 12-month voucher validity is not computed. The model writes the source's fixed expiry literal.
- Level colours, the activity labels of `POINT_RULES` and the display palette: presentation.
- `updateUser`, `resetPassword`, the admin search filter, authentication and the role switch: view-level string handling and mock code with no stated behaviour.
- Numbers are unbounded integers. JavaScript's doubles, `NaN` from `parseInt` and fractional totals are not modelled.
- Handlers.ApprovePR: a request key that names a member every plain JavaScript object inherits (`constructor`, `toString`, `__proto__`, …) does not make the point lookup fail in the source. There the points are `undefined`, the totals become `NaN` and the request still leaves the queue. The model has no `NaN` and treats such a key like any other unknown key, leaving the state unchanged.
- Handlers.ApprovePR: removal from the queue is stated by membership and by the length not growing. The order of the remaining requests is not stated.
- Handlers.RejectPR: removal is stated by membership and length, not by order.
- Handlers.ApproveChallenge: removal is stated by membership and length, not by order.
- Handlers.IssueVoucher: removal is stated by membership and length, not by order.
