# Bonus claims, pagination, error taxonomy and admin queries — a Dafny model

This project models the core of a multi-currency wallet API:

- **The bonus claim engine** (`claimBonus` and its two best-effort wrappers). It decides whether a user may claim a bonus policy. The policy must exist and be active. The user's claim count must be below `max_claims`. The cooldown measured from the user's most recent claim must have passed: a 86400-second cooldown resets at midnight in UTC+9 (KST), and any other cooldown is a rolling window. On success the engine credits the wallet with the policy amount and records a claim linked to that credit.
- **Pagination**: clamping `page` and `limit`, the row offset, and the `{ data, pagination }` envelope with its page count.
- **The two error taxonomies**: the shared package's nine kinds with `toJSON`, and the API's seven kinds. Each kind has an HTTP status, a code and a default message. The two packages default messages differently.
- **Admin query construction**: the numbered `$n` SET clause of a bonus-policy update, the guards of a role change, and the filter and LIMIT/OFFSET parameters of the user and sponsorship-order listings.

Time is an integer number of milliseconds, and the clock reading is the parameter `now`. A KST calendar date is the day number `(t + 9h) / 24h`. Dafny's division floors for a positive divisor, as the date part of `toISOString()` does.

The wallet service is not part of this model. Its credit is an entry appended to a journal (`ledger`), whose position is the transaction id, and its refusal is the parameter `creditError`. `BonusEngine.ClaimBonus` follows the source's steps in order and is proved equal to the pure `Step`. The properties are proved about `Step`, `Eligibility` and `CooldownBlock`.

Some details of the code that the model keeps as written:
- The rolling window compares elapsed milliseconds with `cooldown_seconds * 1000`.
- The idempotency key is built from the clock reading (`bonus_<code>_<user>_<now>`), not from an attempt counter.
- A null cooldown never refuses, so only `max_claims` can then limit a policy.
- No uniqueness constraint on claims appears in the code, so two concurrent claims are not turned into refusals.

## Model

| member | source | states |
|---|---|---|
| `BonusService.NextKstMidnight` | apps/api/services/bonusService.js:56-59 | the next KST midnight is strictly after `now`, at most 24 h later, on the following KST date, and lands on a day boundary once 9 h are added |
| `BonusService.NextKstMidnightIsLeast` | apps/api/services/bonusService.js:56-59 | no KST midnight lies strictly between `now` and `next_available_at` |
| `BonusService.SameKstDateUntilMidnight` | apps/api/services/bonusService.js:51-55 | every instant from `now` up to the next midnight has the same KST date as `now` |
| `BonusService.CooldownBlock` | apps/api/services/bonusService.js:39-71 | no cooldown or no prior claim never refuses. A daily cooldown refuses exactly on the same KST date, until the next midnight. Any other cooldown refuses exactly while `now - last < cooldown*1000`, until `last + cooldown*1000`. The refusal time is always after `now` |
| `BonusService.KstDate` | apps/api/services/bonusService.js:51-54 | the KST date of `t` is the day number whose 24-hour span contains `t + 9h` |
| `BonusService.Decide` | apps/api/services/bonusService.js:15-46 | an absent or inactive policy gives policy_not_found. Otherwise, counting only this user's claims on this policy: max_claims_reached, with no next-available time, exactly when the count reaches `max_claims`; else cooldown_active exactly when the cooldown from the latest of those claims blocks, with its next-available time; else eligible |
| `BonusService.Eligibility` | apps/api/services/bonusService.js:14-71 | the first failing check wins: policy_not_found exactly when the policy is absent; max_claims_reached exactly when `max_claims` is set and the count reaches it; otherwise cooldown_active exactly when the cooldown blocks, carrying its next-available time; never `error` |
| `BonusService.UnlimitedNeverMaxedOut` | apps/api/services/bonusService.js:27-37 | a null `max_claims` never refuses for the claim count |
| `BonusService.DailyIsCalendarReset` | apps/api/services/bonusService.js:49-62 | under its quota, a daily policy is eligible if and only if the last claim was on a different KST date, however close in time |
| `BonusService.NextAvailableIsExact` | apps/api/services/bonusService.js:49-68 | with no new claim, every attempt before `next_available_at` gets the same refusal, and an attempt at `next_available_at` is eligible |
| `BonusService.ClaimsFor` | apps/api/services/bonusService.js:29-31 | the history of a pair holds exactly the stored claims with that user and policy, and is no longer than the whole history |
| `BonusService.LatestClaimTime` | apps/api/services/bonusService.js:41-46 | the most recent claim time belongs to some claim of the history and is at least every claim's time; it is absent exactly when there are no claims |
| `BonusService.ClaimsForAppend` | apps/api/services/bonusService.js:87-91 | recording a claim extends the history of its own pair by that claim and leaves every other pair's history unchanged |
| `BonusService.ActivePolicy` | apps/api/services/bonusService.js:15-21 | a policy is found exactly when its code is stored and it is active |
| `BonusService.Step` | apps/api/services/bonusService.js:9-100 | a refusal returns the decision's reason and time and changes nothing. A refused credit throws and changes nothing. A grant happens exactly when eligible and the wallet accepts. It journals one credit of the policy amount in its currency with reference `bonus:<code>`, appends one claim linked to that transaction, and returns amount and currency |
| `BonusService.BestEffort` | apps/api/services/bonusService.js:103-120 | a resolved claim is passed through, and an exception becomes `{granted:false, reason:'error'}` |
| `BonusService.StepPreservesValid` | apps/api/services/bonusService.js:75-91 | every attempt keeps transaction ids equal to journal positions, and keeps each claim pointing at its own distinct credit to the same user |
| `BonusService.GrantCreditsExactlyAmount` | apps/api/services/bonusService.js:77-85 | a grant raises the claimant's balance in the policy currency by exactly the policy amount, and every other balance, and every balance after a non-grant, is unchanged |
| `BonusService.GrantExtendsOnlyOwnHistory` | apps/api/services/bonusService.js:87-91 | after a grant the claimant's history for that policy gains exactly the new claim, and all other histories are unchanged |
| `BonusService.OtherUsersUnaffected` | apps/api/services/bonusService.js:28-46 | one user's claim attempt never changes any other user's eligibility for any policy |
| `BonusService.DailyScenario` | apps/api/services/bonusService.js:49-62 | 23:59:59 then 00:00:01 KST the next day: allowed. 10:00 then 14:00 the same day: refused until the next KST midnight |
| `BonusService.RollingScenario` | apps/api/services/bonusService.js:63-68 | with a 3600 s cooldown, an attempt 3599 s after a claim is refused until claim + 3600 s, and one at 3601 s is allowed |
| `BonusService.MaxClaimsScenario` | apps/api/services/bonusService.js:27-37 | with `max_claims = 3`, four attempts in a row grant three times and refuse the fourth with max_claims_reached, leaving the state as it was |
| `BonusService.BonusEngine.Credit` | apps/api/services/bonusService.js:77-85 | the credit appends exactly one transaction, at the next journal position, and changes no claim or policy |
| `BonusService.BonusEngine.ClaimBonus` | apps/api/services/bonusService.js:9-100 | the result and the new claim list and journal are those of `Step` on the old state, the policies are unchanged, and the state stays valid |
| `BonusService.BonusEngine.GrantSignupBonus` | apps/api/services/bonusService.js:103-110 | claims the `signup` policy with the state change of `Step`, and answers `error` instead of throwing |
| `BonusService.BonusEngine.CheckDailyVisitBonus` | apps/api/services/bonusService.js:113-120 | claims the `daily_visit` policy with the state change of `Step`, and answers `error` instead of throwing |
| `Pagination.ParsePagination` | packages/common/pagination.js:1-6 | `page >= 1`, with missing, NaN, 0 or negative giving 1. `1 <= limit <= 100`, with missing, NaN or 0 giving 20, negative giving 1 and above 100 giving 100. In-range values are kept, and `offset = (page-1)*limit >= 0` |
| `Pagination.TotalPages` | packages/common/pagination.js:15 | the page count is the ceiling of `total/limit`: the pages hold every row, the last page is not empty, and 0 rows give 0 pages |
| `Pagination.TotalPagesIsLeast` | packages/common/pagination.js:15 | no smaller number of pages holds every row |
| `Pagination.PageWithinTotal` | packages/common/pagination.js:4-15 | a page's offset lies inside the result set exactly when its number is at most the page count |
| `Pagination.PaginatedResponse` | packages/common/pagination.js:8-18 | rows are returned unchanged as `data`, and `page`, `limit` and `total` are echoed with a ceiling page count |
| `Pagination.FormatPaginatedResponse` | packages/common/pagination.js:20-22 | the positional form gives the same envelope as `paginatedResponse`: the same data, the echoed fields and the ceiling page count, which is 0 for no rows |
| `CommonErrors.StatusOf` | packages/common/errors.js:18-79 | every kind answers a 4xx status |
| `CommonErrors.CodeOf` | packages/common/errors.js:18-79 | no kind uses the base code `INTERNAL_ERROR` |
| `CommonErrors.DefaultMessage` | packages/common/errors.js:18-79 | every default message is non-empty |
| `CommonErrors.NewAppError` | packages/common/errors.js:2-8 | status defaults to 500 and code to `INTERNAL_ERROR` only when omitted; given values are kept |
| `CommonErrors.NewValidationError` | packages/common/errors.js:18-22 | 400/`VALIDATION_ERROR`; a falsy message becomes the default 'Validation failed' and a truthy one is kept; truthy details are kept and falsy or absent details become null |
| `CommonErrors.NewError` | packages/common/errors.js:18-79 | each kind has its class name, status and code. An absent or empty message becomes the kind's default, so the message is never empty. Only a validation error has `details`, and it defaults to null |
| `CommonErrors.ToJSON` | packages/common/errors.js:10-31 | the body is `{error: code, message}`, with `details` added exactly when the error has truthy details |
| `CommonErrors.KindOfCode` | packages/common/errors.js:18-79 | a code maps back only to a kind that has that code |
| `CommonErrors.KindOfCodeRoundTrip` | packages/common/errors.js:18-79 | every kind's code maps back to that kind |
| `CommonErrors.CodesDistinct` | packages/common/errors.js:18-79 | codes are pairwise distinct, although 400 and 429 are each shared by two kinds |
| `CommonErrors.RenderedBodyIdentifiesKind` | packages/common/errors.js:10-79 | the rendered body of any kind's error identifies the kind by its `error` field and has no `details` |
| `CommonErrors.ValidationDetailsRendered` | packages/common/errors.js:18-31 | a validation error's body has `details` if and only if truthy details were given |
| `ApiErrors.StatusOf` | apps/api/utils/errors.js:9-49 | every API error kind has a 4xx status |
| `ApiErrors.CodeOf` | apps/api/utils/errors.js:9-49 | no API error kind carries the base code `INTERNAL_ERROR` |
| `ApiErrors.DefaultMessage` | apps/api/utils/errors.js:9-49 | every API error kind has a non-empty default message |
| `ApiErrors.NewAppError` | apps/api/utils/errors.js:1-7 | status defaults to 500 and code to `INTERNAL_ERROR` only when omitted |
| `ApiErrors.NewError` | apps/api/utils/errors.js:9-49 | each kind has its 4xx status and its code. The default message applies only to an omitted message, so an empty message is kept |
| `ApiErrors.ToCommonKind` | apps/api/utils/errors.js:9-49 | every API kind has the same status and code as the shared kind of the same name, which is never the validation or rate-limit kind |
| `ApiErrors.CodesDistinct` | apps/api/utils/errors.js:9-49 | the seven API codes are pairwise distinct |
| `ApiErrors.SharedDefaultMessages` | apps/api/utils/errors.js:9-49 | the two packages share the default message exactly for bad request, insufficient funds and the daily limit |
| `ApiErrors.EmptyMessageDiverges` | apps/api/utils/errors.js:9-49 | an empty message is kept here but replaced in the shared package, and an omitted one is defaulted to a non-empty message |
| `AdminController.Supplied` | apps/api/controllers/v1/admin.js:156-173 | the fields set are exactly the supplied ones, each with its value, in the order amount, cooldown_seconds, is_active; none supplied gives none |
| `AdminController.CollectPolicyFields` | apps/api/controllers/v1/admin.js:158-173 | the i-th supplied field gets placeholder `$(i+1)` and the i-th parameter is its value; the next placeholder is `$(k+1)` |
| `AdminController.UpdateBonusPolicy` | apps/api/controllers/v1/admin.js:153-191 | no supplied field answers 400 'No fields to update' and issues no update. Otherwise there are k assignments `$1..$k`, k+1 parameters, and the id is bound to `$(k+1)`. Each placeholder binds its own value. No matched row answers 404 'Policy not found' |
| `AdminController.UpdateUserRole` | apps/api/controllers/v1/admin.js:63-86 | a role other than admin or player answers 400 first. Then the caller's own id answers 400 'Cannot change your own role'. An update `[role, id]` is issued exactly when both guards pass, and no matched row answers 404 |
| `AdminController.PageQuery` | apps/api/controllers/v1/admin.js:44-54 | the page parameters are the filter parameters followed by limit and offset, and LIMIT is `$(n+1)` and OFFSET `$(n+2)` |
| `AdminController.UsersQuery` | apps/api/controllers/v1/admin.js:29-55 | a non-empty search becomes the single parameter `%term%` of the search clause, and an absent or empty one adds no clause. The count and page statements share the clause and the filter parameters |
| `AdminController.SponsorshipOrdersQuery` | apps/api/controllers/v1/admin.js:90-116 | a non-empty status filters on that status, and an absent or empty one adds no clause. LIMIT and OFFSET follow the filter |
| `AdminController.Users` | apps/api/controllers/v1/admin.js:27-61 | an empty or absent `search` adds no filter; a non-empty one matches email or display name against `%search%` (ILIKE) as `$1`, shared by the count. The listing binds the clamped limit and offset after the filter and wraps the rows with the filtered total and its ceiling page count, 0 for no rows |
| `AdminController.SponsorshipOrders` | apps/api/controllers/v1/admin.js:88-121 | an empty or absent `status` adds no filter; a non-empty one filters on `status = $1`, shared by the count. The listing binds the clamped limit and offset after the filter and wraps the rows with the filtered total and its ceiling page count, 0 for no rows |

## Left out

- Pagination.PaginatedResponse: requires `limit >= 1`. With a limit of 0, JavaScript computes an infinite or NaN page count. Every caller passes a limit from `ParsePagination`, which is at least 1.
- Pagination.FormatPaginatedResponse: requires `limit >= 1`, for the same reason.
- AdminController.Users / AdminController.SponsorshipOrders: the controller imports its pagination helpers from the API's own `utils/pagination` module, which is not part of this model. The model assumes that module behaves like `packages/common/pagination.js` (the same clamping, offset and ceiling page count). The claim above that every caller passes a limit from `ParsePagination` rests on the same assumption.
- Pagination.ParsePagination: `parseInt` is taken as already applied. Its result is an optional integer, with `None` for NaN.
- The wallet service (`userWalletService`) is not part of this model. Its balances, insufficient-funds and daily-limit rules and idempotency-key deduplication are not modelled. A credit is an appended journal entry, and the wallet's refusal is an input.
- `grantSignupBonus` and `checkDailyVisitBonus` log the caught error with `console.error` before answering `error`. Logging is I/O and is not modelled.
- The source reads `Date.now()` once for the cooldown check and again for the idempotency key. The model uses a single clock reading `now` for both, so a millisecond that passes between the two reads is not modelled.
- Concurrency: eligibility is committed before the credit and the claim insert, which leaves room for two concurrent claims to both pass. The model runs one claim attempt as one sequential step.
- Database failures of the policy, count, latest-claim and insert queries (I/O) are not modelled. Only the wallet's refusal throws.
- The claim's `claimed_at` is a database default that is not shown. The model takes it to be the same clock reading `now`.
- BonusService.CooldownBlock: the source divides elapsed milliseconds by 1000 in floating point. The model compares exact integers, `now - last < cooldown*1000`. Floating-point rounding is not modelled.
- BonusService.KstDate: the date part of `toISOString()` is taken as the day number. Six-digit years and the `RangeError` thrown for out-of-range dates are not modelled.
- The daily case is selected by `cooldown_seconds === 86400`. The model assumes the database returns the column as a JavaScript number.
- JavaScript numbers are unbounded integers here. Precision loss above 2^53 in timestamps, amounts and offsets is not modelled.
- BonusService.StepPreservesValid: proved for a journal that gives every grant a fresh transaction. The key `bonus_<code>_<user>_<now>` repeats for two grants of one code to one user in the same millisecond. If the wallet deduplicates by that key, the second grant would not get a fresh transaction, and two claims could share one credit. The wallet's handling of the key is not modelled.
- BonusService.GrantCreditsExactlyAmount: proved under the same fresh-transaction journal. It does not cover a repeated idempotency key within one millisecond.
- The idempotency key and the SQL text are kept as their parts. The string formatting of `bonus_<code>_<user>_<now>` and of the SET clause is not rendered.
- The error classes' `message` of `null` (which JavaScript renders as the string "null"), `Error.captureStackTrace` and stack traces are not modelled. An omitted argument is `None`.
- The error-handling middleware, which maps an error to its status and body, is not part of this model.
- `updateUserRole` compares the path id with the caller's id as strings. The authentication middleware that sets the caller identity is not part of this model.
- `stats`, `deleteExpense` and `bonusPolicies` in the admin controller only run fixed SQL statements and are not modelled.
- Query values given as arrays (repeated query keys) are not modelled. `search` and `status` are optional strings.
