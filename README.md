# Splitora core, modelled in Dafny

Splitora is a web application for sharing subscription plans. A host offers the open seats of a family or group plan, and other users join the group. This project models the parts of the application that carry rules:

- **The referral ledger and tier-reward engine** (`referral_service.dfy`).
  - The class `ReferralLedger` owns three tables: profiles (id and optional referral code), referrals and rewards.
  - Every table-reading or table-changing service operation is one of its methods; `getNextTier` is the pure function `NextTier`. Each table-changing method is proved to implement a pure step function on a `Tables` value; the statistics query states its results directly against filters of the tables. The properties are proved as lemmas about those step functions: the table invariant is kept, a referral is completed at most once, and a tier bonus is held at most once.
  - Money is integer cents: the 5.00 signup reward and the 10.00 / 25.00 / 50.00 tier bonuses at 3, 5 and 10 completed referrals.
  - A table read that ends in `.single()` succeeds only when exactly one row matches. With zero or with several matches it yields an error or no data, as the store does.
- **The fixed-window rate limiter** (`rate_limit.dfy`). The class `RateLimiter` holds the map from client key to window.
  - `Check` counts one request and rejects it, with status 429 and `Retry-After`, past sixty requests per minute.
  - `Sweep` deletes the windows that have run out.
- **The request middleware** (`middleware.dfy`). Rate limiting runs first. Then come the public-path test and the session-cookie test, the redirects to `/signin` and `/explore`, and the seven security headers.
- **The create-group wizard** (`create_group.dfy`). The class `CreateGroupPage` holds the handler state: selected provider and plan, remaining spaces, location, error, loading flag, and the rows created. It covers the validation of the submit handler and the group and activity records it builds.
- **The service catalogue** (`service_presets.dfy`). This is the constant provider and plan table, with prices in cents. Its structural facts are proved: distinct ids, plan ids prefixed by their provider's id, and 2 to 8 members per plan. The provider-then-plan lookup is modelled too.
- **The referral-code backfill script** (`referral_code_backfill.dfy`). Its loop over a snapshot of the profiles runs against the same `ReferralLedger`.

Helper modules: `common.dfy` (Option, Result), `seqs.dfy` (filter, count, reverse and first index over sequences, with their lemmas), `decimal.dfy` (integer to decimal text and back).

Inputs: clock readings (`now`), random referral codes, new row ids and the outcome of each remote write the model takes into account are all method parameters. Referral and reward ids, and the `created_at` order, come from a counter `nextId` in the tables.

## Notes on the code

- `generateReferralCode` only reads the stored code; it does not create one.
- `createReferralFromCode` does not refuse a user who already has a referral.
- The service writes the reward types `SIGNUP` / `TIER_n` and the status `PENDING`, not the strings of the `ReferralReward` type in `src/lib/types.ts`.

## Model

| member | source | states |
|---|---|---|
| ReferralService.TierReached | src/lib/referralService.ts:118-127 | a tier is attempted exactly when the completed count is at least 3, and it is the highest tier whose threshold the count reaches |
| ReferralService.NextTier | src/lib/referralService.ts:197-223 | null exactly when completed ≥ 10; otherwise the lowest tier whose threshold is above the count, with completed + referralsNeeded equal to that threshold, referralsNeeded ≥ 1 and the tier's display name |
| ReferralService.NextTierBands | src/lib/referralService.ts:197-223 | the four bands written out: ≥10 null, 5..9 TIER_3 needing 10−c, 3..4 TIER_2 needing 5−c, below 3 TIER_1 needing 3−c; c = 3 gives TIER_2 needing 2 |
| ReferralService.NextTierIsAttemptedOnArrival | src/lib/referralService.ts:107-128 | completing the advertised number of further referrals makes the tier check attempt exactly the advertised tier |
| ReferralService.KindCodesDistinct | src/lib/referralService.ts:143-152 | the `type` strings written for the signup reward and the three tier bonuses are pairwise different |
| ReferralService.DashboardShowsAwardedBonus | src/components/ReferralDashboard.tsx:110 | for every tier the dashboard's bonus text equals the tier's awarded amount in cents written as dollars |
| ReferralService.DashboardBonusText | src/components/ReferralDashboard.tsx:110 | the bonus written on the dashboard for a tier code, a five-character dollar amount; DashboardShowsAwardedBonus ties it to the awarded bonus |
| ReferralService.ReferralCodeOf | src/lib/referralService.ts:14-27 | fails with the code error exactly when the profile id does not match exactly one profile; otherwise returns that profile's stored, possibly absent, code |
| ReferralService.InsertReferral | src/lib/referralService.ts:41-57 | appends exactly one pending referral from referrer to referred user, with reward 500 cents and a fresh id, and changes no other table |
| ReferralService.CreateReferralStep | src/lib/referralService.ts:29-57 | refuses with "User already has a referral", tables unchanged, exactly when one referral of the referred user exists; otherwise appends one pending 5.00 referral |
| ReferralService.CreateFromCodeStep | src/lib/referralService.ts:225-253 | fails with "Invalid referral code", inserting nothing, unless exactly one profile holds the code; otherwise appends one pending 5.00 referral whose referrer is that profile |
| ReferralService.MarkCompleted | src/lib/referralService.ts:75-101 | profiles are untouched, the counter advances and exactly one reward row is added; a pending referral becomes completed at `now`, with the signup reward for its referrer right after the old rows |
| ReferralService.AwardTierStep | src/lib/referralService.ts:130-161 | refuses with "Tier … reward already awarded", tables unchanged, exactly when the user holds one reward of that tier; otherwise appends one PENDING tier reward of the given amount |
| ReferralService.CheckTierStep | src/lib/referralService.ts:107-128 | below 3 completions nothing happens; otherwise it makes one attempt, at the highest tier reached and for that tier's bonus (50.00, 25.00 or 10.00), and fails exactly when that tier is already held |
| ReferralService.CompleteStep | src/lib/referralService.ts:60-105 | "Referral not found" exactly when the id does not match one referral, "Referral already completed" exactly when it is completed, both with nothing changed; otherwise the referral is completed and a SIGNUP reward appended, at most one further row follows, and a failed tier award is reported afterwards; which tier row follows is stated by CompletionAwardsReachedTier, CompletionBelowFirstTier and CompletionRetriesHeldTier |
| ReferralService.TierBonusAtMostOnce | src/lib/referralService.ts:130-141 | under the invariant each user holds at most one bonus per tier |
| ReferralService.InsertReferralKeepsInv | src/lib/referralService.ts:41-51 | the insert keeps the table invariant: distinct profile ids, fresh referral ids, completion stamps, chronological rewards, unique tier bonuses |
| ReferralService.CreateReferralStepKeepsInv | src/lib/referralService.ts:29-57 | `createReferral` keeps the table invariant |
| ReferralService.CreateFromCodeStepKeepsInv | src/lib/referralService.ts:225-253 | `createReferralFromCode` keeps the table invariant |
| ReferralService.AwardTierStepKeepsInv | src/lib/referralService.ts:130-161 | `awardTierReward` keeps the invariant, in particular at most one bonus per user and tier |
| ReferralService.CheckTierStepKeepsInv | src/lib/referralService.ts:107-128 | `checkAndAwardTierRewards` keeps the table invariant |
| ReferralService.MarkCompletedKeepsInv | src/lib/referralService.ts:75-101 | the status update and the signup reward keep the table invariant |
| ReferralService.CompleteStepKeepsInv | src/lib/referralService.ts:60-105 | `completeReferral` keeps the table invariant on every path |
| ReferralService.CreateReferralRefusesReferredUser | src/lib/referralService.ts:30-39 | with at most one referral per referred user, `createReferral` refuses exactly when the referred user already has a referral |
| ReferralService.SecondReferralDefeatsSingleCheck | src/lib/referralService.ts:225-253 | `createReferralFromCode` gives an already referred user a second referral, after which `createReferral`'s `.single()` check lets a third through |
| ReferralService.CompleteUnknownReferral | src/lib/referralService.ts:61-69 | under the invariant, "Referral not found" exactly when no referral has the id |
| ReferralService.SecondCompletionFails | src/lib/referralService.ts:71-73 | a second completion of the same id always fails and changes nothing; it fails with "Referral already completed" whenever the first one completed the referral |
| ReferralService.CompletionRetriesHeldTier | src/lib/referralService.ts:104 | a completion that reaches an already held tier fails with that tier's error after the referral was completed and the signup reward inserted |
| ReferralService.CompletionAwardsReachedTier | src/lib/referralService.ts:60-128 | a completion whose new completed count reaches a tier the referrer does not hold succeeds and appends the signup reward followed by that tier's bonus row |
| ReferralService.CompletionBelowFirstTier | src/lib/referralService.ts:60-128 | a completion that leaves the referrer below three completions succeeds and appends the signup reward alone |
| ReferralService.FourthCompletionRetriesTierOne | src/lib/referralService.ts:121-141 | the fourth completion re-attempts TIER_1 and fails with the TIER_1 refusal, and the completion and signup reward stay |
| ReferralService.SetCode | scripts/generateReferralCodes.js:25-28 | updating codes by profile id keeps the table's length and every id |
| ReferralService.SetCodeTouchesOneProfile | scripts/generateReferralCodes.js:25-28 | with distinct ids, the update by id changes exactly the one profile with that id |
| ReferralService.SumAmountsFront | src/lib/referralService.ts:185 | the reward total of a row followed by others is that row's amount plus the others' total |
| ReferralService.SumAmountsReverse | src/lib/referralService.ts:185 | the reward total does not depend on the rows being listed newest first |
| ReferralService.SumAmounts | src/lib/referralService.ts:185 | the reward total of the user's rows; it is never negative when no amount is, and SumAmountsFront and SumAmountsReverse give its order-independence |
| ReferralService.FilterOldestFirst | src/lib/referralService.ts:178-182 | one user's rewards, taken from the chronological table, are still in creation order |
| ReferralService.ReverseNewestFirst | src/lib/referralService.ts:182 | reversing rows in creation order lists them newest first |
| ReferralService.ReferralsSplitByStatus | src/lib/referralService.ts:190 | a user's referrals split into completed and pending ones, so pending = total − completed |
| ReferralService.ReferralLedger.GenerateReferralCode | src/lib/referralService.ts:14-27 | returns what ReferralCodeOf specifies and changes nothing |
| ReferralService.ReferralLedger.InsertPendingReferral | src/lib/referralService.ts:41-57 | keeps the table invariant, and the tables afterwards are those InsertReferral specifies |
| ReferralService.ReferralLedger.CreateReferral | src/lib/referralService.ts:29-57 | result and new tables are those of CreateReferralStep; the invariant is kept |
| ReferralService.ReferralLedger.CreateReferralFromCode | src/lib/referralService.ts:225-253 | result and new tables are those of CreateFromCodeStep; the invariant is kept |
| ReferralService.ReferralLedger.AwardTierReward | src/lib/referralService.ts:130-161 | result and new tables are those of AwardTierStep; the invariant is kept |
| ReferralService.ReferralLedger.CheckAndAwardTierRewards | src/lib/referralService.ts:107-128 | result and new tables are those of CheckTierStep; the invariant is kept |
| ReferralService.ReferralLedger.CompleteReferral | src/lib/referralService.ts:60-105 | result and new tables are those of CompleteStep; the invariant is kept |
| ReferralService.ReferralLedger.UpdateReferralCode | scripts/generateReferralCodes.js:25-28 | profiles become SetCode of the old ones, the other tables are unchanged and the invariant is kept |
| ReferralService.ReferralLedger.GetReferralStats | src/lib/referralService.ts:163-195 | total, completed and pending counts of the user's referrals with pending = total − completed; totalRewards is the sum of all the user's reward amounts; nextTier is NextTier(completed); the rows are exactly the user's rewards, newest first |
| RateLimit.BeforeFirstComma | src/lib/rateLimit.ts:14 | the result is a comma-free prefix of the header, ended by its first comma or by the end of the header |
| RateLimit.ClientKey | src/lib/rateLimit.ts:13-14 | `anonymous` when the header is absent or empty, otherwise the text before the first comma |
| RateLimit.Advance | src/lib/rateLimit.ts:18-28 | an unseen key, or a window whose reset time has strictly passed, becomes count 1 with reset time now + 60000; otherwise the count goes up by one and the reset time stays |
| RateLimit.CeilSeconds | src/lib/rateLimit.ts:35 | the least whole number of seconds covering the milliseconds |
| RateLimit.Reject | src/lib/rateLimit.ts:32-44 | status 429 with a retryAfter that is the ceiling of the remaining window in seconds |
| RateLimit.Decide | src/lib/rateLimit.ts:31-47 | a rejection exactly when the count after the increment exceeds 60 |
| RateLimit.Unexpired | src/lib/rateLimit.ts:53-57 | keeps exactly the windows whose reset time has not strictly passed, with their values |
| RateLimit.RateLimiter.Check | src/lib/rateLimit.ts:11-48 | the store gains this key's advanced window and nothing else; the result is the verdict on that window |
| RateLimit.RateLimiter.Sweep | src/lib/rateLimit.ts:51-57 | the store afterwards is exactly the unexpired part of the old one |
| RateLimit.RequestTouchesOnlyItsKey | src/lib/rateLimit.ts:27-28 | a request leaves every other client's window unchanged |
| RateLimit.ReplayCounts | src/lib/rateLimit.ts:18-28 | requests inside the window opened by the first of them are counted 1, 2, 3, … and the reset time stays the first one's |
| RateLimit.SixtyPerWindow | src/lib/rateLimit.ts:31 | in one window the first sixty requests pass and the sixty-first and every later one is rejected |
| RateLimit.RetryAfterWithinWindow | src/lib/rateLimit.ts:35 | after the reset step the announced wait lies between 0 and 60 seconds |
| RateLimit.HeaderMatchesBody | src/lib/rateLimit.ts:33-42 | the Retry-After header reads back as the body's retryAfter, and the body embeds the same text |
| RateLimit.SweepIsUnobservable | src/lib/rateLimit.ts:50-57 | a sweep changes nothing a later request sees |
| RateLimit.SweepIdempotent | src/lib/rateLimit.ts:53-57 | a second sweep at the same time removes nothing more |
| Decimal.IntToTextRoundTrip | src/lib/rateLimit.ts:41 | the decimal text of an integer reads back as that integer |
| Decimal.IntToText | src/lib/rateLimit.ts:41 | an integer's decimal text as `toString` writes it, never empty; IntToTextRoundTrip reads it back |
| Middleware.Route | src/middleware.ts:26-36 | redirect to /signin exactly for a non-public path without a token, redirect to /explore exactly for a public path with one, and otherwise pass through with the security headers |
| Middleware.Handle | src/middleware.ts:5-36 | the rate limiter counts the request first; its rejection, when there is one, is the response, and otherwise the routing decision is |
| Middleware.NoRedirectLoop | src/middleware.ts:16-33 | following either redirect with the same cookies passes through |
| Middleware.LegalNeedsTrailingSlash | src/middleware.ts:16-21 | `/legal` is not public, and every path under `/legal/` is |
| Middleware.IsPublicPath | src/middleware.ts:16-21 | the public paths, each beginning with `/`; Route and LegalNeedsTrailingSlash state what follows from them |
| Middleware.HasToken | src/middleware.ts:24 | a token is present only when the auth cookie is set to a non-empty value |
| Middleware.SevenSecurityHeaders | src/middleware.ts:42-78 | a passed-through response carries exactly the seven security headers, `X-Frame-Options: DENY`, and the content security policy beginning with `default-src 'self'` |
| CreateGroup.TrimStartDropsLeadingRun | src/app/create/page.tsx:53 | trimming the start drops exactly the leading whitespace |
| CreateGroup.TrimEndDropsTrailingRun | src/app/create/page.tsx:53 | trimming the end drops exactly the trailing whitespace |
| CreateGroup.BlankIffAllTrimmed | src/app/create/page.tsx:53 | a location is blank exactly when all its characters are whitespace |
| CreateGroup.TrimStart | src/app/create/page.tsx:53 | the start of `trim`, never longer than its input; TrimStartDropsLeadingRun says what it drops |
| CreateGroup.TrimEnd | src/app/create/page.tsx:53 | the end of `trim`, never longer than its input; TrimEndDropsTrailingRun says what it drops |
| CreateGroup.Trim | src/app/create/page.tsx:53 | JavaScript `trim`, never longer than its input |
| CreateGroup.IsBlank | src/app/create/page.tsx:53 | `!location.trim()`, true of the empty location; BlankIffAllTrimmed gives it exactly |
| CreateGroup.RangeMessage | src/app/create/page.tsx:48 | the range error naming max − 1, which differs from the location error |
| CreateGroup.Validate | src/app/create/page.tsx:46-56 | no error exactly when 1 ≤ spaces ≤ max − 1 and the location is not blank; the range error comes first and the location error second |
| CreateGroup.SubmitNeedsUserAndPlan | src/app/create/page.tsx:40 | without a user or a selected plan, submitting changes nothing |
| CreateGroup.SubmitKeepsSelection | src/app/create/page.tsx:42-85 | submitting always ends with loading off and keeps the selections and entered details |
| CreateGroup.SubmitRejectsInvalidInput | src/app/create/page.tsx:46-56 | invalid input sets the validation error and creates nothing |
| CreateGroup.SubmitReportsStoreFailure | src/app/create/page.tsx:80-82 | a store failure sets the generic error and stays on the page; a failed activity insert leaves the group created |
| CreateGroup.SubmitCreatesGroup | src/app/create/page.tsx:58-79 | valid input creates one active group named "provider plan", with the plan's size and price, hosted by the user, with the entered spaces and location, then one join activity for it, then moves to /explore |
| CreateGroup.SubmitStep | src/app/create/page.tsx:39-86 | the submit handler's effect on the page; the Submit lemmas above state its cases |
| CreateGroup.NewGroup | src/app/create/page.tsx:59-68 | the inserted group row; SubmitCreatesGroup states its fields |
| CreateGroup.SubmitNamesGroupAfterProvider | src/app/create/page.tsx:39-68 | when the plan was chosen from the selected provider, the group created is named after that provider and that plan, never `undefined` |
| CreateGroup.ActivityRefersToGroup | src/app/create/page.tsx:70-76 | the join activity points at the new group, belongs to its host and describes it |
| CreateGroup.JoinActivity | src/app/create/page.tsx:70-76 | the recorded join activity; ActivityRefersToGroup states its fields |
| CreateGroup.DefaultSpacesInRange | src/app/create/page.tsx:95-98 | the default a plan selection puts in the spaces field passes validation whenever the plan admits two members |
| CreateGroup.CatalogueDefaultsValid | src/app/create/page.tsx:95-98 | for every catalogue plan the default spaces pass validation |
| CreateGroup.CreateGroupPage.SelectProvider | src/app/create/page.tsx:88-93 | sets the provider, clears the plan, sets spaces to 0 and location to US, and changes nothing else |
| CreateGroup.CreateGroupPage.SelectPlan | src/app/create/page.tsx:95-98 | sets the plan and spaces to max − 1, and changes nothing else |
| CreateGroup.CreateGroupPage.BackToServices | src/app/create/page.tsx:149 | clears the provider, and changes nothing else |
| CreateGroup.CreateGroupPage.BackToPlans | src/app/create/page.tsx:197 | clears the plan, and changes nothing else |
| CreateGroup.CreateGroupPage.SetRemainingSpaces | src/app/create/page.tsx:248 | sets the spaces field, and changes nothing else |
| CreateGroup.CreateGroupPage.SetLocation | src/app/create/page.tsx:260 | sets the location field, and changes nothing else |
| CreateGroup.CreateGroupPage.Submit | src/app/create/page.tsx:39-86 | the page state afterwards is the one SubmitStep specifies, and a selected plan stays one of the selected provider's plans |
| ServicePresets.CatalogueWellFormed | src/lib/servicePresets.ts:19-434 | every entry has dash-prefixed plan ids distinct within it, at least one plan, 2 to 8 members per plan, and household fields only where they belong |
| ServicePresets.TwentyTwoProviders | src/lib/servicePresets.ts:19-434 | the provider table has twenty-two entries |
| ServicePresets.ProviderIdsDistinct | src/lib/servicePresets.ts:19-434 | provider ids are pairwise distinct |
| ServicePresets.PlanIdsDistinct | src/lib/servicePresets.ts:19-434 | plan ids are pairwise distinct across the whole catalogue |
| ServicePresets.PlanIdsStartWithProviderId | src/lib/servicePresets.ts:19-434 | every plan id starts with its provider's id and a dash |
| ServicePresets.EveryProviderHasAPlan | src/lib/servicePresets.ts:19-434 | every provider has at least one plan |
| ServicePresets.MaxMembersBetweenTwoAndEight | src/lib/servicePresets.ts:19-434 | every plan has 2 ≤ max_members ≤ 8 |
| ServicePresets.HouseholdFieldsOnlyOnTwoEntries | src/lib/servicePresets.ts:311-338 | terms_url and requires_same_household appear exactly on the Nintendo and Microsoft 365 entries |
| ServicePresets.FindProvider | src/app/waitlist/register/page.tsx:26 | the first provider with the id, or none exactly when no provider has it |
| ServicePresets.FindPlan | src/app/waitlist/register/page.tsx:27 | the first plan with the id, or none exactly when no plan has it |
| ServicePresets.LookupFindsEveryPlan | src/app/waitlist/register/page.tsx:26-27 | in any table with distinct provider ids and plan ids distinct within each provider, every plan is found by its provider's id and its own id |
| ServicePresets.LookupResultUnique | src/app/waitlist/register/page.tsx:26-27 | in any table whose plan ids are distinct, a plan the lookup finds is the only plan with the requested id |
| ServicePresets.LookupPlanFindsTheUniquePlan | src/app/waitlist/register/page.tsx:26-27 | each catalogue plan is found by its provider's id and its own id, and whatever the lookup finds is the only plan with the requested id |
| ServicePresets.LookupPlanIn | src/app/waitlist/register/page.tsx:26-27 | the provider-then-plan lookup in any table; what it finds has the requested plan id and belongs to a provider with the requested id |
| ServicePresets.LookupPlan | src/app/waitlist/register/page.tsx:26-27 | the same lookup in the catalogue |
| ReferralCodeBackfill.Backfill | scripts/generateReferralCodes.js:14-37 | a failed select throws before any update; otherwise every profile needing a code and whose update succeeds gets its code, the others are unchanged, and the count is the number of successful updates |
| ReferralCodeBackfill.Backfilled | scripts/generateReferralCodes.js:22-36 | the profile table after a run, one profile per snapshot row, each visited in order |
| ReferralCodeBackfill.Updates | scripts/generateReferralCodes.js:22-36 | the count of successful updates among the first n profiles, at most n; UpdatesCountChangedProfiles ties it to the profiles changed |
| ReferralCodeBackfill.BackfillKeepsExistingCodes | scripts/generateReferralCodes.js:22-31 | profiles that already have a code, and those whose update failed, are unchanged; distinct ids stay distinct |
| ReferralCodeBackfill.UpdatesCountChangedProfiles | scripts/generateReferralCodes.js:29-37 | the count reported equals the number of profiles the run changed |
| ReferralCodeBackfill.CleanRunFillsEveryProfile | scripts/generateReferralCodes.js:22-37 | after a run in which every update succeeds, every profile has a non-empty code |
| ReferralCodeBackfill.NoUpdatesWhenAllFilled | scripts/generateReferralCodes.js:22-36 | when every profile has a code, the run counts no update |
| ReferralCodeBackfill.SecondRunUpdatesNothing | scripts/generateReferralCodes.js:22-37 | a second run after a clean one updates 0 profiles and changes nothing |

## Left out

- Remote-store failures inside the referral service ("Failed to get referral code" is modelled; "Failed to create referral", "Failed to update referral", "Failed to create reward", "Failed to get completed referrals count" and "Failed to create tier reward" are not). The ledger's tables never reject a write. Modelling them needs a failure input per write and adds no rule of the ledger's own.
- The Supabase client, session and authentication, and the `db` wrappers the create page calls. They are replaced by the ledger's tables and by the page's `groups` and `activities` fields. A store failure of the two inserts on the create page is a `StoreFailure` input.
- Concurrency: check-then-act races and the `Promise.all` of `getReferralStats`. Operations run one after another.
- The `setInterval` timer of the rate limiter. `Sweep` is a method called explicitly.
- Clocks and randomness: `Date.now`, `new Date().toISOString()` and `nanoid`. Times and codes are inputs. `completed_at` is the `now` passed in. Referral and reward ids are counter values, not UUID strings. No model claims the random codes are unique.
- Console output of the backfill script and the create page.
- ReferralService.ReferralLedger.GetReferralStats: the store's result limit, and the `|| 0` fallbacks for missing data, are not modelled, because the in-memory tables always answer in full.
- ReferralService.SumAmounts: amounts are integer cents, not floating-point `Number(reward.amount)`.
- The create page's `parseInt` of the spaces field (src/app/create/page.tsx:248). The model's field is an integer, so NaN, which slips past the range check, has no counterpart.
- The create page's rendering, its country list, and `router.push`, which becomes the `navigatedTo` field.
- `String.prototype.trim` is modelled by its set of whitespace code points. No Unicode database is consulted.
- The plans' `features` lists and the providers' `logo` paths. They are used only for rendering, so the datatypes omit them.
- The redirect URL's origin: only the target path is modelled.
- The middleware `matcher` regex and `next.config.ts`, which are framework configuration.
- The aliasing in the rate limiter: it mutates a window object in place after reading it from the map. The model writes a new window value into the map, which has the same effect.
- Floating-point display maths on the dashboard and explore pages.
