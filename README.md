# ai-plp core, modelled in Dafny

ai-plp is a job-matching web application. Job seekers upload a resume and get
matched to posted jobs. Employers post jobs. Both can pay for a premium
subscription or a job boost through Stripe or Paystack. This project models
the parts of it that carry logic:

- **Webhook payment reconciliation.** The Stripe and Paystack webhook
  functions parse one event and apply a fixed sequence of writes to the
  `payments`, `users` and `jobs` tables. The model is `reconcile.dfy`,
  `stripe_webhook.dfy` and `paystack_webhook.dfy`, over the store in
  `store.dfy`.
- **Client checkout and pricing.** The payment modal prices a purchase,
  inserts a pending payment row under a fresh reference, marks it completed
  and grants the purchase. The model is `payments.dfy` and
  `payment_modal.dfy`.
- **Match scoring.** Skills match requirements by case-insensitive substring
  containment in either direction. The Find Matches page scores every job,
  sorts by score and keeps the top three. The AI helper scores with a random
  variance. The model is `matching.dfy`, `find_matches.dfy` and `ai.dfy`.
- **Text extraction.** Resume keyword spotting with de-duplication, caps and
  defaults, and the comma-separated requirements field of the job form. The
  model is `extraction.dfy`, `ai.dfy`, `upload_resume.dfy`, `post_job.dfy`
  and `text.dfy`.
- **Payment history.** The summary figures and the status badge mapping.
  The model is `payment_history.dfy`.

## How the model is built

- **The store.** It is three maps keyed by row id, held by the class
  `Store.Db`.
  - `update(...).eq(column, value)` updates every matching row.
  - `select().eq(column, value).single()` yields a row only when exactly one
    row matches; otherwise it is an error.
- **The webhooks.** Each handler is a method on that store.
  - Its effect is proved equal to a specification function (`Serve`, which
    fixes the provider's event names and acknowledgement in the shared
    `Reconcile.ServeEvent`, built on `Reconcile.Apply`).
  - The properties are lemmas about that function.
- **The pages.** Each page is a class whose fields are its React state. The
  handlers are methods that update those fields.
- **Outside inputs become parameters.**
  - Every `Math.random()` draw is a real number in [0, 1).
  - `Date.now()` is a natural number.
  - The fraction digits of `toString(36)` are a sequence of digits below 36.
  - Each regular expression's matches are an input list.
  - Each store answer (an insert refused, a query error) is an input.
- **Arithmetic.** Numbers are exact. `Math.round(x)` is `floor(x + 0.5)` and
  `Math.floor` is the floor.

### Behaviour of the code worth knowing

- **No terminal-status guard.** Neither webhook guards completed or failed
  payments: a failure delivered after a success turns a completed payment
  into a failed one (`Reconcile.FailedOverwritesCompleted`).
- **The `'premium'` type value.** The client inserts payments of type
  `'premium'` (src/components/PaymentModal.tsx:16, :87). Both webhooks
  fulfil only type `'subscription'` (stripe-webhook/index.ts:61). So a
  premium row's success callback grants nothing beyond what the client
  already wrote (`Checkout.WebhookIgnoresPremiumRow`). The payment history
  banner, which also tests `'subscription'`, never shows for a row the
  checkout inserts (`PaymentHistory.CheckoutRowsShowNoBanner`).
- **The job insert.** In `PostJob.tsx` the insert call is cut off by a `;`
  at line 86, before `.select().single()`. The model takes the evidently
  intended chain: one insert whose answer is either a new id or an error.
- **The `ai.ts` template text.** The file holds its emoji and bullet
  characters double-encoded (UTF-8 bytes read as Windows-1252). `Ai.Enhanced`
  uses those characters exactly as they stand. The `PostJob.tsx` copy of the
  template has the real characters, and `PostJob.Enhanced` uses those.

## Model

| member | source | states |
|---|---|---|
| Store.SingleWhereRef | project/supabase/functions/stripe-webhook/index.ts:49-53 | A row comes back exactly when one payment carries the reference, and that row is a stored payment carrying it |
| Store.SetStatusWhereRef | project/supabase/functions/stripe-webhook/index.ts:38-41 | Updating by reference keeps every row id and the set of rows that carry the reference |
| Store.Db.UpdateStatusWhereRef | project/supabase/functions/stripe-webhook/index.ts:38-41 | Every payment carrying the reference gets the new status; users and jobs are untouched |
| Store.Db.UpdateStatusWhereId | project/src/components/PaymentModal.tsx:102-105 | Only the payment with that id gets the new status; users and jobs are untouched |
| Store.Db.SelectSingleWhereRef | project/supabase/functions/stripe-webhook/index.ts:49-53 | Returns the single matching row, or nothing when zero or several rows match |
| Store.Db.InsertPayment | project/src/components/PaymentModal.tsx:81-94 | The insert succeeds exactly when the id is fresh; it then adds that one row, and otherwise nothing changes |
| Store.Db.ActivateUser | project/supabase/functions/stripe-webhook/index.ts:61-69 | The user becomes premium and active with the given subscription id; payments and jobs are untouched |
| Store.Db.CancelSubscriptions | project/supabase/functions/stripe-webhook/index.ts:92-103 | Every user holding the subscription id loses premium and is cancelled; payments and jobs are untouched |
| Store.Db.BoostJob | project/supabase/functions/stripe-webhook/index.ts:70-75 | The job with that id becomes boosted; payments and users are untouched |
| Reconcile.Dispatch | project/supabase/functions/stripe-webhook/index.ts:32-107 | The store after the switch's awaited writes, and the success verdict, are those of the specification `Apply` |
| Reconcile.Fulfil | project/supabase/functions/stripe-webhook/index.ts:61-75 | Fulfilment writes no payment; only a `'subscription'` row touches users and only a `'job_boost'` row with a job id touches jobs |
| Reconcile.Apply | project/supabase/functions/stripe-webhook/index.ts:32-107 | A delivery fails exactly when the event is malformed or a success's reference does not single out one payment; a failed delivery writes no user and no job |
| Reconcile.ServeEvent | project/supabase/functions/stripe-webhook/index.ts:10-123 | The preflight is answered `ok` and writes nothing; otherwise the response is the acknowledgement or the 400 failure, the failure exactly when the delivery failed, and then no user or job was written |
| Reconcile.SucceededCompletesMatches | project/supabase/functions/stripe-webhook/index.ts:33-41 | A success marks every payment carrying the reference completed, whatever its prior status, and changes no other payment |
| Reconcile.SucceededActivatesSubscriber | project/supabase/functions/stripe-webhook/index.ts:61-69 | A sole matching `'subscription'` payment makes its user premium, active and subscribed under the reference; jobs are unchanged |
| Reconcile.SucceededBoostsJob | project/supabase/functions/stripe-webhook/index.ts:70-75 | A sole matching `'job_boost'` payment with a job id boosts that job; users are unchanged |
| Reconcile.SucceededOtherKindFulfilsNothing | project/supabase/functions/stripe-webhook/index.ts:61-75 | Any other type, such as `'premium'`, or a boost without a job id, writes no user and no job, and the event is still acknowledged |
| Reconcile.SucceededUnmatchedFails | project/supabase/functions/stripe-webhook/index.ts:49-58 | When zero or several payments carry the reference, the handler fails and writes no user and no job |
| Reconcile.FailedMarksMatchesOnly | project/supabase/functions/stripe-webhook/index.ts:80-89 | A failure marks exactly the payments carrying the reference failed, and touches no user or job |
| Reconcile.FailedOverwritesCompleted | project/supabase/functions/stripe-webhook/index.ts:80-89 | With no terminal guard, a failure after a success turns the completed payment into a failed one |
| Reconcile.CancellationRevokesHolders | project/supabase/functions/stripe-webhook/index.ts:92-103 | A cancellation revokes premium from exactly the holders of the subscription, leaves payments and jobs alone, and succeeds even with no holder |
| Reconcile.IgnoredEventsChangeNothing | project/supabase/functions/stripe-webhook/index.ts:106-107 | An unrecognised event is acknowledged and a malformed one is rejected; neither changes the store |
| Reconcile.ApplyKeepsRows | project/supabase/functions/stripe-webhook/index.ts:32-107 | No delivery creates or deletes a row in any table |
| Reconcile.StatusMovesOnlyToTerminal | project/supabase/functions/stripe-webhook/index.ts:38-41 | A delivery leaves a payment's status as it was, or sets it to `'completed'` or `'failed'` |
| Reconcile.SetStatusWhereRefTwice | project/supabase/functions/stripe-webhook/index.ts:38-41 | Setting a status by reference twice is the same as setting it once |
| Reconcile.FulfilTwice | project/supabase/functions/stripe-webhook/index.ts:61-75 | Granting a purchase twice is the same as granting it once |
| Reconcile.ReplayIsIdempotent | project/supabase/functions/stripe-webhook/index.ts:38-101 | Replaying any event leaves the store and the verdict as after one delivery |
| Reconcile.RedeliveryIsIdempotent | project/supabase/functions/stripe-webhook/index.ts:10-123 | Serving the same request again leaves the store and the response as after the first time, for either provider |
| StripeWebhook.EventOf | project/supabase/functions/stripe-webhook/index.ts:28-32 | The three Stripe event names map to their events keyed by `data.object.id`; other names are unhandled; a missing body or object is malformed |
| StripeWebhook.Serve | project/supabase/functions/stripe-webhook/index.ts:10-123 | A preflight is answered `ok` with the store untouched; every other response is `{"received":true}` or the 400 failure |
| StripeWebhook.Handle | project/supabase/functions/stripe-webhook/index.ts:10-123 | The store after serving a request, and the response, are those of the specification `Serve` |
| StripeWebhook.RejectedExactly | project/supabase/functions/stripe-webhook/index.ts:110-123 | The response is 400 exactly when the body is unparsable or a success has no single matching payment; otherwise it is 200 |
| StripeWebhook.UnparsableRejected | project/supabase/functions/stripe-webhook/index.ts:28 | A body that is not JSON gets the 400 error response and writes nothing |
| StripeWebhook.UnknownTypeAcknowledged | project/supabase/functions/stripe-webhook/index.ts:106-113 | An event of any other type gets `{"received":true}` with 200 and writes nothing |
| PaystackWebhook.EventOf | project/supabase/functions/paystack-webhook/index.ts:28-32 | `charge.success` and `charge.failed` map to their events keyed by `data.reference`; there is never a cancellation event |
| PaystackWebhook.Serve | project/supabase/functions/paystack-webhook/index.ts:10-109 | A preflight is answered `ok` with the store untouched; every other response is `{"status":"success"}` or the 400 failure |
| PaystackWebhook.Handle | project/supabase/functions/paystack-webhook/index.ts:10-109 | The store after serving a request, and the response, are those of the specification `Serve` |
| PaystackWebhook.NeverRevokesPremium | project/supabase/functions/paystack-webhook/index.ts:32-93 | No Paystack delivery takes premium away from a user |
| PaystackWebhook.SharedReferenceSpace | project/supabase/functions/paystack-webhook/index.ts:33-41 | A Paystack success acts on the same `stripe_payment_id` column as a Stripe success with the same reference |
| Payments.CurrencyForRegion | project/src/lib/payments.ts:95-103 | The currency is `'NGN'` exactly for the seven listed country codes, and `'USD'` otherwise, including for no country |
| Payments.Rate | project/src/lib/payments.ts:107-112 | The rate is 1600 for naira; any other currency, listed or not, gets rate 1 |
| Payments.ConvertAmount | project/src/lib/payments.ts:106-113 | Naira amounts are 1600 times the base; every other currency leaves the amount unchanged |
| Payments.ConvertMonotone | project/src/lib/payments.ts:106-113 | Conversion keeps the order of amounts and never changes a sign |
| Payments.ParseDecimalOfDecimal | project/src/lib/payments.ts:85 | The clock reading rendered in decimal parses back to the same number |
| Payments.RandomSuffix | project/src/lib/payments.ts:85 | The random part has at most nine characters and no `_` |
| Payments.GeneratePaymentRef | project/src/lib/payments.ts:84-86 | A reference starts with `payment_` and has more after it |
| Payments.PaymentRefParts | project/src/lib/payments.ts:84-86 | A reference splits on `_` into `payment`, the clock reading and the random part, so it always begins `payment_`, and its middle part parses back to the clock reading |
| Payments.PaymentRefInjective | project/src/lib/payments.ts:84-86 | Two references are equal only when they share the clock reading and the random part |
| Checkout.TypeColumn | project/src/components/PaymentModal.tsx:16 | The stored type is `'premium'` or `'job_boost'`, never `'subscription'` |
| Checkout.GetPaymentDetails | project/src/components/PaymentModal.tsx:56-70 | The currency comes from the user's country and the amount is the base price converted into it |
| Checkout.PriceTable | project/src/lib/payments.ts:89-92 | The only prices are 1900 and 2900 in dollars, or 1600 times those in naira |
| Checkout.CheckoutTables | project/src/components/PaymentModal.tsx:81-122 | A checkout adds exactly the new payment id and creates or deletes no user or job |
| Checkout.PendingRow | project/src/components/PaymentModal.tsx:81-94 | The inserted row belongs to the user, names the provider and the stored type, carries the priced amount and description, is pending with the reference, and has the job id exactly when the prop was truthy |
| Checkout.CheckoutGrants | project/src/components/PaymentModal.tsx:96-122 | A checkout adds one completed row with the reference, type and provider, and keeps the other rows. Premium makes the buyer active under the reference; a boost with a job boosts it. No other user or job changes, and no row is created or deleted |
| Checkout.CheckoutRowIsOnlyMatch | project/src/components/PaymentModal.tsx:81-94 | With a fresh reference, the checkout's row is the only one carrying it, with the stored type and the job id when given |
| Checkout.WebhookIgnoresPremiumRow | project/supabase/functions/stripe-webhook/index.ts:61-75 | The later success callback for a premium checkout grants nothing more: users and jobs stay as the client left them |
| Checkout.WebhookAgreesOnBoost | project/supabase/functions/stripe-webhook/index.ts:70-75 | For a boost, the success callback's write repeats the client's, leaving users and jobs as the checkout left them |
| Checkout.DetectedCountry | project/src/components/PaymentModal.tsx:39 | The country is the reported code when it is truthy, and `'US'` otherwise; it is never empty |
| Checkout.DetectionAgreesWithPricing | project/src/components/PaymentModal.tsx:39-45 | A detected listed country makes the modal price in naira |
| Checkout.PaymentModal.constructor | project/src/components/PaymentModal.tsx:29-31 | The modal opens with Stripe selected, not loading, and the country `'US'` |
| Checkout.PaymentModal.CountryDetected | project/src/components/PaymentModal.tsx:39-45 | Records the detected country and switches to Paystack for a listed one; nothing else changes |
| Checkout.PaymentModal.Pay | project/src/components/PaymentModal.tsx:72-131 | Without a user nothing happens. Otherwise the store becomes the checkout's tables and success is reported, or, when the insert is refused, the store is unchanged and the failure alert shows; loading ends either way |
| Checkout.PaymentModal.HandleStripePayment | project/src/components/PaymentModal.tsx:72-131 | A checkout through Stripe: without a user nothing happens; otherwise the store becomes the checkout's tables with provider `'stripe'` and success is reported, or, when the insert is refused, the store is unchanged and the failure alert shows; loading ends |
| Checkout.PaymentModal.HandlePaystackPayment | project/src/components/PaymentModal.tsx:133-192 | A checkout through Paystack: without a user nothing happens; otherwise the store becomes the checkout's tables with provider `'paystack'` and success is reported, or, when the insert is refused, the store is unchanged and the failure alert shows; loading ends |
| Checkout.PaymentModal.HandlePayment | project/src/components/PaymentModal.tsx:194-200 | The checkout of `Pay`, with provider `'stripe'` when Stripe is selected and `'paystack'` otherwise; the selection and the country are kept |
| Text.Lower | project/src/pages/FindMatches.tsx:46-47 | `toLowerCase` keeps the length and maps each character to one that is not an upper-case letter |
| Text.Contains | project/src/pages/FindMatches.tsx:46-47 | `includes` holds exactly when the needle occurs at some position |
| Text.Trim | project/src/pages/PostJob.tsx:73 | The result is trimmed, sits in the input with only white space around it, and is empty exactly when the input is all white space |
| Text.Split | project/src/pages/PostJob.tsx:72 | There is one more piece than separators, and no piece holds the separator |
| Text.SplitWithout | project/src/pages/PostJob.tsx:72 | Text without the separator splits into itself alone |
| Text.JoinSplit | project/src/pages/PostJob.tsx:72 | Joining the pieces of a split restores the text |
| Text.SplitJoin | project/src/pages/PostJob.tsx:72 | Splitting separator-free pieces after joining them restores the pieces |
| Matching.SkillMatchesProperties | project/src/pages/FindMatches.tsx:44-49 | The skill test is symmetric, ignores case, and holds whenever the lower-case forms are equal |
| Matching.EmptyMatchesEverything | project/src/pages/FindMatches.tsx:46-47 | An empty requirement or skill matches everything |
| Matching.AnyRequirement | project/src/pages/FindMatches.tsx:45-48 | True exactly when some requirement matches the skill |
| Matching.MatchingSkills | project/src/pages/FindMatches.tsx:44-49 | Keeps exactly the user skills that match some requirement, and no more entries than there were skills |
| Matching.MatchingSkillsAppend | project/src/pages/FindMatches.tsx:44-49 | The filter keeps order and duplicates: filtering a concatenation concatenates the filtered parts |
| Matching.EmptyRequirementMatchesAll | project/src/pages/FindMatches.tsx:44-49 | An empty requirement makes every skill match |
| Matching.MatchingSkillsGrow | project/src/pages/FindMatches.tsx:44-49 | More requirements never mean fewer matching skills |
| Matching.Round | project/src/pages/FindMatches.tsx:52 | `Math.round` yields the integer within half a unit, rounding halves up |
| Matching.RoundMonotone | project/src/pages/FindMatches.tsx:52 | Rounding keeps order |
| Matching.RoundShift | project/src/lib/ai.ts:83-85 | Shifting by at most 10 moves the rounded value by at most 10 |
| FindMatches.RatioScore | project/src/pages/FindMatches.tsx:52 | The ratio score is non-negative, 0 with no match, and at least 100 when matches reach the requirement count |
| FindMatches.RatioScoreMonotone | project/src/pages/FindMatches.tsx:52 | More matching skills never lower the ratio score |
| FindMatches.CalculateJobMatch | project/src/pages/FindMatches.tsx:42-60 | The match carries the job unchanged and the matching skills. The score lies in [0, 95]: the capped ratio score when there are requirements, and at least 60 without |
| FindMatches.FullCoverageHitsCap | project/src/pages/FindMatches.tsx:51-57 | When matching skills are at least as many as the requirements, the score is the cap of 95 |
| FindMatches.MoreSkillsNeverScoreLower | project/src/pages/FindMatches.tsx:44-57 | Adding skills never lowers a job's score |
| FindMatches.ScoreAll | project/src/pages/FindMatches.tsx:83 | One match per job, in job order, each scored with its own draw |
| FindMatches.InsertByScoreSorted | project/src/pages/FindMatches.tsx:87 | Inserting into a list sorted by descending score keeps it sorted |
| FindMatches.InsertByScorePermutes | project/src/pages/FindMatches.tsx:87 | Insertion adds exactly the new match to the multiset |
| FindMatches.SortByScore | project/src/pages/FindMatches.tsx:87 | The sort keeps the number of matches and orders them by descending score |
| FindMatches.SortByScoreSorted | project/src/pages/FindMatches.tsx:87 | The sort yields descending scores and a permutation of its input |
| FindMatches.WithScore | project/src/pages/FindMatches.tsx:87 | Picks out matches of exactly the given score, never more than there are |
| FindMatches.WithScoreAppend | project/src/pages/FindMatches.tsx:87 | Picking out one score distributes over concatenation |
| FindMatches.WithScoreSplice | project/src/pages/FindMatches.tsx:87 | A match spliced in before only lower scores comes after the other matches of its score |
| FindMatches.InsertByScoreStable | project/src/pages/FindMatches.tsx:87 | Inserting into a sorted list places the new match after every match of its score |
| FindMatches.SortByScoreStable | project/src/pages/FindMatches.tsx:87 | For every score, the matches with that score appear in the sorted list in their input order, as the stable `Array.prototype.sort` leaves them |
| FindMatches.SortByScoreMembers | project/src/pages/FindMatches.tsx:87 | The sort keeps the length and exactly the same members |
| FindMatches.TopMatches | project/src/pages/FindMatches.tsx:86-88 | The top list has min(n, 3) matches, in descending score |
| FindMatches.TopMatchesAreBest | project/src/pages/FindMatches.tsx:86-88 | The top list has min(n, 3) matches, in descending score, each computed, and none left out scores above one kept |
| FindMatches.SortInPlace | project/src/pages/FindMatches.tsx:87 | The array is sorted in place into the order of the stable descending sort of its old contents |
| FindMatches.InsertNext | project/src/pages/FindMatches.tsx:87 | One insertion step: the sorted prefix grows by the next element and the rest of the array is unchanged |
| FindMatches.FindMatchesPage.constructor | project/src/pages/FindMatches.tsx:9-11 | The page starts with no matches, not loading and no error |
| FindMatches.FindMatchesPage.FindMatches | project/src/pages/FindMatches.tsx:62-96 | Without a user or resume the page asks for a resume and computes nothing. Otherwise it shows the top three scored jobs, or keeps the old matches and shows the query's error; loading ends |
| Extraction.Take | project/src/lib/ai.ts:43-44 | `slice(0, n)` is the prefix of length min(length, n) |
| Extraction.TakeDistinct | project/src/lib/ai.ts:43-44 | Capping a list without repeats leaves it without repeats |
| Extraction.Dedup | project/src/lib/ai.ts:43-44 | `[...new Set(xs)]` has no repeats and exactly the members of its input |
| Extraction.DedupDistinct | project/src/lib/ai.ts:43-44 | De-duplicating a list without repeats returns it unchanged |
| Extraction.DedupPrefix | project/src/lib/ai.ts:43-44 | De-duplicating keeps the order of first occurrences: a longer input only extends the result |
| Extraction.KeywordsIn | project/src/lib/ai.ts:19-23 | Exactly the keywords whose lower-case form occurs in the lower-cased text |
| Extraction.SpotKeywords | project/src/lib/ai.ts:19-23 | The `forEach`/`push` loop collects exactly `KeywordsIn` |
| Extraction.KeywordsInAppend | project/src/lib/ai.ts:19-23 | Spotting over two keyword lists back to back spots over each in turn |
| Extraction.KeywordsInDistinct | project/src/lib/ai.ts:19-23 | A keyword list without repeats yields skills without repeats |
| Extraction.Harvest | project/src/lib/ai.ts:35-40 | The harvested list has at most the cap times the number of patterns entries |
| Extraction.HarvestMatches | project/src/lib/ai.ts:35-40 | The loop over patterns collects exactly `Harvest` |
| Extraction.HarvestOfEmpty | project/src/lib/ai.ts:35-40 | When no pattern matches, nothing is harvested |
| Extraction.HarvestFromMatches | project/src/lib/ai.ts:35-40 | Every harvested entry is a match of some pattern |
| Extraction.HarvestKeepsLeading | project/src/lib/ai.ts:38 | Every match within the first `cap` of its pattern is harvested |
| Ai.ParseResumeText | project/src/lib/ai.ts:3-46 | Skills are the de-duplicated spotted keywords, capped at 10; experience is the de-duplicated first three matches per pattern, capped at 8 |
| Ai.ParsedSkillsShape | project/src/lib/ai.ts:11-23 | At most 10 skills, without repeats, each a listed keyword occurring case-insensitively in the text; when at most ten keywords occur, all of them are kept |
| Ai.ParsedExperienceShape | project/src/lib/ai.ts:35-44 | At most 8 entries, without repeats, each a match of some pattern |
| Ai.EnhancedShape | project/src/lib/ai.ts:52-69 | The template text has no surrounding white space and holds the title and the description verbatim |
| Ai.EnhanceJobDescription | project/src/lib/ai.ts:48-70 | The trimmed template is exactly the template text, so it holds the description and the title verbatim |
| Ai.CalculateJobMatchScore | project/src/lib/ai.ts:72-86 | The score lies in [70, 99] without requirements and in [30, 95] with them |
| Ai.VarianceIsBounded | project/src/lib/ai.ts:82-85 | With requirements, the score is within 10 of the clamped ratio score |
| Ai.AgreesWithFindMatches | project/src/lib/ai.ts:75-85 | With zero variance, the score equals the Find Matches score raised to at least 30 |
| UploadResume.UploadResumePage.constructor | project/src/pages/UploadResume.tsx:9-12 | The page starts with no file and no error |
| UploadResume.UploadResumePage.HandleFileChange | project/src/pages/UploadResume.tsx:15-27 | A PDF or DOCX file is taken and the error cleared; any other type clears the file and shows the error; no selection changes nothing |
| UploadResume.ParseResume | project/src/pages/UploadResume.tsx:29-70 | Skills are the spotted keywords or the three defaults, capped at 10; experience is the first five matches per pattern or the two defaults, capped at 8 |
| UploadResume.SkillKeywordsDistinct | project/src/pages/UploadResume.tsx:34-38 | The keyword list names no skill twice |
| UploadResume.ParsedSkills | project/src/pages/UploadResume.tsx:41-69 | Between 1 and 10 skills, without repeats. They are the defaults exactly when no keyword occurs; otherwise each is a keyword occurring in the text, and when at most ten occur all of them are kept |
| UploadResume.ParsedExperience | project/src/pages/UploadResume.tsx:54-69 | Between 1 and 8 entries: the two defaults when no pattern matched, and otherwise the first five matches per pattern, capped at 8 |
| PostJob.TrimAll | project/src/pages/PostJob.tsx:73 | Trims every piece and keeps their number |
| PostJob.NonEmpty | project/src/pages/PostJob.tsx:74 | Keeps exactly the non-empty pieces |
| PostJob.NonEmptyAppend | project/src/pages/PostJob.tsx:74 | The filter keeps order: filtering a concatenation concatenates the filtered parts |
| PostJob.NonEmptyOfNonEmpty | project/src/pages/PostJob.tsx:74 | A list with no empty piece passes the filter unchanged |
| PostJob.ParseRequirements | project/src/pages/PostJob.tsx:71-74 | At most one more requirement than commas; each one non-empty, comma-free and trimmed |
| PostJob.ParseRequirementsPiece | project/src/pages/PostJob.tsx:71-74 | A field without commas yields no requirement when blank and otherwise exactly its trimmed text |
| PostJob.ParseRequirementsAppend | project/src/pages/PostJob.tsx:71-74 | Order is kept: the requirements of two texts joined by a comma are the requirements of each, in order |
| PostJob.ParseRequirementsJoin | project/src/pages/PostJob.tsx:71-74 | Non-empty, trimmed, comma-free requirements survive a round trip through the comma-separated field |
| PostJob.BlankFieldHasNoRequirements | project/src/pages/PostJob.tsx:71-74 | A field of only commas and white space yields no requirement |
| PostJob.EnhancedShape | project/src/pages/PostJob.tsx:24-45 | The template text has no surrounding white space and holds the title and the description verbatim |
| PostJob.EnhanceJobDescription | project/src/pages/PostJob.tsx:22-48 | The trimmed template is exactly the template text around the title and description |
| PostJob.PostedRowShape | project/src/pages/PostJob.tsx:77-86 | The posted row names the employer and is not boosted. Its description is trimmed and holds the title and description. Its requirements are all non-empty, comma-free and trimmed |
| PostJob.JobRow | project/src/pages/PostJob.tsx:77-86 | The row keeps the employer and title, is not boosted, and lists at most one requirement more than the field has commas |
| PostJob.BuildJob | project/src/pages/PostJob.tsx:67-86 | The row sent is the form with the enhanced description and the parsed requirements |
| PostJob.PostJobPage.constructor | project/src/pages/PostJob.tsx:9-20 | The page starts with a blank form, no error, no success and no posted id |
| PostJob.PostJobPage.HandleSubmit | project/src/pages/PostJob.tsx:57-108 | Without a user nothing changes. Otherwise it sends the built row and shows its description. On success it records the id and clears all five fields; on error it shows the message and keeps the form; loading ends |
| PostJob.PostJobPage.Settle | project/src/pages/PostJob.tsx:90-104 | A new id is recorded and the form cleared, or the error is shown and the form and id kept |
| PaymentHistory.Completed | project/src/pages/PaymentHistory.tsx:220 | Keeps exactly the completed payments |
| PaymentHistory.TotalSpent | project/src/pages/PaymentHistory.tsx:220 | With no completed payment the total spent is 0 |
| PaymentHistory.SuccessfulCount | project/src/pages/PaymentHistory.tsx:214-226 | The successful count never exceeds the transaction count |
| PaymentHistory.CompletedAppend | project/src/pages/PaymentHistory.tsx:220 | The completed filter distributes over concatenation |
| PaymentHistory.SumAppend | project/src/pages/PaymentHistory.tsx:220 | The sum distributes over concatenation |
| PaymentHistory.TotalSpentByPayment | project/src/pages/PaymentHistory.tsx:220 | Total spent is 0 for no payments, and each payment adds its amount only when completed |
| PaymentHistory.SummaryAppend | project/src/pages/PaymentHistory.tsx:214-226 | All three summary figures add up over two lists of payments |
| PaymentHistory.UncompletedCountsOnlyAsTransaction | project/src/pages/PaymentHistory.tsx:214-226 | A payment that is not completed raises the transaction count only, never the total or the successful count |
| PaymentHistory.TotalSpentBounds | project/src/pages/PaymentHistory.tsx:220 | With non-negative amounts, the total is non-negative and at least any completed payment's amount |
| PaymentHistory.AllSuccessful | project/src/pages/PaymentHistory.tsx:214-226 | The successful count equals the transaction count exactly when every payment is completed |
| PaymentHistory.StatusTones | project/src/pages/PaymentHistory.tsx:38-62 | Green, yellow and red each correspond to exactly one status, and every other status is gray; only completed shows the check mark and only failed the crossed circle |
| PaymentHistory.StatusIcon | project/src/pages/PaymentHistory.tsx:38-49 | The check mark is always green, the crossed circle always red, and the clock yellow or gray |
| PaymentHistory.StatusColor | project/src/pages/PaymentHistory.tsx:51-62 | The badge's classes are those of the icon's colour family |
| PaymentHistory.CheckoutRowsShowNoBanner | project/src/pages/PaymentHistory.tsx:193 | The banner needs type `'subscription'`, so no row the checkout inserts ever shows it, whatever its status |
| PaymentHistory.ShowsActiveBanner | project/src/pages/PaymentHistory.tsx:193 | A payment showing the banner is completed and is neither a `'premium'` nor a `'job_boost'` row |
| PaymentHistory.ShortReference | project/src/pages/PaymentHistory.tsx:187 | `slice(-8)` yields the last eight characters, or the whole reference when shorter |

## Left out

- **Network and I/O.**
  - HTTP transport, JSON parsing beyond "parsable or not", and the CORS headers.
  - The country lookup request at src/components/PaymentModal.tsx:35-52. Its answer is a parameter, and a failed lookup is not modelled.
  - `processStripePayment` and `processPaystackPayment` in src/lib/payments.ts:25-81. They are SDK calls and are not part of this model.
- **Signature verification.** It is commented out in both webhooks, so payloads are trusted as in the code.
- **Store failures.** The model covers two kinds: the `.single()` row count and a refused insert. Any other store error, error codes, `.order()` by creation time, atomicity and concurrency are left out.
- **Checkout.PaymentModal.Pay:** it does not model the `setTimeout` delay of the Stripe flow or the provider SDK calls. The insert's other failure modes are folded into one refusal flag.
- **Payments.ConvertAmount:** it is stated on whole minor units with exact arithmetic. It does not model floating-point rounding, or currency strings that name `Object.prototype` members.
- **Regular expressions.** Each pattern's matches are an input list. `toLowerCase` folds ASCII letters only, and `trim` removes a fixed white-space set.
- **Randomness and time.** Every random draw and the clock are parameters. `Math.random()` is a real number, not a double.
- **Pages and components left out.** These are all I/O or presentation:
  - `fetchUserResume` in src/pages/FindMatches.tsx:20-40;
  - `handleUpload` in src/pages/UploadResume.tsx;
  - `fetchPayments`, `formatAmount` and `formatDate` in src/pages/PaymentHistory.tsx:19-36 and :64-79;
  - every JSX render, `handleInputChange` and the other pages and components.
- **FindMatches.RatioScore, FindMatches.CalculateJobMatch, Ai.CalculateJobMatchScore:** they compute `(matches / requirements) * 100` on exact reals, while JavaScript uses doubles. At an exact half the two can round differently: 23 of 40 gives 57 in JavaScript (57.49999…) but 58 here, and likewise 29 of 200 and 57 of 200.
- **PaymentHistory.StatusTones:** it states the tone and glyph of each status icon, not the icon's size classes.
- **PostJob.PostJobPage.HandleSubmit:** the store's insert is an input outcome, not a write to the modelled `jobs` table, because the page's insert chain is not valid code as written.
