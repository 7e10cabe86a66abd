# Subscription entitlements and payment-webhook reconciliation, in Dafny

This project models the billing core of a road-traffic legal reference web
application with four subscription tiers (`free`, `agente`, `profesional`,
`unidad`):

- **Plan registry** (`plans.dfy`, module `Plans`): the constant plan table
  (prices in euro cents, a limits record per plan whose values are booleans,
  integer quotas with -1 for unlimited, scope strings or string lists), the
  lookups `GetPlan`, `PlanHasFeature` (the truthiness rule `true` / `"all"` /
  `"full"` / positive number), `GetChatbotLimit` (the -1 sentinel becomes
  `Unlimited`), `PlansOrder` and the reverse map from payment-provider price
  id to plan. The price ids are deployment configuration, so they are a
  `PriceIds` parameter; `DefaultPriceIds` holds the fallback literals.
- **Subscription view-model** (`subscription_view.dfy`, module
  `SubscriptionView`): the pure entitlement decisions `CanUseFeature`,
  `CanQueryChatbot` and `RemainingChatbotQueries`, and the hook's local state
  as the class `SubscriptionHook`, whose methods take the results of the
  remote procedure calls (subscription row, daily usage, counter increments)
  as parameters. `Fetched` is the value-level description of one fetch; the
  method `FetchSubscription` is proved to produce it.
- **Webhook reconciler** (`stripe_webhook.dfy`, module `StripeWebhook`): the
  POST endpoint as a state machine over the `subscriptions` table, held as a
  sequence of rows by the class `SubscriptionTable`. Whether the signature
  checks out is a separate boolean parameter of `Handle` and `Post`; the
  configured price ids, the provider's subscription record, the clock and
  whether the store accepts a write are the delivery's `Context`. `Handle` describes one delivery as a value;
  one method per event kind and the dispatcher `Post` are proved to produce
  it. The store's own operations (finding the conflicting row, upsert on
  `user_id`, update of every row with a given provider subscription id) are
  methods with loops.
- **From store to view** (`store_to_view.dfy`, module `StoreToView`): what
  the hook adopts from a stored row, under the assumption that its
  subscription query returns the caller's stored row unchanged (the
  procedure itself is not part of this model).
- `wrappers.dfy`: `Option` and `Result`.

Behaviour of the code that departs from the intended design:

- Store failures are meant to surface as a 5xx so that the provider
  redelivers the event. The handler never inspects the store's reply, so a
  write the store rejects is still answered `{received: true}` (200) and the
  table is unchanged. The model follows the code (`Context.writeAccepted`,
  `FailuresComeFromTheLookup`).
- Every plan is meant to define the same limit keys; the `unidad` plan
  defines four more (`max_team_members`, `shared_atestados`, `team_stats`,
  `export_reports`). `PlanLimits` states the key sets exactly.
- The only way a delivery with a valid signature fails (500) is the
  provider lookup: it throws, or, on a completed checkout, the subscription
  has no items to read a price from.

## Model

| member | source | states |
|---|---|---|
| `Plans.PlanLimits` | lib/plans.ts:6-118 | every plan defines the nine common limit keys, `unidad` four more; the chatbot quota is an integer at least -1 |
| `Plans.GetPlan` | lib/plans.ts:126-128 | the table entry for an id carries that id, that plan's limits, and only `profesional` is marked popular |
| `Plans.StripePriceId` | lib/plans.ts:29-90 | exactly the three paid plans have a provider price id |
| `Plans.GrantsFeature` | lib/plans.ts:137 | the truthiness rule: any positive integer grants; `false`, 0, -1, `'cp_only'` and a list never do |
| `Plans.PlanHasFeature` | lib/plans.ts:133-138 | a feature needs a defined key; a list value, `'cp_only'` and the -1 sentinel never grant it; a defined key holding `true`, `'all'`, `'full'` or a positive integer always does |
| `Plans.GetChatbotLimit` | lib/plans.ts:143-146 | `Unlimited` exactly when the stored quota is -1, otherwise the stored quota |
| `Plans.Rank` | lib/plans.ts:151 | the position of each plan in `PLANS_ORDER` |
| `Plans.StripePriceToPlan` | lib/plans.ts:156-160 | the reverse map's keys are exactly the three configured price ids |
| `Plans.ChatbotLimits` | lib/plans.ts:143-146 | free gives 0, agente 5, profesional and unidad unlimited |
| `Plans.FreeHasNoFeature` | lib/plans.ts:12-22 | the free plan grants no feature for any key |
| `Plans.AgenteFeatures` | lib/plans.ts:35-45 | the agent plan's only feature is its chatbot quota |
| `Plans.ProfesionalFeatures` | lib/plans.ts:61-71 | the professional plan grants exactly the common keys other than the chatbot quota and `team_features` |
| `Plans.UnidadFeatures` | lib/plans.ts:92-106 | the team plan grants exactly its thirteen keys other than the chatbot quota |
| `Plans.TeamFeaturesOnlyUnidad` | lib/plans.ts:133-138 | `team_features` is granted exactly to `unidad` |
| `Plans.FeaturesGrowAlongOrder` | lib/plans.ts:6-118 | a later plan in the order has every feature of an earlier one, the chatbot key excepted |
| `Plans.UnlimitedChatbotIsNoFeature` | lib/plans.ts:137 | the unlimited quota (-1) reads as no feature while agente's 5 reads as one |
| `Plans.PricesIncreaseAlongOrder` | lib/plans.ts:149-151 | prices strictly increase along `PLANS_ORDER` |
| `Plans.PlansOrderIsAPermutation` | lib/plans.ts:151 | `PLANS_ORDER` lists no plan twice |
| `Plans.RankOfOrderEntry` | lib/plans.ts:151 | each entry of `PLANS_ORDER` has its own position as rank |
| `Plans.PlanPrices` | lib/plans.ts:10-89 | the monthly prices are 0, 4.99, 9.99 and 99.99 euros (0, 499, 999 and 9999 cents) |
| `Plans.PriceToPlanInverts` | lib/plans.ts:156-160 | with distinct price ids, each paid plan's price id maps back to that plan |
| `Plans.PriceToPlanNeverFree` | lib/plans.ts:156-160 | the reverse map never yields `free`; with distinct ids a key is the price id of the plan it yields |
| `Plans.DefaultPriceIdsDistinct` | lib/plans.ts:33-90 | the fallback price ids are pairwise distinct |
| `SubscriptionView.CanUseFeature` | hooks/useSubscription.ts:101-103 | a granted feature implies a paid plan, and above `agente` for any key but the chatbot quota |
| `SubscriptionView.CanQueryChatbot` | hooks/useSubscription.ts:106-113 | always with an unlimited quota, never with quota 0, otherwise exactly while usage is below the quota |
| `SubscriptionView.RemainingChatbotQueries` | hooks/useSubscription.ts:116-122 | unlimited passes through; a finite result is never negative, is 0 once the quota is used, and adds up with usage to the quota |
| `SubscriptionView.QueryConsistency` | hooks/useSubscription.ts:106-122 | for usage at least 0, a query is allowed iff remaining is unlimited or positive |
| `SubscriptionView.NegativeUsageBreaksConsistency` | hooks/useSubscription.ts:110-121 | with usage -1 on the free plan no query is allowed yet one remains, so the law needs usage at least 0 |
| `SubscriptionView.ZeroQuotaNeverQueries` | hooks/useSubscription.ts:110 | a zero quota (only `free`) never allows a query, whatever the usage |
| `SubscriptionView.QuotaExhausted` | hooks/useSubscription.ts:112-121 | usage equal to a finite quota: no query, 0 remaining |
| `SubscriptionView.AgenteAfterFiveQueries` | hooks/useSubscription.ts:106-122 | agente with 5 used: no query, 0 left; with 4 used: allowed, 1 left |
| `SubscriptionView.CounterOrZero` | hooks/useSubscription.ts:78-79 | a missing counter reads as 0, a present one as its value |
| `SubscriptionView.AdoptSubscription` | hooks/useSubscription.ts:63-68 | adopting an active row takes its plan, status and period end, sets the cancel flag only when the row's is `true`, and leaves usage, `loading` and the error alone |
| `SubscriptionView.AfterUsage` | hooks/useSubscription.ts:70-89 | the usage step ends loading, keeps plan, status, period end and cancel flag, replaces usage only when the query returns, and sets the unexpected-error text only when it throws |
| `SubscriptionView.UsageFromRows` | hooks/useSubscription.ts:76-83 | no rows gives zeros; otherwise each counter is the first row's value, or 0 when missing |
| `SubscriptionView.Fetched` | hooks/useSubscription.ts:46-91 | one fetch as a value: loading ends false; the plan changes only to an active fetched row's plan; without a user only `loading` changes; a failed subscription query leaves its error text unless the usage query throws |
| `SubscriptionView.FetchAdoptsOnlyActiveRows` | hooks/useSubscription.ts:63-68 | plan, status, period end and cancel flag change only for a fetched active row, and then take its values |
| `SubscriptionView.FetchUsage` | hooks/useSubscription.ts:71-83 | usage is replaced when the usage query returns and kept when it errs or never runs |
| `SubscriptionView.FetchWithoutUser` | hooks/useSubscription.ts:47-50 | without a user a fetch only clears `loading` |
| `SubscriptionView.FetchSettles` | hooks/useSubscription.ts:52-90 | a fetch always clears `loading`; the error text names the step that failed, or is cleared |
| `SubscriptionView.FetchIdempotent` | hooks/useSubscription.ts:46-91 | fetching again from unchanged server data changes nothing |
| `SubscriptionView.SubscriptionHook.constructor` | hooks/useSubscription.ts:37-43 | the initial state: free, active, zero usage, loading, no error, no period end |
| `SubscriptionView.SubscriptionHook.Limits` | hooks/useSubscription.ts:98 | the current plan's limits record defines every common key |
| `SubscriptionView.SubscriptionHook.FetchSubscription` | hooks/useSubscription.ts:46-91 | the new state is `Fetched` of the old one; `loading` ends false; the plan changes only to an active fetched row's plan |
| `SubscriptionView.SubscriptionHook.Refresh` | hooks/useSubscription.ts:165-168 | sets `loading` and then fetches |
| `SubscriptionView.SubscriptionHook.IncrementChatbotUsage` | hooks/useSubscription.ts:125-142 | fails without a user or on a failed call, leaving usage; otherwise the chatbot count becomes the returned count and nothing else changes |
| `SubscriptionView.SubscriptionHook.IncrementAtestadosUsage` | hooks/useSubscription.ts:145-162 | the mirror image for the report counter |
| `SubscriptionView.SubscriptionHook.CanQuery` | hooks/useSubscription.ts:106-113 | on the current state, allowed iff remaining is unlimited or positive (usage at least 0) |
| `SubscriptionView.SubscriptionHook.Remaining` | hooks/useSubscription.ts:116-122 | unlimited exactly when the current plan's quota is |
| `StripeWebhook.StatusText` | app/api/stripe/webhook/route.ts:46-94 | only the active status is stored as `'active'` |
| `StripeWebhook.Response.Status` | app/api/stripe/webhook/route.ts:27-108 | 200 exactly for `{received: true}`, a 4xx exactly for a bad signature, 500 exactly for a failed handler |
| `StripeWebhook.Response.Body` | app/api/stripe/webhook/route.ts:27-108 | the body is `{received: true}` exactly on success; a bad signature answers `Invalid signature`, a failed handler `Webhook handler failed` |
| `StripeWebhook.PlanForPrice` | app/api/stripe/webhook/route.ts:43-44 | never `free`; an unmapped price gives `agente`; with distinct ids a mapped price gives the plan with that price id |
| `StripeWebhook.CheckoutRow` | app/api/stripe/webhook/route.ts:46-54 | the checkout row: the user, the mapped plan, active, the session's customer and subscription, the provider's period, the clock, and no cancellation flag written (stored default `false`) |
| `StripeWebhook.Merged` | app/api/stripe/webhook/route.ts:46-55 | an upsert over an existing row rewrites every written column and keeps the unwritten `cancel_at_period_end` (store behaviour, not in the route) |
| `StripeWebhook.PaymentSucceededPatch` | app/api/stripe/webhook/route.ts:66-70 | renewal writes status active, the provider's period and the clock, and no plan |
| `StripeWebhook.PaymentFailedPatch` | app/api/stripe/webhook/route.ts:79-81 | a failed payment writes status past due and the clock, no plan and no period |
| `StripeWebhook.SubscriptionDeletedPatch` | app/api/stripe/webhook/route.ts:90-93 | deletion writes status cancelled, plan `free` and the clock, no period |
| `StripeWebhook.Upserted` | app/api/stripe/webhook/route.ts:46-55 | the upsert on `user_id`: the table grows by one row exactly for a new user, existing rows keep their user ids, and a new user's row is appended as written |
| `StripeWebhook.UpdatedWhere` | app/api/stripe/webhook/route.ts:66-71 | the update by `stripe_subscription_id`: same length, rows with another id unchanged, matching rows get the patch's status and time and keep user, customer, subscription id and cancel flag |
| `StripeWebhook.CheckoutOutcome` | app/api/stripe/webhook/route.ts:37-59 | 500 exactly when the lookup fails or yields no items; then, or without a user id, or when the store rejects the write, the table is unchanged; other users' rows are never touched |
| `StripeWebhook.PaymentSucceededOutcome` | app/api/stripe/webhook/route.ts:61-75 | 500 exactly when the lookup fails; no row's plan changes; on a kept write the matching rows become active with the provider's period |
| `StripeWebhook.PaymentFailedOutcome` | app/api/stripe/webhook/route.ts:77-86 | always acknowledged; no plan or period changes; on a kept write the matching rows become past due |
| `StripeWebhook.SubscriptionDeletedOutcome` | app/api/stripe/webhook/route.ts:88-98 | always acknowledged; no period changes; on a kept write the rows with the subscription's id become cancelled on `free` |
| `StripeWebhook.Handle` | app/api/stripe/webhook/route.ts:15-109 | one delivery as a value: 400 exactly for a bad signature; any reply but success leaves the table unchanged; unknown kinds are acknowledged with no write; no row is ever removed |
| `StripeWebhook.SubscriptionTable.FindUser` | app/api/stripe/webhook/route.ts:46-55 | finds a row of the user, or reports that there is none |
| `StripeWebhook.SubscriptionTable.Upsert` | app/api/stripe/webhook/route.ts:46-55 | the table becomes the upsert on `user_id` of the row and stays one row per user |
| `StripeWebhook.SubscriptionTable.UpdateWhere` | app/api/stripe/webhook/route.ts:66-71 | every row with the subscription id is patched, every other row is unchanged |
| `StripeWebhook.SubscriptionTable.OnCheckoutCompleted` | app/api/stripe/webhook/route.ts:37-59 | reply and table are those of `CheckoutOutcome` |
| `StripeWebhook.SubscriptionTable.OnPaymentSucceeded` | app/api/stripe/webhook/route.ts:61-75 | reply and table are those of `PaymentSucceededOutcome`; no row's plan changes |
| `StripeWebhook.SubscriptionTable.OnPaymentFailed` | app/api/stripe/webhook/route.ts:77-86 | reply and table are those of `PaymentFailedOutcome` |
| `StripeWebhook.SubscriptionTable.OnSubscriptionDeleted` | app/api/stripe/webhook/route.ts:88-98 | reply and table are those of `SubscriptionDeletedOutcome` |
| `StripeWebhook.SubscriptionTable.Post` | app/api/stripe/webhook/route.ts:15-109 | reply and table are those of `Handle`; any reply but success leaves the table unchanged |
| `StripeWebhook.UpsertedKeepsUsersUnique` | app/api/stripe/webhook/route.ts:46-55 | an upsert keeps at most one row per user |
| `StripeWebhook.UpsertedRowForUser` | app/api/stripe/webhook/route.ts:46-55 | after an upsert the user has a row with the written columns, an existing row keeps its `cancel_at_period_end`, other users' rows are unchanged, and a row is appended only for a new user |
| `StripeWebhook.UpsertedIdempotent` | app/api/stripe/webhook/route.ts:46-55 | upserting the same row twice equals upserting it once |
| `StripeWebhook.UpdatedWhereKeepsUsersUnique` | app/api/stripe/webhook/route.ts:66-94 | an update keeps at most one row per user |
| `StripeWebhook.UpdatedWhereIdempotent` | app/api/stripe/webhook/route.ts:66-94 | applying the same update twice equals applying it once |
| `StripeWebhook.InvalidSignatureWritesNothing` | app/api/stripe/webhook/route.ts:21-33 | a bad signature gives 400 and leaves the table unchanged |
| `StripeWebhook.UnknownKindIsAcknowledged` | app/api/stripe/webhook/route.ts:36-101 | an unknown event kind gives `{received: true}` and changes nothing |
| `StripeWebhook.FailuresComeFromTheLookup` | app/api/stripe/webhook/route.ts:35-108 | 500 exactly when the provider lookup fails on checkout or renewal; 400 exactly for a bad signature; a failed delivery or a rejected write changes nothing |
| `StripeWebhook.CheckoutWritesTheUsersRow` | app/api/stripe/webhook/route.ts:37-59 | a checkout leaves the user one row with the mapped plan, active, the session's customer and subscription, the provider's period and the clock; other users untouched |
| `StripeWebhook.UpdateEventsTouchMatchingRows` | app/api/stripe/webhook/route.ts:61-98 | renewal (given a successful lookup), failed payment and deletion (with no lookup needed) change exactly the matching rows and exactly their columns |
| `StripeWebhook.HandleKeepsTheTableWellFormed` | app/api/stripe/webhook/route.ts:36-99 | every delivery keeps one row per user and never removes a user's row |
| `StripeWebhook.ReplayIsIdempotent` | app/api/stripe/webhook/route.ts:36-101 | redelivering an event with the same provider data and clock gives the reply and table of one delivery |
| `StripeWebhook.DeliveryOrderMatters` | app/api/stripe/webhook/route.ts:61-98 | a renewal after a deletion leaves an active row on `free`; the other order leaves it cancelled |
| `StoreToView.AsRecord` | hooks/useSubscription.ts:56-68 | the hook's view of a row keeps its plan and reads `'active'` exactly for an active row |
| `StoreToView.CheckoutReachesTheHook` | hooks/useSubscription.ts:63-68 | a hook fetching the row a checkout wrote adopts the mapped paid plan |
| `StoreToView.DegradedRowKeepsThePreviousPlan` | hooks/useSubscription.ts:63-68 | a past-due or cancelled row leaves the hook's plan and status as they were |
| `StoreToView.FreshHookOnCancelledRow` | hooks/useSubscription.ts:37-68 | a new hook that sees a cancelled row stays on `free` and cannot query the chatbot |

## Left out

- StoreToView.AsRecord: assumes that `get_user_subscription` returns the caller's stored row unchanged (plan, status text, period end, cancel flag); that procedure is not part of this model, so `CheckoutReachesTheHook`, `DegradedRowKeepsThePreviousPlan` and `FreshHookOnCancelledRow` hold under that assumption only.
- Signature verification internals and the provider's subscription lookup: the model takes the verdict (`signatureValid`) and the returned record, or its absence when the call throws, as inputs.
- The datastore and its procedures (`get_user_subscription`, `get_daily_usage`, `increment_chatbot_usage`, `increment_atestados_usage`): only their results are modelled; the atomicity of the increments lives in the database.
- React scheduling (`useEffect`, `useState` batching, asynchronous interleaving): calls are sequential, and the signed-in user is fixed for the life of a `SubscriptionHook`.
- Timestamp formatting (`new Date(x * 1000).toISOString()`, `new Date()`): times are integers, the clock is `Context.now`.
- Logging and the environment-variable lookups; an empty environment value falling back to the default is not modelled, the configured ids are just a `PriceIds` value.
- Plan display copy (descriptions, feature bullet texts) and the pricing page, the chatbot limit bar and the locked-feature wrapper, which only render.
- The cast of the fetched plan column to a plan id: the model types it as `PlanId`, so a row holding an unknown plan name is not represented.
- An invoice without a subscription id (a one-off invoice): the model always has a subscription id string.
- Store columns the handler never writes (`id`, `created_at`): not modelled; `cancel_at_period_end` is modelled, kept by the upsert on conflict and assumed to default to false on insert.
- A checkout session without a user id in its metadata: modelled as a write the store rejects (the user column is assumed to be required).
- Only the first subscription item's price is read, as in the code; later items are ignored.
- Concurrent deliveries: the table sees one delivery at a time; `DeliveryOrderMatters` shows what order does.
