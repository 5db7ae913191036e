# Lab portal control plane, modelled in Dafny

This project models the backend of the AI lab portal (`ai-lab-backend`). The backend is a set of
HTTP handlers over a document store with six containers: users, subscriptions, tier definitions,
environments, usage snapshots and AI experiments. Each handler authenticates the caller with a
bearer token, runs a short chain of checks against point reads and queries, maps each failed check
to a status code, and writes at most a few documents.

Layout:

- `wrappers.dfy` holds `Option`, the `??` operator (`OrElse`) and JavaScript string truthiness
  (`Truthy`, `OrFallback` for `a || b`).
- `http.dfy` holds the response shape: `Ok(status, body)` or `Fail(status, message)`.
- `query.dfy` holds the store's query and point-read semantics over a container held as a
  sequence in store order: `Filter` for `WHERE`, `Lookup` for a read by key (the first match)
  and `Upsert` for replace-or-append, with their lemmas.
- `models.dfy` holds the documents. Every status field is a datatype with exactly the source's
  values. There are five environment statuses and three subscription statuses. Optional fields
  are `Option`, so an absent `softDeleted` is distinct from `false`. Timestamps are integer
  milliseconds.
- `store.dfy` holds the key of each container and the point reads. It also holds the `Store`
  class, whose six `seq` fields are the containers and whose `Valid()` invariant says that keys
  are unique in every container and that every user's `id` equals its `userId`. Every write
  method re-establishes `Valid()` and names the one field it modifies.
- `usage.dfy`, `auth.dfy` and `chat.dfy` hold the shared helpers: credits, auth context
  extraction, and chat-completion post-processing.
- One file per handler. Handlers that write (environment create and delete, experiment run,
  subscription create, `/me`) are module-level methods that take the `Store` and name the
  fields they modify. Read-only handlers are functions of the
  containers they query and prove the store unchanged simply by being functions.

Things given to the model as inputs:

- the decoded claims, as a `decode` function argument;
- the caller's auth context (an `Option`; `None` means the request gets 401);
- fresh ids, with a freshness precondition;
- the clock reading `now`;
- the environment settings;
- the chat provider's result.
- for environment creation, the reading of the quota query (`QuotaReading`): `AsQueried` is the
  query text as written and `Intended` the corrected count.

Tenant isolation shows up as follows. Every tenant-scoped read is keyed by (id, caller tenant).
Every listing's contract says that each returned entry comes from a document of the caller's
tenant. Every write is stated as the whole new container, so nothing else changes.

## Model

| member | source | states |
|---|---|---|
| Models.AddDays | ai-lab-backend/src/functions/environments-create.ts:78-80 | the expiry lies exactly `days` whole days after `now` |
| Models.LabExpiryDays | ai-lab-backend/src/functions/subscriptions-create.ts:33 | the tier's `labExpiryDays` when present, otherwise 14 |
| DocumentStore.ReadSubscription | ai-lab-backend/src/functions/environments-create.ts:52-54 | a found subscription is stored with that id and the caller's tenant; None means no stored subscription has that key |
| DocumentStore.ReadEnvironment | ai-lab-backend/src/functions/environments-delete.ts:8-23 | `getEnvironmentForTenant`: a found environment has that id and the caller's tenant; None means none does |
| DocumentStore.ReadTier | ai-lab-backend/src/functions/subscriptions-create.ts:23-25 | a found tier is stored with that id; None means no tier has it |
| DocumentStore.ReadExperiment | ai-lab-backend/src/functions/experiments-run.ts:32-35 | a found experiment is stored with that id; None means none has it (the same read as experiments-get-by-id) |
| DocumentStore.Store.constructor | ai-lab-backend/src/shared/cosmosClient.ts:15-22 | a store holding only the tier and experiment catalogs satisfies the invariant |
| DocumentStore.Store.CreateUser | ai-lab-backend/src/functions/me.ts:35 | appends exactly the new user and keeps keys unique |
| DocumentStore.Store.CreateSubscription | ai-lab-backend/src/functions/subscriptions-create.ts:50 | appends exactly the new subscription and keeps keys unique |
| DocumentStore.Store.ReplaceSubscription | ai-lab-backend/src/functions/experiments-run.ts:92 | replaces the stored document with the same key in place; the container's length is unchanged |
| DocumentStore.Store.CreateEnvironment | ai-lab-backend/src/functions/environments-create.ts:95 | appends exactly the new environment and keeps keys unique |
| DocumentStore.Store.UpsertEnvironment | ai-lab-backend/src/functions/environments-delete.ts:46 | replaces the document with the same key, or appends it when there is none |
| DocumentStore.Store.CreateUsage | ai-lab-backend/src/shared/usage.ts:36 | appends exactly the new snapshot and keeps keys unique |
| Query.LookupUpsertSame | ai-lab-backend/src/functions/environments-delete.ts:46 | after an upsert, a read of that key returns the written document |
| Query.LookupUpsertOther | ai-lab-backend/src/functions/environments-delete.ts:46 | an upsert leaves a read of any other key unchanged |
| Query.UpsertKeepsUniqueKeys | ai-lab-backend/src/functions/environments-create.ts:95 | an upsert keeps keys unique; with a fresh key it is an append that adds one document |
| Query.UpsertAfterAppend | ai-lab-backend/src/functions/environments-create.ts:95-100 | create then replace of the same key leaves one document, the replacement, at the end |
| Usage.TokensToCredits | ai-lab-backend/src/shared/usage.ts:10-12 | credits c of t tokens satisfy t ≤ 10·c < t + 10 |
| Usage.CreditsAreCeiling | ai-lab-backend/src/shared/usage.ts:10-12 | those bounds pin the value down: it is the ceiling of t/10 |
| Usage.TokensToCreditsExamples | ai-lab-backend/src/shared/usage.ts:10-12 | 0→0, 1→1, 10→1, 11→2, 100→10 |
| Usage.TokensToCreditsMonotone | ai-lab-backend/src/shared/usage.ts:10-12 | more tokens never cost fewer credits |
| Usage.RecordUsage | ai-lab-backend/src/shared/usage.ts:14-39 | appends exactly one snapshot, the one it returns, with the fresh id and `now`; the six parameters are copied; creditsConsumed = TokensToCredits(tokensUsed) |
| Auth.Unauthorized | ai-lab-backend/src/shared/auth.ts:14-16 | status 401, message "Unauthorized" by default |
| Auth.Forbidden | ai-lab-backend/src/shared/auth.ts:18-20 | status 403, message "Forbidden" by default |
| Auth.BearerToken | ai-lab-backend/src/shared/auth.ts:25-31 | a token exactly when the header starts with the case-sensitive `"Bearer "` and has more after it; the header is the prefix followed by the token |
| Auth.BearerTokenRoundTrip | ai-lab-backend/src/shared/auth.ts:26 | prefixing a non-empty token and extracting gives the token back |
| Auth.GetAuthContext | ai-lab-backend/src/shared/auth.ts:24-65 | None without a token or when decoding fails; Some exactly when the audience is accepted and user and tenant are non-empty; userId = oid or else sub, tenantId = tid, email, name and roles as claimed |
| Auth.NoAudienceConfiguredAcceptsAll | ai-lab-backend/src/shared/auth.ts:40-43 | with no audience setting, or an empty one, every `aud` is accepted |
| Auth.SomeRoleIn | ai-lab-backend/src/shared/auth.ts:68 | true exactly when some held role is in the required list |
| Auth.RequireRole | ai-lab-backend/src/shared/auth.ts:67-69 | allowed iff some role is both held and required; never allowed when either list is empty |
| ChatClient.ReplyText | ai-lab-backend/src/shared/openaiClient.ts:30-31 | the first choice's message content, or "" when any link of it is absent |
| ChatClient.ReportedTokens | ai-lab-backend/src/shared/openaiClient.ts:33-36 | completion plus prompt tokens, each absent count, or an absent usage report, counted as 0 |
| ChatClient.RoundQuarter | ai-lab-backend/src/shared/openaiClient.ts:37 | the nearest integer r to n/4, halves up: 4r ≤ n+2 < 4r+4 |
| ChatClient.RunChatCompletion | ai-lab-backend/src/shared/openaiClient.ts:30-39 | the reply is ReplyText; tokens are the reported sum when non-zero, otherwise a quarter of the reply length, rounded |
| ChatClient.EmptyReplyWithoutUsageIsFree | ai-lab-backend/src/shared/openaiClient.ts:34-37 | an empty reply with nothing reported is billed 0 tokens |
| EnvironmentsCreate.CountActiveEnvironments | ai-lab-backend/src/functions/environments-create.ts:14-26 | the number of the tenant's environments of the subscription whose status is not Deleted and that are not soft-deleted (an absent flag counts as not deleted); at most the container's size |
| EnvironmentsCreate.CountAfterAppend | ai-lab-backend/src/functions/environments-create.ts:69-95 | appending an environment raises the count by one exactly when it counts |
| EnvironmentsCreate.CountActiveEnvironmentsAsQueried | ai-lab-backend/src/functions/environments-create.ts:18 | the count as the query text evaluates (only an explicit `false` flag matches) never exceeds the intended count |
| EnvironmentsCreate.QuotaNeverReachedAsQueried | ai-lab-backend/src/functions/environments-create.ts:18 | over documents whose flag is absent or true, which are the only ones this code writes, the count as queried is 0 |
| EnvironmentsCreate.QuotaOfOneBypassedAsQueried | ai-lab-backend/src/functions/environments-create.ts:18 | one freshly created environment: counted 1 as intended, 0 as queried |
| EnvironmentsCreate.LowerChar | ai-lab-backend/src/functions/environments-create.ts:30 | an upper-case ASCII letter becomes its lower-case letter (code plus 32); the result is never an upper-case ASCII letter; other characters are kept |
| EnvironmentsCreate.ToLower | ai-lab-backend/src/functions/environments-create.ts:30 | same length, each character lower-cased |
| EnvironmentsCreate.ResourceGroupName | ai-lab-backend/src/functions/environments-create.ts:29-31 | prefix, tenant and id joined by "-", each lower-cased; no upper-case ASCII letter in the result |
| EnvironmentsCreate.ResourceGroupNameIsLowerCase | ai-lab-backend/src/functions/environments-create.ts:30 | lower-casing the name again changes nothing |
| EnvironmentsCreate.QuotaCount | ai-lab-backend/src/functions/environments-create.ts:14-26 | the live count under either reading of the quota query; never above the intended count |
| EnvironmentsCreate.CheckRequest | ai-lab-backend/src/functions/environments-create.ts:37-66 | in order: 401 without auth; 400 for a missing subscriptionId or name; 400 for an absent or non-Active subscription read under the caller's tenant; 400 for an absent effective tier (body tierId ?? subscription tierId); otherwise the Active subscription read under the caller's tenant, whichever user of the tenant owns it (no ownership check), and the tier read under that id |
| EnvironmentsCreate.ColleagueSubscriptionPasses | ai-lab-backend/src/functions/environments-create.ts:52-57 | an Active subscription of the caller's tenant owned by another user passes the checks and is the one used |
| EnvironmentsCreate.Admit | ai-lab-backend/src/functions/environments-create.ts:37-93 | a refusal of the checks is the response; otherwise 400 "Max environments reached for this tier" when the count reaches maxEnvironments, else 201 with the Provisioning document: the fresh id, the caller's tenant, the subscription read, the effective tier, lower-cased resource group name, region default, creation time and expiry after labExpiryDays (14 when absent), no softDeleted field |
| EnvironmentsCreate.CreateEnvironmentHandler | ai-lab-backend/src/functions/environments-create.ts:33-108 | answers as Admit does, 201 exactly on success with the fresh id; every failure writes nothing; success stores exactly the created document with status Active after all others; documents the handlers wrote keep only absent or true flags |
| EnvironmentsCreate.AdmittedWithinQuota | ai-lab-backend/src/functions/environments-create.ts:68-95 | counting as intended, storing an admitted document raises its subscription's live count by one and keeps it within the tier's maxEnvironments |
| EnvironmentsCreate.QuotaOfOneRefusesSecond | ai-lab-backend/src/functions/environments-create.ts:68-75 | counting as intended with every tier allowing one environment, the same request after a stored success is refused by the quota |
| EnvironmentsCreate.AsQueriedAdmitsSecond | ai-lab-backend/src/functions/environments-create.ts:18 | counting as the query text reads, over documents the handlers wrote and tiers allowing at least one environment, the same request after a stored success is admitted again |
| EnvironmentsCreate.CreateTwiceWithQuotaOfOne | ai-lab-backend/src/functions/environments-create.ts:68-75 | handler counting as intended, every tier allowing one environment: a success is followed by the quota's 400 |
| EnvironmentsCreate.CreateTwiceAsQueried | ai-lab-backend/src/functions/environments-create.ts:18 | handler counting as the query text reads, over a store the handlers wrote: a success is followed by a second 201, even for a tier of one, and the container becomes the old one plus both documents, marked Active, in order |
| Models.FlagsAfterWrite | ai-lab-backend/src/functions/environments-delete.ts:43-46 | writing a document whose softDeleted flag is absent or true, appended or in place of another, keeps every flag absent or true |
| EnvironmentsDelete.SoftDeleted | ai-lab-backend/src/functions/environments-delete.ts:43-44 | status Deleted and flag true; every other field kept |
| EnvironmentsDelete.DeleteEnvironmentHandler | ai-lab-backend/src/functions/environments-delete.ts:25-56 | 401; 404 when the tenant-scoped lookup finds nothing or a soft-deleted document; never 403 (the tenant check cannot fire); any prior status accepted; on 200 exactly the found document is flagged in place and the container keeps its length; failures write nothing; documents the handlers wrote keep only absent or true flags |
| EnvironmentsDelete.DeleteTwice | ai-lab-backend/src/functions/environments-delete.ts:35-46 | the second delete of the same id is 404 "Environment not found", and nothing is removed |
| EnvironmentsGetById.GetEnvironmentById | ai-lab-backend/src/functions/environments-get-by-id.ts:25-47 | 401; never 403; 200 exactly when a non-soft-deleted environment with that id exists in the caller's tenant, and it is that stored document; otherwise 404 |
| EnvironmentsGet.GetEnvironments | ai-lab-backend/src/functions/environments-get.ts:12-36 | 401; otherwise exactly the caller tenant's environments whose flag is absent or not true, each at most as often as stored |
| EnvironmentsGet.ListsUnflaggedDeletedStatus | ai-lab-backend/src/functions/environments-get.ts:23 | an environment with status Deleted but no flag is still listed |
| ExperimentsRun.Debit | ai-lab-backend/src/functions/experiments-run.ts:91 | the new balance is never negative, never above a non-negative old balance, and exactly old − consumed whenever that is not negative |
| ExperimentsRun.PromptedMessages | ai-lab-backend/src/functions/experiments-run.ts:65-76 | the system prompt first, then the caller's messages unchanged and in order |
| ExperimentsRun.RunExperimentHandler | ai-lab-backend/src/functions/experiments-run.ts:17-102 | 401; 400 without environmentId or a messages array; 404 for an absent experiment or an environment absent in the caller's tenant; 400 for an absent or non-Active subscription, or no credits left; no call, no write on any failure; on 200 the request is the prompted messages capped at maxTokensPerCall, exactly one "OpenAIChat" snapshot is appended, only that subscription is replaced in place with the clamped debit, and the response carries the stored balance |
| SubscriptionsCreate.PrepaidCredits | ai-lab-backend/src/functions/subscriptions-create.ts:36 | the body's amount when present (even 0), else the tier default when present, else 2000 |
| SubscriptionsCreate.CreateSubscriptionHandler | ai-lab-backend/src/functions/subscriptions-create.ts:10-56 | 401; 400 without tierId; 404 for an absent tier; failures write nothing; on 201 exactly one Active subscription of the caller's tenant and user is appended and returned, with prepaid = remaining credits and the tier's expiry |
| SubscriptionsGet.SubscriptionsOf | ai-lab-backend/src/functions/subscriptions-get.ts:15-23 | exactly the subscriptions of that tenant and user |
| SubscriptionsGet.GetSubscriptions | ai-lab-backend/src/functions/subscriptions-get.ts:8-29 | 401; otherwise exactly the caller's own subscriptions |
| SubscriptionsGet.OtherUsersHidden | ai-lab-backend/src/functions/subscriptions-get.ts:17 | another user's subscription is never listed |
| Me.InitialRoles | ai-lab-backend/src/functions/me.ts:30 | never empty; the token roles when there are any, else ["Student"] |
| Me.MeHandler | ai-lab-backend/src/functions/me.ts:9-68 | 401 creating nothing; an existing user with that userId (in any tenant) is used and nothing is created; otherwise exactly one Active user with id = userId = caller, "" for a missing email or name, and the initial roles; the profile is the stored user's, and its subscriptions are exactly the caller's |
| Me.MeTwice | ai-lab-backend/src/functions/me.ts:14-37 | two calls add at most one user and return the same profile |
| ExperimentsGet.GetExperiments | ai-lab-backend/src/functions/experiments-get.ts:7-32 | always 200; a non-empty tierId gives exactly the experiments listing it, an absent or empty one the whole catalog |
| ExperimentsGet.FilteredWithinCatalog | ai-lab-backend/src/functions/experiments-get.ts:10-30 | the filtered catalog is a sub-multiset of the full one |
| ExperimentsGetById.GetExperimentById | ai-lab-backend/src/functions/experiments-get-by-id.ts:7-23 | 200 exactly when an experiment with that id exists, and it is a stored one with that id; otherwise 404 |
| UsageCredits.Summaries | ai-lab-backend/src/functions/usage-credits.ts:17 | one projection per subscription, in order |
| UsageCredits.GetCredits | ai-lab-backend/src/functions/usage-credits.ts:8-26 | 401; otherwise one entry per subscription of the tenant (any user), in order, with its id, tier and both credit counters copied |
| UsageHistory.InsertByTime | ai-lab-backend/src/functions/usage-history.ts:20 | inserting into a newest-first sequence keeps it newest-first and adds exactly that snapshot |
| UsageHistory.SortNewestFirst | ai-lab-backend/src/functions/usage-history.ts:20 | a newest-first permutation of the input |
| UsageHistory.PrefixIsNewest | ai-lab-backend/src/functions/usage-history.ts:20 | no snapshot left out of a newest-first prefix is newer than one kept |
| UsageHistory.Newest | ai-lab-backend/src/functions/usage-history.ts:20 | min(n, size) snapshots from the input, newest first, none left out newer than one returned |
| UsageHistory.GetUsageHistory | ai-lab-backend/src/functions/usage-history.ts:8-32 | 401; otherwise only the tenant's snapshots, at most `top` (50 when absent), newest first, and they are the newest ones |

## Left out

- The portal (`ai-lab-portal/`) is not part of this model. Neither is the store client's
  connection setup (`cosmosClient.ts` up to its container list), nor are the function registrations (`index.ts` and each `app.http`), or `tiers-get.ts`,
  which is a bare listing.
- `jwt.decode` is not modelled. It is the `decode` argument, and a decode that throws is the
  same as one that gives None. Signature checks are absent in the source as well.
- The chat provider's network call is not modelled. Its result is an input.
- Random ids are inputs with a freshness precondition.
- The clock is the `now` input.
- The settings are inputs rather than process environment reads.
- Logging is not modelled.
- Models.AddDays: `setDate` on local calendar days is modelled as adding whole 24-hour days, so
  daylight-saving shifts are not captured.
- Usage.TokensToCredits: the float product `tokens * 0.1` is modelled as the exact integer ceiling
  of tokens/10 over non-negative counts.
- EnvironmentsCreate.CreateEnvironmentHandler: the source counts the quota with the query text
  (`reading == AsQueried`), which never counts a document the handlers wrote. The `Intended`
  reading is the corrected count of the Findings table. CreateTwiceWithQuotaOfOne and
  AdmittedWithinQuota hold only for the corrected count; CreateTwiceAsQueried is the source as written.
- EnvironmentsCreate.ToLower: only ASCII letters are lower-cased. `toLowerCase` on other
  characters is not modelled.
- ChatClient.RunChatCompletion: the reply length is counted in characters of the model string,
  not in UTF-16 code units.
- UsageHistory.GetUsageHistory: `top` is the already parsed count. `parseInt` of a non-numeric or
  negative value is not modelled.
- UsageHistory.GetUsageHistory: the store's order among snapshots with equal timestamps is not
  specified. The model's sort picks one order, and the contract constrains only the timestamps.
- SubscriptionsCreate.CreateSubscriptionHandler: `limits` is always present in the model, so the
  `limits?.` optional chain has no separate absent case.
- Prepaid credits in a request are accepted as any integer, as in the source, including a negative
  one. So the model states no global never-negative invariant for balances. It proves only that a
  debit never makes a balance negative.
- Concurrency is not modelled. Each handler is one sequential step, so races between handlers on
  quotas or balances are out.
- The lack of atomicity between the usage write and the subscription debit is likewise out.
- Me.MeHandler: the 500 response fires only when the store's create returns no document. That
  cannot happen in this store model, so the path is not modelled.
- A read that fails for any reason is a missing document. This matches the source's `.catch` on
  every point read.
- Store writes (create, replace, upsert), `fetchAll` queries and the chat provider call always
  succeed in the model. In the source a failure of any of them is an unhandled rejection and the
  host answers 500. A failed `replace` after a successful `create` in environment creation, which
  leaves a Provisioning document, is therefore not modelled.
- JSON body parsing is a datatype with optional fields. A body that fails to parse is `None`.

## Findings

| source | as written | input that shows it | evidently intended | confidence | as-written member | corrected member |
|---|---|---|---|---|---|---|
| ai-lab-backend/src/functions/environments-create.ts:18 | the quota query filters with `c.softDeleted != true`; the document store drops documents without the field, and creation never sets it, so no live environment is ever counted and the quota never takes effect for a tier allowing at least one environment | a tier with `maxEnvironments` 1 and one Active environment with no `softDeleted` field: it counts 0, so a second environment is created | count documents whose flag is absent or not true, as `environments-get.ts:23` does with `NOT IS_DEFINED` | not executed | EnvironmentsCreate.CreateTwiceAsQueried | EnvironmentsCreate.CreateTwiceWithQuotaOfOne |
