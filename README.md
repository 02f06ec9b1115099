# A verified model of the master-homework data and form logic

This project models the logic in the master-homework repository that sits between its React components, and proves what that logic does. It is written in Dafny. It covers these parts:

- **The week-2 API layer.**
  - `ApiRequestBuilder` and `ApiClient.executeRequest`: bounded retries with linear backoff, cache invalidation on success, and error reporting through an alert, toast or silent strategy.
  - `UnifiedDataClient.mutate`: optimistic local writes, and rollback by revalidation.
  - `useQuery`'s option merge and `useMutation`'s callback dispatch.
  - `enhanced-swr.ts`: the five-slot snapshot buffer, the SWR config builder and its presets.
- **The week-2 campaign code.**
  - `CampaignApiClient`.
  - The optimized and builder-based status services.
  - The legacy status service with its `success` flag.
  - The axios interceptors and the environment-variable lookup.
- **Week 3.** The to-do list updates of `useTodos`.
- **Weeks 4 and 5.**
  - The profile forms: the ordered checks of `assignment.tsx`, the three zod schemas, the payload shaping of `updateUserProfile`, the edit state of `useUserProfileForm` and the result messages of `updateUserInfo`.
  - The campaign tag schema.

The model replaces external services with values:

- **Transport.** The HTTP transport is a sequence of replies, one per attempt. Reading past its end gives a "Network Error" failure with no response.
- **Cache.** The SWR cache is a map from key to an entry holding a value and a stale flag. A revalidation marks the key stale; an optimistic write stores the value and marks it fresh.
- **Event log.** Requests, backoff waits, revalidations, local writes, alerts, toasts and console reports are appended to an event log instead of being performed.
- **Library calls.** zod's `email()` and `uuid()` checks are predicates passed in as parameters. React state changes and effects are explicit transitions of a class.

Each wrapper's retry loop is a Dafny method with a `while` loop. It is proved equal to a recursive reference function: `Api.Attempts` for the client and `Unified.MutateFrom` for the unified client. Closed-form lemmas about that function state the following:
- how many attempts are made;
- the delays between them;
- which keys are revalidated or written;
- what is reported;
- what is returned.

Shared pieces live in their own modules:
- `Js`: options, JSON values, JavaScript truthiness and `trim`.
- `Http`: replies, failures, the cache, the event log and retry-run helpers.
- `Swr`: the SWR configuration record and object spread.
- `Zod`: issues and parse results.

## Model

| member | source | states |
|---|---|---|
| Api.ApiRequestBuilder.constructor | week2/refactoring/apis/api-client/api-client.ts:27-30 | A new builder holds url `""`, data `null` and an empty config. |
| Api.ApiRequestBuilder.Endpoint | week2/refactoring/apis/api-client/api-client.ts:32-35 | Sets only the url, and returns the same builder. |
| Api.ApiRequestBuilder.Payload | week2/refactoring/apis/api-client/api-client.ts:37-40 | Sets only the data, and returns the same builder. |
| Api.ApiRequestBuilder.InvalidateCache | week2/refactoring/apis/api-client/api-client.ts:42-45 | Sets only `config.invalidateCache`, keeping the other config fields; returns the same builder. |
| Api.ApiRequestBuilder.SuccessMessage | week2/refactoring/apis/api-client/api-client.ts:47-50 | Sets only `config.successMessage`, and returns the same builder. |
| Api.ApiRequestBuilder.ErrorMessage | week2/refactoring/apis/api-client/api-client.ts:52-55 | Sets only `config.errorMessage`, and returns the same builder. |
| Api.ApiRequestBuilder.Silent | week2/refactoring/apis/api-client/api-client.ts:57-60 | Sets only `config.silent` to true, and returns the same builder. |
| Api.ApiRequestBuilder.Retry | week2/refactoring/apis/api-client/api-client.ts:62-65 | Sets only `config.retries`, and returns the same builder. |
| Api.BuildAll | week2/refactoring/apis/api-client/api-client.ts:27-73 | A fresh builder builds `("", null, {})`. After every setter, `build()` returns exactly the url, data and full config that were set. |
| Api.Handle | week2/refactoring/apis/api-client/api-client.ts:86-115 | Each strategy reports exactly once. Alert and toast use `errorMessage`, else the body's `message`, else the default. Silent logs the error. |
| Http.ErrorText | week2/refactoring/apis/api-client/api-client.ts:88-95 | The three-way message choice. A falsy custom or body message falls through to `오류가 발생했습니다.`. |
| Http.KeyList | week2/refactoring/apis/api-client/api-client.ts:242-246 | A single key becomes a one-element list and an array is used as given. An absent key, or the falsy `""`, gives none. |
| Http.InvalidateAllEntries | week2/refactoring/apis/api-client/api-client.ts:242-248 | After invalidating keys, the cache holds exactly the old keys plus the listed ones. Every listed key is stale with its old value, and every other entry is unchanged. |
| Http.WriteAllEntries | week2/refactoring/apis/api-client/unified-client.ts:66-75 | After the optimistic writes, every listed key holds the value, fresh, and every other entry is unchanged. |
| Http.InvalidateEach | week2/refactoring/apis/api-client/api-client.ts:246-248 | The `forEach` over the keys equals `InvalidateAll`, and logs one revalidation per key in order. |
| Api.ApiClient.constructor | week2/refactoring/apis/api-client/api-client.ts:119-124 | The client keeps the given strategy, alerting by default. |
| Api.ApiClient.SetErrorStrategy | week2/refactoring/apis/api-client/api-client.ts:265-267 | Replaces the strategy. |
| Api.ApiClient.HandleSuccess | week2/refactoring/apis/api-client/api-client.ts:237-255 | Invalidates every listed key, then logs the success message when there is one and the call is not silent. |
| Api.ApiClient.HandleError | week2/refactoring/apis/api-client/api-client.ts:258-262 | Reports nothing when silent; otherwise it reports once through the strategy. |
| Api.ApiClient.Send | week2/refactoring/apis/api-client/api-client.ts:190-206 | Each verb sends one request and takes the transport's reply, DELETE without a payload. An unsupported method sends nothing and fails with `Unsupported method: <name>`. |
| Api.ApiClient.ExecuteRequest | week2/refactoring/apis/api-client/api-client.ts:179-234 | The retry loop's run (response, cache and log) equals the reference `Attempts` from attempt 0. |
| Api.ApiClient.Post | week2/refactoring/apis/api-client/api-client.ts:126-134 | `post` is `executeRequest` with POST, its url and data, and the caller's config. |
| Api.ApiClient.Put | week2/refactoring/apis/api-client/api-client.ts:136-145 | `put` is `executeRequest` with PUT. |
| Api.ApiClient.Delete | week2/refactoring/apis/api-client/api-client.ts:147-155 | `delete` is `executeRequest` with DELETE and `null` data. |
| Api.ApiClient.Patch | week2/refactoring/apis/api-client/api-client.ts:157-166 | `patch` is `executeRequest` with PATCH. |
| Api.ApiClient.Execute | week2/refactoring/apis/api-client/api-client.ts:169-176 | `execute` runs the builder's own request and config. |
| Api.AttemptsFrom | week2/refactoring/apis/api-client/api-client.ts:187-233 | From any attempt on, a call is each failed attempt followed by its backoff, then the attempt that ends it: the first success or the last allowed attempt. |
| Api.AttemptsMade | week2/refactoring/apis/api-client/api-client.ts:184-187 | A call makes no attempt when `retries` is negative; otherwise between 1 and `maxRetries + 1`. |
| Api.RetrySchedule | week2/refactoring/apis/api-client/api-client.ts:187-229 | A supported method sends one request per attempt. The waits are 1000, 2000, … ms, with none after the last attempt. |
| Api.NegativeRetries | week2/refactoring/apis/api-client/api-client.ts:184-233 | A negative `retries` is truthy and stays negative. Nothing is sent, waited or reported, the cache is untouched, and the result is `{success:false}` with no error. |
| Api.Outcome | week2/refactoring/apis/api-client/api-client.ts:187-226 | Success holds exactly when some attempt up to `maxRetries` gets a success. It returns that reply's data and invalidates the keys. A failure returns the last failure's message and leaves the cache alone. |
| Api.AlwaysFailing | week2/refactoring/apis/api-client/api-client.ts:184-226 | Against a transport that only fails, a call makes exactly `maxRetries + 1` attempts and returns `{success:false, error}`. |
| Api.FirstSuccess | week2/refactoring/apis/api-client/api-client.ts:187-214 | When the first success comes on attempt k ≤ `maxRetries + 1`, exactly k requests are made and the data is returned. |
| Api.CacheOnlyOnSuccess | week2/refactoring/apis/api-client/api-client.ts:209-248 | Keys are invalidated once each, in order, and only on success. A failed call invalidates nothing. |
| Api.Reporting | week2/refactoring/apis/api-client/api-client.ts:218-262 | The error strategy reports only on the final failure and only when not silent. Success logs the message when there is one. A call that never ran reports nothing. |
| Api.RequestsSent | week2/refactoring/apis/api-client/api-client.ts:190-203 | Every request of a call is the same one, and DELETE carries no payload. |
| Api.UnsupportedMethod | week2/refactoring/apis/api-client/api-client.ts:204-229 | An unsupported method never reaches the transport. It is retried like a failure, waits the same delays, and ends with its own error. |
| Http.TriesWaits | week2/refactoring/apis/api-client/api-client.ts:227-229 | A stretch of retried attempts waits exactly 1000·(i+1), …, 1000·j ms. |
| Http.WriteAllIdempotent | week2/refactoring/apis/api-client/unified-client.ts:66-75 | Writing the same value to the same keys twice is writing it once. |
| Http.WriteEach | week2/refactoring/apis/api-client/unified-client.ts:70-73 | The `forEach` of local writes equals `WriteAll`, and logs one write per key. |
| Unified.QueryConfig | week2/refactoring/apis/api-client/unified-client.ts:34-49 | With no options the config is focus and reconnect on and deduping 300000. `dedupingInterval` defaults to `ttl \|\| 300000`, with caller fields winning. `network-only` forces deduping 0 and `revalidateIfStale` true. `realtime` forces refresh 5000 and focus on. |
| Unified.TentativeIdempotent | week2/refactoring/apis/api-client/unified-client.ts:66-75 | Re-applying the optimistic write at each retry leaves the cache as after the first one. |
| Unified.Mutate | week2/refactoring/apis/api-client/unified-client.ts:55-141 | The loop with its optimistic writes, request switch, revalidation, rollback and alert equals the reference `MutateFrom` from attempt 0. |
| Unified.WriteOptimistic | week2/refactoring/apis/api-client/unified-client.ts:66-75 | When both `optimisticUpdate` and `invalidateQueries` are truthy, every listed key gets the value locally. Otherwise nothing happens. |
| Unified.Revalidate | week2/refactoring/apis/api-client/unified-client.ts:93-105 | On success every listed key is revalidated and the success message logged unless silent. |
| Unified.Rollback | week2/refactoring/apis/api-client/unified-client.ts:115-128 | On the final failure the keys are revalidated only if the optimistic write happened. The alert fires unless silent. |
| Unified.Post | week2/refactoring/apis/api-client/unified-client.ts:149-151 | The convenience method is `mutate('POST', …)`. |
| Unified.Put | week2/refactoring/apis/api-client/unified-client.ts:153-155 | The convenience method is `mutate('PUT', …)`. |
| Unified.Delete | week2/refactoring/apis/api-client/unified-client.ts:157-159 | The convenience method is `mutate('DELETE', url, undefined, …)`. |
| Unified.Patch | week2/refactoring/apis/api-client/unified-client.ts:161-163 | The convenience method is `mutate('PATCH', …)`. |
| Unified.AttemptsMade | week2/refactoring/apis/api-client/unified-client.ts:61-64 | No attempt is made when `retries` is negative; otherwise between 1 and `maxRetries + 1`, up to the first success. |
| Unified.MutateClosed | week2/refactoring/apis/api-client/unified-client.ts:64-140 | A call is its failed attempts, each followed by its backoff, then the attempt that settles it. |
| Unified.NegativeRetries | week2/refactoring/apis/api-client/unified-client.ts:61-140 | A negative `retries` gives `{success:false}` with no attempt and the cache untouched. |
| Unified.RetrySchedule | week2/refactoring/apis/api-client/unified-client.ts:66-136 | One request per attempt, with waits of 1000·i ms between attempts. When optimistic, the value is written to every key at the start of every attempt. |
| Unified.Outcome | week2/refactoring/apis/api-client/unified-client.ts:61-133 | Success holds exactly when an attempt up to `maxRetries` succeeds, and then every key is revalidated. On the final failure an optimistic write is rolled back by revalidation; otherwise the cache is left alone. |
| Unified.NoDanglingOptimism | week2/refactoring/apis/api-client/unified-client.ts:66-122 | After a call ran, no listed key keeps the optimistic value fresh. A failed call without an optimistic write leaves the cache unchanged. |
| Unified.Reporting | week2/refactoring/apis/api-client/unified-client.ts:103-146 | The alert fires only when not silent, with `errorMessage`, else the body's `message`, else the default. Keys are revalidated on success or on rollback. |
| Unified.InvalidateQueries | week2/refactoring/apis/api-client/unified-client.ts:215-218 | Revalidates each given key, with no truthiness test, so `""` is revalidated too. |
| Unified.HookCatch | week2/refactoring/apis/api-client/unified-client.ts:199-206 | The `catch` sets `error` to the caught message, calls `onError` with the error object when given, and rethrows. If `onError` throws, its exception is what leaves. |
| Unified.HookRunOf | week2/refactoring/apis/api-client/unified-client.ts:188-206 | The error state is set exactly when the call rethrows. A returned result is the resolved one. A rejection sets `error` to its message and calls only `onError`, with the error object. At most two callbacks run. |
| Unified.QuietCallbacks | week2/refactoring/apis/api-client/unified-client.ts:188-206 | With callbacks that do not throw, at most one is called: `onSuccess` exactly for a successful result, `onError` exactly for a failed or rejected one, each only when given. Only a rejection sets `error`, and it is rethrown. |
| Unified.ThrowingOnSuccess | week2/refactoring/apis/api-client/unified-client.ts:192-206 | An `onSuccess` that throws after a successful result lands in the `catch`. The error state gets its message, `onError` is called although the mutation succeeded, and the call rethrows instead of returning. |
| Unified.MutationHook.Mutate | week2/refactoring/apis/api-client/unified-client.ts:185-209 | Ends with loading off. The error state, the callbacks called and the returned or rethrown outcome are those of `HookRunOf`. |
| Swr.Spread | week2/refactoring/apis/api-client/enhanced-swr.ts:57-63 | `{ ...base, ...over }`: each field the later object has wins. |
| EnhancedSwr.LastN | week2/refactoring/apis/api-client/enhanced-swr.ts:23-26 | The buffer keeps the newest n entries in order. |
| EnhancedSwr.LastNSnoc | week2/refactoring/apis/api-client/enhanced-swr.ts:23-26 | Push then shift on overflow keeps the newest n of the longer history. |
| EnhancedSwr.At | week2/refactoring/apis/api-client/enhanced-swr.ts:40 | `Array.prototype.at`: an entry exists exactly for -n ≤ i < n, and a negative index counts from the end. |
| EnhancedSwr.SimpleCacheManager.CreateSnapshot | week2/refactoring/apis/api-client/enhanced-swr.ts:16-29 | Never more than 5 snapshots, the newest last. Under 5 it appends; at 5 it drops the oldest. The buffer is always the newest five of all snapshots made. |
| EnhancedSwr.SimpleCacheManager.GetSnapshots | week2/refactoring/apis/api-client/enhanced-swr.ts:31-37 | One entry per snapshot, with index 0..n-1 and the snapshot's timestamp. |
| EnhancedSwr.SimpleCacheManager.RestoreSnapshot | week2/refactoring/apis/api-client/enhanced-swr.ts:39-46 | True exactly when `snapshots.at(index)` exists; the default -1 is the newest. It reads the buffer without changing it. |
| EnhancedSwr.SnapshotsAfter | week2/refactoring/apis/api-client/enhanced-swr.ts:13-46 | After snapshots at any sequence of times, the buffer holds the snapshots of the last five times, in order. Restoring the newest succeeds once there is one. |
| EnhancedSwr.LastNSnaps | week2/refactoring/apis/api-client/enhanced-swr.ts:23-26 | Keeping the newest snapshots is the same as keeping the newest timestamps. |
| EnhancedSwr.EnhancedConfig | week2/refactoring/apis/api-client/enhanced-swr.ts:54-66 | Focus and reconnect default to true and deduping to 300000. The caller's fields override them. |
| EnhancedSwr.SwrConfigBuilder.Cache | week2/refactoring/apis/api-client/enhanced-swr.ts:75-78 | Sets only `dedupingInterval`, to minutes·60·1000. |
| EnhancedSwr.SwrConfigBuilder.Realtime | week2/refactoring/apis/api-client/enhanced-swr.ts:81-86 | Sets `refreshInterval` to `interval \|\| 5000` and both revalidate flags to true. |
| EnhancedSwr.SwrConfigBuilder.NoFocusRevalidate | week2/refactoring/apis/api-client/enhanced-swr.ts:89-92 | Sets only `revalidateOnFocus` to false. |
| EnhancedSwr.SwrConfigBuilder.Retry | week2/refactoring/apis/api-client/enhanced-swr.ts:95-98 | Sets only `errorRetryCount`. |
| EnhancedSwr.LaterSetterWins | week2/refactoring/apis/api-client/enhanced-swr.ts:75-102 | A later setter on the same field overwrites the earlier one. Setters on other fields leave it alone. |
| EnhancedSwr.ListPreset | week2/refactoring/apis/api-client/enhanced-swr.ts:166 | `list` is exactly {dedupingInterval 300000, errorRetryCount 3}. |
| EnhancedSwr.RealtimePreset | week2/refactoring/apis/api-client/enhanced-swr.ts:169-170 | `realtime(i)` polls every `i`, or 5000 when `i` is absent or 0. The refresh interval is never 0. |
| EnhancedSwr.StaticPreset | week2/refactoring/apis/api-client/enhanced-swr.ts:172-173 | `static` is exactly {1800000, revalidateOnFocus false}. |
| EnhancedSwr.ResponsivePreset | week2/refactoring/apis/api-client/enhanced-swr.ts:176 | `responsive` is exactly {dedupingInterval 60000}. |
| EnhancedSwr.AutoCampaignAllConfig | week2/refactoring/apis/api-client/enhanced-swr.ts:147-151 | The campaign list hook uses the list preset, and `useEnhancedSWR` keeps focus and reconnect revalidation on for it. |
| Zod.Check | week2/refactoring/apis/campaign/auto-campaign-schemas.ts:6-7 | A check adds its one issue, on its field, exactly when it fails. |
| CampaignSchema.TagIssues | week2/refactoring/apis/campaign/auto-campaign-schemas.ts:3-8 | A name is accepted iff 1 ≤ length ≤ 100. An empty name gets `Name is required`; a name over 100 gets the length message. |
| CampaignSchema.ParseTag | week2/refactoring/apis/campaign/auto-campaign-schemas.ts:3-8 | Parsing returns the dto unchanged exactly when its name has 1 to 100 characters. Otherwise every issue is on `name`. |
| CampaignSchema.AnyIdAccepted | week2/refactoring/apis/campaign/auto-campaign-schemas.ts:10-12 | Any string `autoCampaignId` parses, the empty one included. |
| CampaignApi.CreateTag | week2/refactoring/apis/campaign/campaign-optimized.api.ts:12-19 | The dto is parsed before any request. An invalid one ends in the `ZodError` with its issues and nothing else; a valid one is posted. |
| CampaignApi.CreateTagEffects | week2/refactoring/apis/campaign/campaign-optimized.api.ts:15-18 | A valid tag is posted once, without retry, to `/auto-campaign/campaign-tag` with the dto. Success invalidates `/auto-campaign/campaign-tag/all` and shows the creation message. Failure alerts and leaves the cache alone. |
| CampaignApi.InvalidTagSendsNothing | week2/refactoring/apis/campaign/campaign-optimized.api.ts:13 | A name over 100 characters throws the length issue alone, and no request is made. |
| CampaignApi.StatusMessage | week2/refactoring/apis/campaign/campaign-optimized.api.ts:26-29 | `activate` gets the activated text; `inactive` gets the deactivated text. |
| CampaignApi.UpdateActiveStatus | week2/refactoring/apis/campaign/campaign-optimized.api.ts:22-36 | The cache changes only on success, and then exactly `/auto-campaign/all` is invalidated. |
| CampaignApi.UpdateActiveStatusSchedule | week2/refactoring/apis/campaign/campaign-optimized.api.ts:22-36 | With no validation, every dto is posted to `/auto-campaign/<status>`. One to three attempts are made, with waits of 1 s and 2 s between them. |
| CampaignApi.UpdateActiveStatusOutcome | week2/refactoring/apis/campaign/campaign-optimized.api.ts:26-35 | Success holds exactly when one of the first three replies succeeds. It invalidates `/auto-campaign/all` and shows the status message. A failure comes after all three attempts and leaves the cache alone. |
| CampaignApi.FailFailSucceed | week2/refactoring/apis/campaign/campaign-optimized.api.ts:31-35 | Two failures and then a success give three requests, waits of 1000 and 2000 ms, and the third reply's data. |
| CampaignService.NextStatus | week2/refactoring/services/campaign-optimized.service.ts:46-72 | `active` goes to `inactive` and anything else to `activate`. |
| CampaignService.CatchBlock | week2/refactoring/services/campaign-optimized.service.ts:57-61 | The `catch` calls `onFinally(false)` when given and rethrows the error. If that call throws, its exception is rethrown instead. |
| CampaignService.Guarded | week2/refactoring/services/campaign-optimized.service.ts:48-95 | The result comes back unchanged exactly when the awaited call did not throw and `onFinally` (if given) did not throw on `result.success`. `onFinally` is called once with false after a throw from the awaited call. It is called twice, with `result.success` and then false, when it throws itself. |
| CampaignService.QuietFinallyOnce | week2/refactoring/services/campaign-optimized.service.ts:48-95 | An `onFinally` that never throws is called exactly once: with `result.success` when the result is returned, or with false when the error is rethrown unchanged. |
| CampaignService.ThrowingFinallyCalledTwice | week2/refactoring/services/campaign-optimized.service.ts:55-60 | An `onFinally` that throws on the result is called again with false. The call rethrows instead of returning the result. |
| CampaignService.Optimized | week2/refactoring/services/campaign-optimized.service.ts:40-62 | A returned result changed the cache only on success, by invalidating `/auto-campaign/all`. Without `onFinally` and without a throw, the result is always returned. |
| CampaignService.OptimizedSettles | week2/refactoring/services/campaign-optimized.service.ts:40-62 | The API's result comes back unchanged unless `onFinally` throws on it. A non-throwing `onFinally` gets whether one of the first three replies succeeded. |
| CampaignService.BuildAdvanced | week2/refactoring/services/campaign-optimized.service.ts:79-86 | The builder chain gives the next-status endpoint, the dto, both campaign keys, the status message, retry 3 and the fixed error message. |
| CampaignService.SuccessMessagesAgree | week2/refactoring/services/campaign-optimized.service.ts:73-76 | Choosing the message from the current status gives the same text as choosing it from the next one. |
| CampaignService.Advanced | week2/refactoring/services/campaign-optimized.service.ts:66-96 | A returned result changed the cache only on success, by invalidating `/auto-campaign/all` and `/auto-campaign/<id>`. Without `onFinally` and without a throw, the result is always returned. |
| CampaignService.AdvancedSettles | week2/refactoring/services/campaign-optimized.service.ts:66-91 | The advanced variant returns the API's result unless `onFinally` throws on it; the result succeeds exactly when one of the first four replies does. Success invalidates `/auto-campaign/all` and `/auto-campaign/<id>` and shows the status message. |
| CampaignService.AdvancedFailure | week2/refactoring/services/campaign-optimized.service.ts:79-89 | A call that never succeeds makes 4 attempts, waits 1 s, 2 s and 3 s, and leaves the cache alone. It alerts the fixed message, whatever the server said. |
| LegacyCampaign.UpdateCampaignActiveStatus | week2/legacy/services/campaign.ts:7-35 | `success` is true only after the post resolves. `onFinally(success)` is called exactly once and last. The only alert is the fixed apology. An `AxiosError` with no response or body throws in the `catch`: the alert is skipped and the error escapes. |
| LegacyCampaign.RevalidationFailure | week2/legacy/services/campaign.ts:20-34 | When revalidation fails after the post succeeded, the apology is alerted and then `onFinally(true)` is still called. |
| LegacyCampaign.NetworkFailure | week2/legacy/services/campaign.ts:27-34 | A failure with no response skips the alert and escapes, but `onFinally(false)` still runs. |
| Instance.OnRequest | week2/_instance.ts:28-32 | The request config passes through unchanged. |
| Instance.OnResponse | week2/_instance.ts:35-37 | Successful responses pass through unchanged. |
| Instance.OnResponseError | week2/_instance.ts:38-48 | Redirect iff the status is 401 and `body.error` is a key name of `ERRORS`. The error is rejected again, except that a 401 without a body rejects with the `TypeError` of reading it. |
| Instance.AlwaysRejects | week2/_instance.ts:47 | Every error is rejected again, whether or not the redirect fires. |
| Instance.RedirectOnlyOnLoginKeys | week2/_instance.ts:17-44 | A non-401 status never redirects. Display texts such as `Empty Token` never match; the key `EMPTY_TOKEN` does. |
| Instance.NoResponseNoRedirect | week2/_instance.ts:40 | A network error with no response is rejected without a redirect. |
| Config.ClientEnvs | week2/config.ts:4-7 | `CLIENT_ENVS` holds only the two public names. |
| Config.GetEnvironmentVariable | week2/config.ts:9-21 | A non-empty `process.env` value wins, else the `CLIENT_ENVS` value. If both are missing or empty it fails with `Couldn't find environment variable: <name>`. A returned value is never empty. |
| Config.OnlyPublicNamesFallBack | week2/config.ts:10-11 | Other names have only `process.env`. |
| Config.LoadConfig | week2/config.ts:23-26 | The base URL is read first, so its absence aborts with its own message before the API URL is read. A loaded config has two non-empty URLs. |
| Config.NothingSet | week2/config.ts:13-26 | With nothing set, loading stops at `NEXT_PUBLIC_BASE_URL`. |
| Js.Trim | week3/refactoring/features/to-do/hooks/useTodos.ts:33-40 | `trim()` is no longer than the string, and its result neither starts nor ends with white space. |
| Js.TrimSlice | week3/refactoring/features/to-do/hooks/useTodos.ts:33-40 | What `trim()` keeps is one contiguous part of the string, and only white space lies before and after it. |
| Js.TrimEmptyIff | week3/refactoring/features/to-do/hooks/useTodos.ts:33 | `trim()` is empty exactly when the string is all white space. |
| Todos.AddTodo | week3/refactoring/features/to-do/hooks/useTodos.ts:32-46 | A blank title alerts and leaves the list unchanged. Otherwise the list grows by one, with the new item at the front (trimmed title, not completed, `userId` 1) and the rest in order. |
| Todos.ToggleTodo | week3/refactoring/features/to-do/hooks/useTodos.ts:48-54 | Flips `completed` on every item with the id, at the same position. Other items and the length are unchanged. |
| Todos.ToggleTwice | week3/refactoring/features/to-do/hooks/useTodos.ts:51 | Toggling an id twice restores the list. |
| Todos.ToggleKeepsIdentity | week3/refactoring/features/to-do/hooks/useTodos.ts:51 | A toggle keeps every item's id and title. |
| Todos.DeleteTodo | week3/refactoring/features/to-do/hooks/useTodos.ts:56-58 | Exactly the items with another id remain. |
| Todos.DeleteAppend | week3/refactoring/features/to-do/hooks/useTodos.ts:57 | Deleting distributes over concatenation, so the remaining items keep their order. |
| Todos.DeleteAbsent | week3/refactoring/features/to-do/hooks/useTodos.ts:57 | Deleting an id no item has is a no-op. |
| Todos.DeleteIdempotent | week3/refactoring/features/to-do/hooks/useTodos.ts:57 | Deleting twice is the same as deleting once. |
| Assignment.Validate | week4/assignment.tsx:33-47 | The first failing check wins: a blank username, then a blank email or one without `@`, then a password of 1 to 5 characters. Passing means all three hold. |
| Assignment.WithField | week4/assignment.tsx:24-27 | Only the named field gets the value. |
| Assignment.UserProfileForm.constructor | week4/assignment.tsx:13-20 | Starts from the fixed defaults, not editing, with no message. |
| Assignment.UserProfileForm.HandleInputChange | week4/assignment.tsx:22-28 | Updates only the named field. |
| Assignment.UserProfileForm.HandleSubmit | week4/assignment.tsx:30-56 | A failed check sets its message only. Otherwise the saved message is set and editing ends. The values are never changed. |
| Assignment.UserProfileForm.ClearMessage | week4/assignment.tsx:55 | The timer clears only the message. |
| Assignment.UserProfileForm.HandleCancel | week4/assignment.tsx:58-66 | Restores the defaults with an empty password, ends editing and clears the message. |
| Assignment.UserProfileForm.HandleEdit | week4/assignment.tsx:117 | The edit button turns editing on and changes nothing else. |
| Assignment.DefaultsValid | week4/assignment.tsx:13-47 | The defaults pass every check. |
| Assignment.FormStricterThanSchema | week4/assignment.tsx:34-47 | Whatever the form accepts, the week-4 schema accepts too. A blank but non-empty username is rejected by the form, while the schema passes it. |
| ProfileSchema.ProfileIssues | week5/refactoring/features/user/validators/userSchema.ts:12-36 | Issues come in field order. Acceptance needs a username of length ≥ 1 (untrimmed) and a valid email. The refine's issue, on path `password`, appears iff a password of 1 to 5 characters is present. |
| ProfileSchema.ProfileAccepts | week5/refactoring/features/user/validators/userSchema.ts:12-36 | The update schema accepts exactly a non-empty username, a valid email, and a password that is absent, empty or at least 6 long. |
| ProfileSchema.UserDbIssues | week5/refactoring/features/user/validators/userSchema.ts:4-9 | A stored user needs a uuid, a username of at least 2 characters, and an email. |
| ProfileSchema.UsernameBoundsDiffer | week5/refactoring/features/user/validators/userSchema.ts:6-14 | A one-character username fits the update form but not the stored user. |
| UserInfoSchema.UserInfoIssues | week4/refactoring/features/validators/userSchema.ts:4-11 | Accepts exactly a non-empty username, a valid email, and a password that is absent, empty or at least 6 long. |
| UserInfoSchema.PasswordRulesAgree | week4/refactoring/features/validators/userSchema.ts:10 | The week-4 rule and the week-5 refine accept exactly the same passwords. |
| UserInfoSchema.SchemasAgree | week4/refactoring/features/validators/userSchema.ts:4-11 | The week-4 and week-5 schemas accept the same inputs. |
| ProfileAction.UpdateUserProfile | week5/refactoring/features/user/actions/user.ts:8-31 | A falsy password is removed from the payload and a non-empty one is kept. Username and email are copied. The payload never carries an empty password and keeps the refine verdict. The result is always `success: true` with the fixed message. |
| ProfileForm.ProfileFormState.constructor | week5/refactoring/features/user/hooks/useUserProfileForm.ts:20-29 | Starts not editing, with no message and values `initialData` plus an empty password. |
| ProfileForm.ProfileFormState.SetIsEditing | week5/refactoring/features/user/hooks/useUserProfileForm.ts:37-46 | A change of `isEditing` to false resets the form to the initial data and clears the message. No other change does anything more. |
| ProfileForm.ProfileFormState.HandleEdit | week5/refactoring/features/user/hooks/useUserProfileForm.ts:63 | Turns editing on and changes nothing else. |
| ProfileForm.ProfileFormState.HandleCancel | week5/refactoring/features/user/hooks/useUserProfileForm.ts:37-64 | Turns editing off; when it was on, the effect resets the form and clears the message. |
| ProfileForm.ProfileFormState.OnSubmit | week5/refactoring/features/user/hooks/useUserProfileForm.ts:48-61 | The message is set, then editing ends and the form is reset to the data. When editing was on, the effect then resets to the initial data and clears the message. |
| ProfileForm.ProfileFormState.ChangeField | week5/refactoring/features/user/ui/UserProfileForm.tsx:37-65 | Typing into an input changes only that field of the values. The fieldset is disabled while not editing, so then nothing changes. |
| ProfileForm.ProfileFormState.Submit | week5/refactoring/features/user/hooks/useUserProfileForm.ts:23-61 | The resolver checks the form's current values. An invalid form only records its issues and keeps what was typed. A valid one clears them and runs `onSubmit` with those values. |
| ProfileForm.ProfileFormState.ClearMessage | week5/refactoring/features/user/hooks/useUserProfileForm.ts:59-60 | The timer clears only the message. |
| ProfileForm.SaveThenCancel | week5/refactoring/features/user/hooks/useUserProfileForm.ts:37-64 | As written, typing valid data in edit mode and saving ends with the initial data shown and no message. A later edit and cancel also returns to the initial data. |
| ProfileForm.ProfileFormState.OnSubmitKeepingSaved | week5/refactoring/features/user/hooks/useUserProfileForm.ts:52-56 | The save as its comment intends: the data become the values and defaults, and the message stays. |
| ProfileForm.ProfileFormState.HandleCancelToSaved | week5/refactoring/features/user/hooks/useUserProfileForm.ts:52-64 | Cancel returns to the saved defaults. |
| ProfileForm.SaveThenCancelKeepingSaved | week5/refactoring/features/user/hooks/useUserProfileForm.ts:52-56 | With the corrected save and cancel, the saved data stay, the message shows, and cancel returns to the saved data. |
| UserInfoAction.FieldOf | week4/refactoring/features/actions/user.ts:13-15 | A missing form field becomes `""`. |
| UserInfoAction.Attempt | week4/refactoring/features/actions/user.ts:12-20 | The API is called only after parsing succeeds. A parse failure throws its issues. |
| UserInfoAction.CatchAsWritten | week4/refactoring/features/actions/user.ts:23-31 | A `ZodError` is an `Error`, so it returns its serialised issue list. A non-`Error` gets the unknown-error text. |
| UserInfoAction.Catch | week4/refactoring/features/actions/user.ts:27-29 | The corrected `catch`: a validation failure reports its first issue's message. API errors are handled as written. |
| UserInfoAction.UpdateUserInfoAsWritten | week4/refactoring/features/actions/user.ts:7-31 | The action as written always returns a message. It is the serialised issue list exactly when the form is invalid. |
| UserInfoAction.UpdateUserInfoAsWrittenOutcome | week4/refactoring/features/actions/user.ts:7-31 | As written, the action ignores `prevState`. An invalid form gets the list of all its issues and the API is not called. A valid form gets the saved message when the API is quiet, an API `Error`'s own message, or the unknown-error text. |
| UserInfoAction.UpdateUserInfo | week4/refactoring/features/actions/user.ts:7-31 | The corrected action always returns a text message. |
| UserInfoAction.UpdateUserInfoOutcome | week4/refactoring/features/actions/user.ts:7-31 | The corrected action always returns a message and ignores `prevState`. Valid input gives the saved message. Invalid input gives its first issue and never reaches the API. A non-`Error` from the API gives the unknown-error text. |
| UserInfoAction.EmptyForm | week4/refactoring/features/actions/user.ts:12-16 | A form without fields reads as empty strings, and the username check fails first. |
| UserInfoAction.AsWrittenReturnsIssueList | week4/refactoring/features/actions/user.ts:24-29 | As written, an empty username comes back as the serialised issue list. The corrected action returns the username message. |

## Findings

| source | as written | input that shows it | evidently intended | confidence | as-written member | corrected member |
|---|---|---|---|---|---|---|
| week4/refactoring/features/actions/user.ts:24-29 | The `err instanceof Error` test comes before `err instanceof z.ZodError`. A `ZodError` is an `Error`, so the ZodError branch is dead and a validation failure returns `err.message`, the JSON text of every issue. | A form with an empty username and a valid email | Returns the first issue's message, `사용자 이름을 입력해주세요.` | not executed; high, assuming zod v3 (whose `ZodError` extends `Error` and has `.errors`) | UserInfoAction.AsWrittenReturnsIssueList | UserInfoAction.Catch |
| week5/refactoring/features/user/hooks/useUserProfileForm.ts:37-56 | A successful save sets `isEditing` false and resets the form to the data. The effect then sees `isEditing` change and resets to `initialData`, clearing the message. | Edit, submit valid data, then edit and cancel | Keep the saved data as the defaults that cancel returns to (the comment on line 54), and show the message for 3 s | not executed; medium, since it relies on React running the effect after the batched state update | ProfileForm.SaveThenCancel | ProfileForm.SaveThenCancelKeepingSaved |

## Left out

- String lengths count Unicode code points; JavaScript counts UTF-16 code units, so lengths differ for characters outside the Basic Multilingual Plane.
- JSON numbers are integers. Floating point, `NaN` and formatted dates (`toLocaleString` in `getSnapshots`) are not modelled.
- Timers are left out:
  - real waiting, the 3-second message clear (kept only as a `ClearMessage` transition) and the 500 ms and 1000 ms mock delays;
  - the 1000 ms debounce of the login redirect. The redirect is a flag, and `window.location` itself is I/O.
- `useTodos.fetchTodos`, `refresh` and the loading/error state are network I/O and are not modelled.
- Concurrent mutations racing on one cache key are left out, since their order depends on the event loop.
- The interceptors are not composed into the transport of the wrappers. Each part's behaviour on a failure is modelled separately.
- Api.ApiRequestBuilder.Build: the built request shares the builder's `config` object in the source, so later setter calls would show through an earlier build. The model's `Request` is a value.
- Swr.Spread: spreading an explicit `undefined` field over a default is treated as absent. The `strategy` and `ttl` keys that `useQuery` spreads into the SWR config are not kept.
- Api.ApiClient.HandleSuccess: SWR's `mutate` is modelled as never failing. Its promises are not awaited in `handleSuccess`, so a rejection would be unhandled and reach no `catch`. A synchronous throw inside `handleSuccess` would be caught by `executeRequest` itself, counted as a failed attempt and retried after a successful request. Neither path is modelled.
- CampaignService.Guarded: its `thrown` parameter stands for an exception that leaves `executeRequest`, which can only come from the error strategy's `handle` that its final-failure `catch` calls (an `alert` or `toast` that throws, say). The model of the client does not produce one itself.
- LegacyCampaign.UpdateCampaignActiveStatus: `onFinally` is modelled as not throwing. In the source's `finally` it is still called exactly once, and an exception of its own would leave the function; `escapes` speaks only of the destructuring `TypeError`.
- `useCacheControl`, `invalidateMultiple` and `debouncedInvalidate` in `enhanced-swr.ts` are cache and timer plumbing and are not modelled. The `useEnhancedSWR` merge is modelled as `EnhancedConfig`.
- The zod `email()` and `uuid()` checks are left as predicates passed in as parameters. The JSON text of a `ZodError` message is kept as its issue list.
- Config.GetEnvironmentVariable: property names inherited from `Object.prototype` (such as `toString`) are truthy lookups in the source. The model treats both environments as plain maps.
- UserInfoAction.UpdateUserInfo: the API call `userApi.updateUser` is a mock that always resolves, and it is modelled by the `apiThrows` parameter. File entries of `FormData` are not modelled.
- The legacy toast message and its trailing space are not modelled, because the toast call is commented out.
- `isSubmitting` of react-hook-form is not modelled.
