# silo-plugin-whmcs-login in Dafny

A model of the logic of the WHMCS login plugin, with proofs of what it keeps and where it does not.
`dafny verify dfyconfig.toml` checks everything; each module is one file of the same name.

| modules | part of the plugin |
|---|---|
| `Resolver`, `LookupTrace` | the coalescing, negative-caching entitlement lookups, as interleaved atomic sections |
| `ProductCache`, `CacheTrace` | the product cache: coalesced `Get`, direct `Refresh`, freshness panel |
| `Retry` | bounded retries, error markers, backoff on wrapping 64-bit integers |
| `BaseHref` | `computeBaseHref` against sections 5.2.3 and 5.2.4 of RFC 3986 |
| `Entitlement`, `Simulator`, `Matching`, `Decisions` | the login decision, the admin page's simulator of it, matching of ids, what a decision rests on |
| `Tokens` | token responses and the refresh token of a session |
| `Configuration`, `ConfigStore`, `HostSecrets` | loading and checking a configuration; the stored row and the live configuration under Configure and PATCH |
| `ConfigKeys`, `ConfigSteps` | the same said setting by setting, without those functions: which entry decides what is loaded, what a Configure and a PATCH make of each field |
| `ProductIds`, `Selector` | product ids as text and numbers; the product picker and its round trip |
| `Envelope` | the tolerant decoders of the WHMCS admin API |
| `Basics`, `Text`, `JsonValues`, `Settings`, `Whmcs` | shared types; the string, number and JSON functions of Go's library that the plugin uses |

**Machines.** Concurrency is interleaving: a state holds the shared fields and one program counter
per goroutine, an operation is one atomic section, a run is any sequence of operations each possible
when its turn comes. `Next` (or `Step`) gives a section's effect on values; a class holds the fields
and has a method per section whose postcondition is `Next` of the old state. In the two concurrent
machines every section also appends to an observed history. A trace module says which histories are
legal without mentioning the machine, the machine's runs are proved to be legal, and the theorems are
about legal histories. The configuration machine needs no history; its mapping is an array on the
heap that the live configuration and a PATCH in progress share.

**Assumptions.** `singleflight.Do` finds or opens a flight atomically, publishes and removes it
atomically, and gives every participant the leader's result; the clock does not go back. Upstream
answers, clock readings, random draws, database faults and the answer of `validateServerURL` are
parameters of operations, so every theorem holds for all of them. One Configure and one PATCH each
count as one step of the configuration machine.

**Where the code and its own text differ.** The model follows the code.
- Comments (internal/admin/server.go:200-203, internal/store/store.go:63-65) say that the host's secrets
  arrive through Configure and are only kept out of the database. The Configure callback makes the
  result of `ImportLegacyConfig` live, and that has them blanked: `HostSecrets.SecretsNeverReachALogin`.
- docs/product-gating-and-roles.md says that the email wins over the client id;
  internal/auth/server.go:256-275 prefers the id. docs/whmcs-quirks.md says that refreshing is
  unimplemented; internal/auth/server.go:102-141 implements it.

**What one might expect and does not always hold.** Each has an input that shows it and the exact
condition, for every input, under which it does hold.

| expectation | input | condition |
|---|---|---|
| the cached list is never newer than the last attempt, and neither time goes back | `ProductCache.OverlapCanInvert` | `ProductCache.RunsAreOrderedIff`, `ProductCache.TimesNeverGoBackIff` |
| the freshness panel shows no error only with a list from the last attempt | `ProductCache.PanelCanMislead` (a fetcher whose error has no text; the plugin's own always has one), `ProductCache.TornPanelMisleads` (a commit between the panel's three reads) | without such a commit `ProductCache.QuietPanelIff`, of the fields themselves `ProductCache.FieldsTellTheTruthIff` |
| the live configuration is the stored one | `ConfigStore.FailedReadBackSplitsThem` | `ConfigStore.LiveIsStoredIff` |
| the simulator shows the products and the role that a login claims | `Simulator.ClaimsCanDisagree` | `Simulator.ClaimsAgreeIff` |
| the simulator shows the Discord id that a login claims | `Simulator.DiscordCanDisagree` | `Simulator.DiscordAgreesIff` |
| the simulator's rows explain its role | `Simulator.RolesCanGoUnexplained` | `Simulator.RolesExplainedIff` |
| a session holds the refresh token issued last | `Tokens.RotationCanBeLost` | `Tokens.RotationIsKeptIff` |
| retry never returns a retryable error | `Retry.MarkersCanLeak` | `Retry.MarkersStayInside` |

The inputs about the simulator and the session hand both handlers a configuration with credentials; by
`HostSecrets.SecretsNeverReachALogin` no run of the composed program delivers one. The errors of the
plugin's API client carry one marker at most.

## Model

| member | source | states |
|---|---|---|
| LookupTrace.RecordingsAreSpaced | internal/whmcs/entitlements.go:92-108 | two negative recordings of one key are more than TTL apart |
| LookupTrace.RecordingRateBound | internal/whmcs/entitlements.go:25-27 | n recordings of one key inside a window W imply (n-1)·TTL < W |
| LookupTrace.CallsNeverOverlap | internal/whmcs/entitlements.go:64-83 | of two upstream calls for one key the first has returned and its flight has closed before the second starts |
| LookupTrace.EveryAnswerIsGrounded | internal/whmcs/entitlements.go:60-109 | every answer is an upstream result of a flight entered while open, or rests on a negative at most TTL old at the check that served it |
| LookupTrace.OneActiveFlight | internal/whmcs/entitlements.go:22-24 | at most one flight per key is open |
| LookupTrace.EnterBeforeClose | internal/whmcs/entitlements.go:64-83 | nobody enters a flight after it closed |
| LookupTrace.ParticipantsAgree | internal/whmcs/entitlements.go:22-24 | two lookups that return through one flight return the same outcome |
| LookupTrace.PositivesAreNotCached | internal/whmcs/entitlements.go:29-32 | a positive or error result only reaches callers that began before its flight closed, and comes from an upstream call of that flight |
| LookupTrace.OnlyNegativesAreRecorded | internal/whmcs/entitlements.go:70-77 | an entry is written only after a successful negative reply of the same flight: never for an error |
| LookupTrace.NoCacheWithoutLifetime | internal/whmcs/entitlements.go:46-47 | with a non-positive TTL every answer comes from an upstream call |
| LookupTrace.CallDecidesClose | internal/whmcs/entitlements.go:70-79 | a flight whose call returned an error, a client with an id or a product list closes with exactly that and records nothing; one whose call found nothing closes with "no client" or "no products", recorded when the TTL is positive |
| LookupTrace.CallDecidesAnswers | internal/whmcs/entitlements.go:60-84 | the same for the outcome of every participant of the flight |
| Resolver.NextKeeps | internal/whmcs/entitlements.go:60-135 | every atomic section keeps the invariant that ties maps, flights and program counters to the history |
| Resolver.EveryRunIsLegal | internal/whmcs/entitlements.go:60-135 | every interleaving produces a legal history |
| Resolver.RunsWaitOutNegatives | internal/whmcs/entitlements.go:88-135 | the TTL bound for calls and for recordings, in every interleaving |
| Resolver.RunsAreGrounded | internal/whmcs/entitlements.go:60-109 | each completed lookup of a run is grounded |
| Resolver.RunsPassWhatWhmcsSays | internal/whmcs/entitlements.go:60-109 | in every interleaving what WHMCS said to a call is what its flight publishes, records and returns to everybody in it |
| Resolver.ChecksServeIff | internal/whmcs/entitlements.go:111-126 | in every interleaving both checks are answered from the negative cache iff a negative recorded for the key is at most TTL old |
| Resolver.OneCallInFlight | internal/whmcs/entitlements.go:92-103 | in every reachable state at most one flight, hence one upstream call, per key |
| Resolver.SectionsFinish | internal/whmcs/entitlements.go:60-109 | every section of a lookup lowers a bound on what is left to run |
| Resolver.NoDeadlock | internal/whmcs/entitlements.go:60-109 | an unfinished lookup waits for a section of its own or of its flight, and that section can run |
| Resolver.SectionsAreBounded | internal/whmcs/entitlements.go:60-109 | without new lookups a run is no longer than the bound, whatever the scheduling |
| Resolver.StuckMeansDone | internal/whmcs/entitlements.go:60-109 | when no section can run every lookup has completed |
| Resolver.EveryLookupCompletes | internal/whmcs/entitlements.go:60-109 | from every reachable state that many sections complete every lookup |
| Resolver.EntitlementResolver.NegativeCached | internal/whmcs/entitlements.go:111-126 | hit exactly when an unexpired entry exists; an expired one is deleted |
| Resolver.EntitlementResolver.RememberNegative | internal/whmcs/entitlements.go:128-135 | writes the expiry, unless the TTL is not positive |
| Resolver.EntitlementResolver.OuterCheck | internal/whmcs/entitlements.go:61-63 | the first check as one step of the machine |
| Resolver.EntitlementResolver.Enter | internal/whmcs/entitlements.go:64 | joins the open flight of the key or opens one |
| Resolver.EntitlementResolver.InnerCheck | internal/whmcs/entitlements.go:65-69 | the leader's second check as one step |
| Resolver.EntitlementResolver.StartCall | internal/whmcs/entitlements.go:70 | the upstream call starts |
| Resolver.EntitlementResolver.FinishCall | internal/whmcs/entitlements.go:70-73 | the upstream call returns |
| Resolver.EntitlementResolver.Remember | internal/whmcs/entitlements.go:74-78 | the reply is recorded if negative |
| Resolver.EntitlementResolver.Publish | internal/whmcs/entitlements.go:64-79 | the flight closes with its result |
| Resolver.EntitlementResolver.Collect | internal/whmcs/entitlements.go:80-83 | the caller returns the flight's result |
| CacheTrace.EveryGetIsGrounded | internal/whmcs/cache.go:46-74 | every answer of Get is a list found fresh by its own look or by its flight's leader, or comes from the refresh that leader ran after opening the flight on a stale list |
| ProductCache.NextKeeps | internal/whmcs/cache.go:46-95 | every section keeps the invariant that ties fields and program counters to the history |
| ProductCache.EveryRunIsLegal | internal/whmcs/cache.go:46-95 | every interleaving of Get and Refresh keeps it, and its history is legal |
| ProductCache.StoredPairIsOneFetch | internal/whmcs/cache.go:80-95 | the stored list and time always come from one successful fetch |
| ProductCache.HitsAreFresh | internal/whmcs/cache.go:47-53 | a list is served from the cache, to a Get or a leader, only if the last successful refresh stored it less than ttl ago |
| ProductCache.FreshIsServedIff | internal/whmcs/cache.go:47-68 | and whenever there is such a list a Get or leader serves it; otherwise the Get goes on to a flight and the leader starts a fetch |
| ProductCache.GetsAreGrounded | internal/whmcs/cache.go:46-74 | in every run each completed Get is grounded: age below ttl at its own or its leader's look, or fetched and committed after its flight opened |
| ProductCache.OneGetFetch | internal/whmcs/cache.go:55-69 | at most one fetch triggered by Get is running |
| ProductCache.NoErrorMeansCurrent | internal/whmcs/cache.go:76-95 | at the end of every run: when lastErr is empty, and exactly when an empty lastErr means that the list is from the last attempt |
| ProductCache.FieldsTellTheTruthIff | internal/whmcs/cache.go:84-93 | exactly when a commit leaves an empty lastErr only with a list from the last attempt |
| ProductCache.QuietPanelIff | internal/admin/server.go:140-152 | after any run, exactly when a panel read without a commit between its three reads shows no error only with a list from the last attempt |
| ProductCache.TornPanelMisleads | internal/admin/server.go:140-147 | a panel torn by a successful refresh, which shows an attempt, no error and no list |
| ProductCache.PanelCanMislead | internal/whmcs/cache.go:85-90 | with a fetcher whose error has no text, a run whose only refresh failed and whose panel shows no error |
| ProductCache.FailuresKeepList | internal/whmcs/cache.go:77-90 | through any run whose commits all fail the list and its time stay |
| ProductCache.ApartRunsAreOrdered | internal/whmcs/cache.go:80-95 | without overlapping refreshes the list is never newer than the last attempt |
| ProductCache.ApartTimesGrow | internal/whmcs/cache.go:80-95 | without overlapping refreshes neither time goes back |
| ProductCache.OverlapCanInvert | internal/whmcs/cache.go:82-84 | an overlapping run in which the list ends newer than the last attempt, whose time has gone back |
| ProductCache.OrderedIff | internal/whmcs/cache.go:82-93 | after a commit the list is not newer than the last attempt iff the refresh succeeded, there was no list, or its clock reading is not older; nothing else changes that |
| ProductCache.RunsAreOrderedIff | internal/whmcs/cache.go:82-93 | the same at the end of a run, by its last commit, and throughout it, by all of them |
| ProductCache.TimesGrowIff | internal/whmcs/cache.go:82-93 | a section takes neither time back iff it is no commit or its clock reading is not older than what it replaces |
| ProductCache.TimesNeverGoBackIff | internal/whmcs/cache.go:82-93 | the same along a run |
| ProductCache.SectionsFinish | internal/whmcs/cache.go:46-95 | every section of a Get or Refresh lowers a bound on what is left to run |
| ProductCache.NoDeadlock | internal/whmcs/cache.go:46-95 | an unfinished Get waits for a section of its own, its flight or that flight's refresh, and that section can run |
| ProductCache.SectionsAreBounded | internal/whmcs/cache.go:46-95 | without new calls a run is no longer than the bound, whatever the scheduling |
| ProductCache.StuckMeansDone | internal/whmcs/cache.go:46-95 | when no section can run every Get has returned |
| ProductCache.EveryGetCompletes | internal/whmcs/cache.go:46-95 | from every reachable state that many sections complete every Get |
| ProductCache.ProductCache.Look | internal/whmcs/cache.go:47-53 | Get's first section |
| ProductCache.ProductCache.Enter | internal/whmcs/cache.go:60 | joins the open flight or opens one |
| ProductCache.ProductCache.Recheck | internal/whmcs/cache.go:61-68 | the leader's second look, or the start of its refresh |
| ProductCache.ProductCache.Stamp | internal/whmcs/cache.go:82 | the clock is read before the lock is taken |
| ProductCache.ProductCache.Commit | internal/whmcs/cache.go:83-94 | all four fields after the locked section |
| Retry.CeilingIsExact | internal/whmcs/retry.go:100-111 | with wrap-around, the guarded shift equals min(150ms·2^n, 1500ms) over the integers, for every n |
| Retry.BackoffDelay | internal/whmcs/retry.go:105-111 | the delay is a draw from [0, min(150ms·2^(attempt-1), 1500ms)] |
| Retry.Retry | internal/whmcs/retry.go:66-92 | at most three calls, stops at the first success, permanent error or cancellation, returns the last outcome, asks for at most 450ms |
| Retry.HowItEnds | internal/whmcs/retry.go:66-92 | marked errors and only they are retried, at most three calls; a value is returned as it is, a cancelled context or interrupted sleep with its own error |
| Retry.LastErrorComesBack | internal/whmcs/retry.go:82-99 | otherwise the last error comes back: itself without a marker, else what its outermost marker holds, under unmarked layers |
| Retry.PolicyIsDeterministic | internal/whmcs/retry.go:66-92 | the stated policy fixes the number of calls and the result |
| Retry.UnwrapLeavesMarkerIff | internal/whmcs/retry.go:94-98 | the unwrapped error is retryable exactly when there were two markers or more |
| Retry.MarkersStayInside | internal/whmcs/retry.go:62-92 | the returned error is retryable iff all attempts are used, the context is live and the last error carried two markers; with one marker at most it never is |
| Retry.MarkersCanLeak | internal/whmcs/retry.go:91-98 | errors with two markers for which it is retryable |
| BaseHref.BaseHrefResolvesToMount | internal/server/prerender_handler.go:32-43 | resolved against mount + path, the base href gives mount + "/" |
| BaseHref.PlainIffNoDots | internal/server/prerender_handler.go:32-43 | the condition above excludes dot segments and nothing else |
| Entitlement.ActiveProductIds | internal/auth/server.go:363-371 | the ids of the products with no status or an active one, in order |
| Entitlement.ActiveIff | internal/auth/server.go:363-371 | a product is active iff it has no status, or one that is "Active" in any case and padding |
| Entitlement.ActiveIdsInOrder | internal/auth/server.go:363-371 | the ids are those of exactly the active products, one for one and in order |
| Entitlement.AnyMatch | internal/auth/server.go:373-382 | true exactly when the lists share an element |
| Entitlement.RoleFromProducts | internal/auth/server.go:387-399 | admin exactly when some owned id is mapped to admin |
| Entitlement.RoleIff | internal/auth/server.go:387-399 | the role is admin iff an active product is mapped to admin, else user |
| Entitlement.BuildResponse | internal/auth/server.go:227-326 | the whole response, or the error, of the login decision |
| Entitlement.LoginIff | internal/auth/server.go:250-289 | a login succeeds iff it needs no lookup, or there is an API, a client, and products that pass the allow-list; its subject, name and email are those of userinfo |
| Entitlement.RefusedIff | internal/auth/server.go:250-275 | which refusal is given when, before the products are looked up |
| Entitlement.RefusedProductsIff | internal/auth/server.go:278-289 | denied for want of a product iff the products are known and none that is active is allowed |
| Entitlement.LoginClaims | internal/auth/server.go:228-311 | the claims by the names the host reads: userinfo, refresh token, link by email, Discord id, and no others but two |
| Entitlement.LoginProducts | internal/auth/server.go:277-316 | those two: products and role, and exactly when |
| Entitlement.PlainLogin | internal/auth/server.go:228-250 | a login that needs no lookup always succeeds and claims nothing else |
| Entitlement.ClaimsByName | internal/auth/server.go:228-316 | which claims are present, when, with what content, and that there are no others |
| Simulator.BuildRows | internal/admin/server.go:425-470 | one row per product, with label, activity, allow-list and first valid role |
| Simulator.RowsShow | internal/admin/server.go:428-470 | each row: id, name, label of the status, activity, whether allowed, and the role of the first entry for the id with a valid one |
| Simulator.SimulateLogin | internal/admin/server.go:301-500 | the whole report |
| Simulator.ReportIff | internal/admin/server.go:301-389 | there is a report iff a client is named, credentials are configured, the client is found and its products can be listed |
| Simulator.NoReportIff | internal/admin/server.go:306-389 | which refusal is given when |
| Simulator.ReportHolds | internal/admin/server.go:389-500 | every field of a report on the saved settings |
| Simulator.OverridesPreviewTheSave | internal/admin/server.go:316-331 | unsaved settings in the request give the report that saving them first would give |
| Simulator.SimulatorAgrees | internal/admin/server.go:293-299 | login succeeds iff the report is ok and allowed; then products claim, role claim and its absence agree |
| Simulator.SameQuestionSameClient | internal/admin/server.go:356-378 | asking for what userinfo carries finds the login's client |
| Simulator.ClaimsAgreeIff | internal/admin/server.go:293-299 | for any configuration and a reported client: login succeeds iff allowed, and products and role agree iff there is an allow-list or role mapping or nothing active is owned |
| Simulator.ClaimsCanDisagree | internal/admin/server.go:386-394 | an input without both, on which they differ |
| Simulator.DiscordAgreesIff | internal/admin/server.go:412-421 | for any configuration that fetches Discord ids, the login claims the id shown iff the field name is set or the client has no "Discord ID" |
| Simulator.DiscordCanDisagree | internal/admin/server.go:412-421 | an input on which they differ |
| Simulator.GateRows | internal/admin/server.go:386-394 | the gate passes iff there is no allow-list or some row is allowed |
| Simulator.AdminRowMeansAdmin | internal/admin/server.go:456-464 | an admin row implies the admin role |
| Simulator.RolesExplainedIff | internal/admin/server.go:456-464 | for any mapping, checked or not, the rows explain every client's role iff no user entry for a possible product id shadows a later admin entry for it |
| Simulator.RolesCanGoUnexplained | internal/admin/server.go:456-464 | an input with an admin role and no admin row |
| Simulator.DistinctIdsDoNotShadow | internal/admin/server.go:456-464 | a mapping that names no id twice has no shadowed entry |
| Matching.GateIsIntersection | internal/auth/server.go:373-382 | over decimal ids, text matching is intersection of the numbers |
| Matching.RoleIsIntersection | internal/auth/server.go:387-399 | so is the role |
| Matching.OwningMoreNeverHurts | internal/auth/server.go:363-399 | under any configuration access and the admin role are monotone in the active products |
| Matching.OrderAndRepeatsDoNotMatter | internal/auth/server.go:363-399 | both are invariant under order and duplicates |
| Decisions.NoClientIsGrounded | internal/auth/server.go:256-275 | a denial for want of a client rests on a live "no client" or on a negative at most TTL old |
| Decisions.NoProductIsGrounded | internal/auth/server.go:278-289 | a denial by the product gate rests on a live list, or on a client without products that may be a negative at most TTL old |
| Decisions.AccessIsLive | internal/whmcs/entitlements.go:29-32 | a login past an allow-list, or with a role, rests on products WHMCS listed in a call of a flight the login entered before it closed |
| Tokens.ReadToken | internal/whmcs/oauth.go:166-187 | what is accepted of a token response, trimmed |
| Tokens.AcceptIff | internal/whmcs/oauth.go:166-187 | accepted iff below status 400, with an access token, and bearer or silent about the type; both tokens trimmed |
| Tokens.ExchangeCode | internal/auth/server.go:180-220 | the checks of the callback in order, then the login |
| Tokens.ExchangeIff | internal/auth/server.go:180-220 | succeeds iff configured, verifier and state present, state equal to the expected one, token accepted, userinfo there and the login succeeds |
| Tokens.CallbackRefused | internal/auth/server.go:181-200 | each refusal of a callback, in order, whatever WHMCS would answer: a differing state is always Unauthenticated |
| Tokens.RefreshSession | internal/auth/server.go:102-141 | the checks of a refresh in order, then the login |
| Tokens.CallFailures | internal/auth/server.go:113-138 | the status of each failure of the two calls |
| Tokens.LatestIdentity | internal/auth/server.go:323-326 | the latest response of a session names the user that WHMCS named in one of its calls |
| Tokens.TokenOnlyAddsItsClaim | internal/auth/server.go:241-245 | a refresh token changes nothing about a login but its own claim |
| Tokens.RefreshIsALogin | internal/auth/server.go:95-101 | a refresh succeeds iff the same login would, with the same claims but for the token |
| Tokens.SessionHoldsTheLastToken | internal/auth/server.go:131-136 | after any mix of refreshes the session holds the last non-empty token issued in a successful call |
| Tokens.TheTokenIsNeverLost | internal/auth/server.go:131-136 | once there is a token there always is one |
| Tokens.WithoutATokenLogInAgain | internal/auth/server.go:113-117 | a session without a token is refused by every refresh |
| Tokens.RotationIsKeptIff | internal/auth/server.go:119-141 | the newly issued token is kept iff the call succeeds or it is the old one |
| Tokens.RotationCanBeLost | internal/auth/server.go:119-141 | a session that keeps r1 after WHMCS rotated to r2 |
| ProductIds.LoadAllowedIds | internal/runtime/runtime.go:117-130 | the ids of a comma-separated setting, or the first error |
| ProductIds.AcceptedIff | internal/runtime/runtime.go:119-128 | accepted iff every field is blank or a positive integer |
| ProductIds.AcceptedAreCanonical | internal/runtime/runtime.go:128 | every accepted id is in canonical form |
| ProductIds.SpellingDoesNotMatter | internal/runtime/runtime.go:117-130 | padding, plus signs, leading zeros and empty fields do not matter |
| ProductIds.LoadingIsIdempotent | internal/runtime/runtime.go:117-130 | loading its own joined output gives the same list |
| ProductIds.CanonicalMeansNumber | internal/runtime/runtime.go:245-255 | canonical ids are equal as text iff equal as numbers |
| ProductIds.ParsesIff | internal/runtime/runtime.go:245-255 | an id is read as n iff n is a positive int64 and the trimmed text is a decimal text of it |
| ProductIds.StoreIds | internal/admin/server.go:242-246 | the request's integers as decimal text |
| ProductIds.SummaryIds | internal/admin/server.go:174-179 | the integers among the configured ids |
| ProductIds.SummaryUndoesStore | internal/admin/server.go:174-179 | the summary gives back what was stored |
| Selector.CsvRoundTrip | web/src/pages/Products.tsx:105-110 | the page's parser undoes its printer |
| Selector.SelectionSurvives | web/src/components/ProductSelector.tsx:72-73 | sorted, joined, parsed, printed as decimal text and read back, every set of positive safe integers is itself |
| Selector.SelectionSurvivesConfigure | web/src/pages/Products.tsx:104-112 | after an accepted PATCH of the selection, and any later Configure calls, the summary of the live configuration gives the selection back |
| Selector.SaveAndReload | web/src/components/ProductSelector.tsx:42-73 | on the objects: save, PATCH, summary and re-seed leave the picker and the configuration agreeing; a rejected PATCH leaves the picker alone |
| Selector.ColumnsPartition | web/src/components/ProductSelector.tsx:50-60 | with an empty search each product is in exactly one column |
| Selector.ColumnsHold | web/src/components/ProductSelector.tsx:50-60 | what each column holds, whatever the search |
| Selector.ClickTwice | web/src/components/ProductSelector.tsx:62-69 | a click moves a product and a second one moves it back |
| Selector.ProductSelector.Toggle | web/src/components/ProductSelector.tsx:62-69 | the enabled set after a click |
| Configuration.ValidateMapping | internal/runtime/runtime.go:167-176 | the slice after the in-place loop, also when it stops early, and the first problem |
| Configuration.ValidateConfig | internal/runtime/runtime.go:158-178 | the first problem, and the slice as it is left |
| ConfigKeys.ProblemIff | internal/runtime/runtime.go:167-176 | the problem is that of the first bad entry, an unreadable id before a bad role |
| ConfigKeys.WhatIsLeft | internal/runtime/runtime.go:167-176 | what a rejected mapping is left as, entry by entry |
| Configuration.RewrittenIsProper | internal/runtime/runtime.go:167-176 | an accepted mapping is canonical and keeps its roles and numbers |
| Configuration.ProperIsFixed | internal/runtime/runtime.go:167-176 | a canonical mapping is accepted and not changed |
| Configuration.LoadConfig | internal/runtime/runtime.go:93-156 | the configuration the entries give, or a refusal |
| ConfigKeys.LoadedIff | internal/runtime/runtime.go:93-156 | for any entries: a configuration is loaded iff they can be read, URL and mapping pass the check, and every setting is what the last entry of its key says (allowed ids: all entries in order; Discord field: the last that is not empty; mapping: the last, normalised) |
| ConfigKeys.LoadsIff | internal/runtime/runtime.go:93-178 | something is loaded exactly then |
| Text.SlashesGo | internal/runtime/runtime.go:108 | the trailing slashes of a URL go and nothing else |
| Configuration.LoadedIsProper | internal/runtime/runtime.go:93-156 | what is loaded has canonical ids, a canonical mapping and a Discord field |
| Configuration.ParseClaimRoleMapping | internal/runtime/runtime.go:273-300 | a mapping from a native array or from the JSON document in a text, or an error |
| Configuration.FormsAgree | internal/runtime/runtime.go:271-300 | both forms of a list of entries are read as that list |
| ConfigKeys.GivesIff | internal/runtime/runtime.go:273-300 | which mapping a value gives, for every JSON value, and which are errors |
| ConfigStore.ImportIsIdempotent | internal/store/store.go:89-110 | importing twice is importing once, in the row and in the result |
| ConfigStore.EveryRunIsSound | cmd/silo-plugin-whmcs-login/main.go:118-163 | in every run row and live configuration hold no secret, mappings are canonical with known roles, allowed ids are decimal |
| ConfigStore.PatchIsAllOrNothing | internal/admin/server.go:196-282 | an accepted PATCH makes row and live equal up to the Discord default, with equal mappings; a rejected one changes nothing |
| ConfigStore.PatchIsIdempotent | internal/admin/server.go:196-282 | repeating an accepted PATCH changes nothing |
| ConfigStore.SummaryShowsThePatch | internal/admin/server.go:172-194 | the summary reports the ids of an accepted PATCH |
| ConfigStore.SharedSliceIsFixed | internal/runtime/runtime.go:172 | checking a PATCH that shares the live slice does not change the slice |
| ConfigStore.StepSyncIff | cmd/silo-plugin-whmcs-login/main.go:118-163 | a step ends with live and stored equal up to the Discord default iff it is accepted, or they were equal and it is no import whose read back fails |
| ConfigStore.LiveIsStoredIff | cmd/silo-plugin-whmcs-login/main.go:118-163 | the same at the end of every run under any faults, and when the two are then exactly equal |
| ConfigStore.FailedReadBackSplitsThem | internal/store/store.go:106-109 | a run in which it is not |
| ConfigStore.ConfigureRunsOnTheRow | cmd/silo-plugin-whmcs-login/main.go:139-144 | an accepted Configure makes the row live |
| ConfigStore.ConfigureNeverOverwrites | internal/store/store.go:94-96 | once the row is not the default no sequence of Configure calls changes it |
| ConfigStore.SettingAListPinsTheRow | internal/store/store.go:94-96 | a PATCH with a list, even an empty one, pins the row |
| ConfigStore.ConfigHost.GetConfig | internal/store/store.go:38-60 | the decoded row with a fresh slice |
| ConfigStore.ConfigHost.UpdateConfig | internal/store/store.go:62-87 | the row, the checked slice and the result, on success and on failure |
| ConfigStore.ConfigHost.ImportLegacyConfig | internal/store/store.go:89-110 | the row and the effective configuration, under every fault |
| ConfigStore.ConfigHost.Adopt | cmd/silo-plugin-whmcs-login/main.go:118-145 | the whole state after the callback: what was imported is live |
| ConfigStore.ConfigHost.Configure | internal/runtime/runtime.go:68-83 | the whole state after Configure |
| ConfigSteps.ConfigureExactly | cmd/silo-plugin-whmcs-login/main.go:118-145 | for any row, entries and fault: whether Configure is accepted, and row, live configuration and API clients after it, field by field |
| ConfigStore.ConfigHost.Patch | internal/admin/server.go:196-282 | the whole state after a PATCH, on the shared slice |
| ConfigSteps.PatchAcceptedIff | internal/admin/server.go:196-282 | when a PATCH is accepted; a refused one changes nothing |
| ConfigSteps.PatchSets | internal/admin/server.go:226-270 | which field of the body sets which setting, trimmed or normalised how, in the live configuration and in the row; no other setting changes |
| ConfigStore.AcceptedListIsPinned | internal/store/store.go:94-96 | after an accepted PATCH of the allowed ids no Configure changes them |
| HostSecrets.SecretsNeverReachALogin | cmd/silo-plugin-whmcs-login/main.go:139-144 | in every run exchange and refresh are refused, no API is available, and the simulator asks for credentials |
| Envelope.GetProducts | internal/whmcs/api.go:204-222 | the products of an answer, or the first error |
| Envelope.GetClientsProducts | internal/whmcs/api.go:281-299 | the same for owned products |
| Envelope.ProductIff | internal/whmcs/api.go:88-105 | a row decodes to a product iff its fields say so, whatever their types |
| Envelope.OwnedIff | internal/whmcs/api.go:107-117 | the same for owned products; a bad gid does not matter there |
| Envelope.ProductsIff | internal/whmcs/api.go:301-346 | an answer decodes to a list iff it is an envelope, of any shape, of that list |
| Envelope.OwnedProductsIff | internal/whmcs/api.go:281-346 | the same for owned products |
| Envelope.ShapeDoesNotMatter | internal/whmcs/api.go:301-346 | two envelopes of one list decode alike |
| Envelope.NoRowIsDropped | internal/whmcs/api.go:214-220 | an answer is accepted iff no row is malformed, and then has an entry for every row |
| Envelope.PaddedDecimalSpells | internal/whmcs/api.go:119-140 | an integer and its padded decimal text mean the same |
| Envelope.GetClientByEmail | internal/whmcs/api.go:241-271 | the first row with the email, or none |
| Envelope.ClientIff | internal/whmcs/api.go:234-271 | a client, or none, is found iff the answer is an envelope, of any shape, of readable rows in which it is the first with the email, or there is none |
| Envelope.ClientShapeDoesNotMatter | internal/whmcs/api.go:249-271 | neither the envelope's shape nor the spelling of ids matters |
| Envelope.GetClientsDetails | internal/whmcs/api.go:355-389 | the details of an answer, or an error; no custom field is nameless |
| Envelope.DetailsIff | internal/whmcs/api.go:355-404 | details are given iff the answer succeeded and its client has exactly them, field by field |
| Envelope.WhatAFieldHolds | internal/whmcs/api.go:381-387 | a custom field holds a value iff it has a name and the last row of that name has the value |

## Left out

- HTTP, gRPC, routing, Postgres, logging, metrics, PKCE and the authorize URL: input and output, or library code.
- `validateServerURL` and IP classification: one Boolean parameter per call, because the answer may change with DNS.
- Cancellation of a flight's leader beyond "the result is an error", panics inside flights, growth of the negative maps.
- Nil and empty product lists are one value in the lookups; in the configuration nil and empty slices differ.
- The two lookups of the resolver share one machine; a key says which lookup, map and flight group it belongs to.
- Several databases: the configuration machine has one row. Two requests inside each other: Configure and PATCH are single steps.
- Picture, given and family name of userinfo: they only pass through the `raw_userinfo` claim.
- A row written by other means than `UpdateConfig`, and text that is not valid UTF-8 (also in claims).
- Configuration.ParseClaimRoleMapping: which JSON document a text holds is a parameter; JSON syntax is library code.
- JSON keys that differ in case or are repeated; the exact text of a client id that is neither text nor an integer is a parameter.
- Error values are told apart by where they arise; their wording is shortened.
- `CachedAt`, `LastAttemptAt` and `LastError` read one field each, as the panel in `ProductCache.Shown` does.
- The simulator's and the login's API clients answer alike by assumption: what they answer is a parameter of both.
- Envelope.GetClientByEmail: letters beyond ASCII are compared exactly, although `EqualFold` folds them; no such letter folds to one of "Active" or "Bearer", so the other comparisons are not affected.
- Retry.BackoffDelay: does not give the distribution of the jitter, because randomness is a parameter; every value in the range is possible.
- Selector.CsvRoundTrip: `Number()` is modelled for plain decimal integers in the safe range only, which is all the page prints.
- BaseHref.BaseHrefResolvesToMount: does not cover "." and ".." segments or percent-encoding, for which the count of slashes is not the depth.
- React rendering, themes, manifests and static assets: they would only add easy members.
