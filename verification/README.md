# Verified model of the MCP gateway's admission and accounting core

The gateway accepts JSON-RPC messages over WebSockets, admits or refuses them, forwards them to pooled
backend connections, and accounts for what it forwarded. This project models the stateful components
behind that and proves what they keep over whole runs.

| files | component |
|---|---|
| `TokenBucket`, `BucketRuns` | the in-memory token-bucket store with its cleanup pass, and all its runs |
| `RedisBucket` | the Redis store: two Lua scripts over entries with a time to live |
| `HierarchicalLimiter`, `LimiterTiers`, `LimiterRuns`, `RateKeys` | the tool / user / tenant / global limiter, its levels, its histories and its storage keys |
| `Calendar`, `QuotaKeys`, `Quota` | quota periods, the usage keys, the quota store and manager |
| `Session`, `SessionRouting`, `SessionOwnership`, `SessionQuota`, `SessionOvershoot`, `SessionFleet`, `SessionAccounting` | a WebSocket session as a concurrent step system, and several sessions sharing a quota |
| `Tracker`, `TrackerClose`, `TrackerFlush` | the buffered usage tracker, as a step system, its closing, and as one goroutine's loops |
| `UsageStore`, `SqlQuery`, `SqlReader` | the in-memory usage store, the SQL builder of the Postgres one, and a reader of its text |
| `ApiKeyStore`, `ApiKeys`, `ApiKeyRuns` | the API-key store and manager, and runs of the manager |
| `Webhook` | the billing webhook's delivery loop, bounded queue and drain |
| `Common`, `Text` | options, powers of two, the zero time; joining, splitting and decimal text |

Objects that the source updates in place are classes whose methods are proved against specification
functions; the lemmas are about those functions. Concurrent components (session, tracker, webhook queue)
are step systems: every lock region and every external call is one step, an arbitrary sequence of steps is
an interleaving, and what the outside world answers is an input of the step. Time is whole nanoseconds,
`float64` is `real`, integers do not overflow.

`dafny verify dfyconfig.toml` checks the whole project.

## What the code does not promise

These follow the code where a reader might expect otherwise; each is stated and proved.

- The Redis and memory stores are interchangeable exactly when a limit has at least one request, a burst
  of at most twice its requests, and a window of a positive number of whole milliseconds
  (`RedisBucket.InterchangeableIffMatched`). A larger burst outlives the key's time to live; a fractional
  window is truncated in the reset time; with a zero window the key expires at once; with a zero limit the
  memory store's `Peek` of an unknown key says "allowed" where Redis says "refused".
- A hard quota can be exceeded, by exactly ten in one session and exactly eleven per session less one with
  several: the bounds hold in every interleaving (`SessionQuota.QuotaOvershootBound`,
  `SessionFleet.FleetOvershootBound`) and are attained for every limit of at least one
  (`SessionOvershoot.OvershootAttained`, `SessionFleet.FleetOvershootAttained`).
- A hierarchical `Peek` that finds no refusal returns the zero result it started from, not a minimum
  (`HierarchicalLimiter.PeekPredicts`).
- Storage keys can be shared by names that hold colons. A usage counter is one account's alone exactly when
  none of its three names holds a colon (`QuotaKeys.UsageKeyUniqueIff`, `Quota.CountersSeparateIff`). A
  rate-limit text is one key's alone, among all keys, exactly when that key has at most one non-empty field
  and the field's value does not itself read on as a later field (`RateKeys.TextUniqueIff`); among colon-free
  keys no two share a text (`RateKeys.KeyStringInjective`). The level keys of a single request stay distinct
  whatever they hold (`HierarchicalLimiter.ChecksDistinct`).
- A negative retry count makes the usage tracker drop batches and report success
  (`Tracker.ConservesIff`), and makes a webhook delivery fail without a try (`Webhook.Sender.Send`).
- Rotating an API key moves a future expiry by the time between two clock readings, so the instant is kept
  only when they are equal (`ApiKeyRuns.RotateExpiry`); rotating an expired key gives it the default expiry.
- `SendAsync` after the webhook worker has returned still accepts events, and exactly those are never attempted
  (`Webhook.StrandedAfterExit`).

## Model

| member | source | states |
|---|---|---|
| TokenBucket.MemoryStore.Take | internal/ratelimit/memory.go:63-103 | refill up to the burst, debit exactly `n` if the balance covers it and nothing otherwise; touches no other key; a cancelled context changes nothing |
| TokenBucket.MemoryStore.Peek | internal/ratelimit/memory.go:106-137 | reads without changing; an unknown key is reported full and allowed |
| TokenBucket.MemoryStore.Reset | internal/ratelimit/memory.go:140-150 | forgets exactly one key |
| TokenBucket.MemoryStore.Cleanup | internal/ratelimit/memory.go:190-209 | in whatever order keys are visited, removes exactly the buckets idle for two intervals that are full again |
| BucketRuns.RunWellFormed | internal/ratelimit/memory.go:63-103 | in every run with a non-decreasing clock no bucket is overdrawn or from the future |
| BucketRuns.RunBalance | internal/ratelimit/memory.go:158-169 | the balance of every key stays in [0, burst] at every point of every run |
| BucketRuns.LevelAdvances | internal/ratelimit/memory.go:74-81 | capped refill composes over split intervals |
| BucketRuns.RunPotential | internal/ratelimit/memory.go:63-103 | tokens granted plus balance left never exceed balance before plus what time brought in, whatever else happens |
| BucketRuns.RateBound | internal/ratelimit/memory.go:63-103 | from any reachable state, tokens granted to a key over any stretch are at most the configured burst (or without one the requests) plus `requests` for each `window` elapsed, with refusals, peeks, cleanups and other keys interleaved |
| BucketRuns.InstantBudget | internal/ratelimit/ratelimit.go:74-79 | a fresh key's budget at one instant is exactly `burst`, or without one `requests`: each take is granted exactly when it fits in what is left |
| BucketRuns.GainTimesWindow | internal/ratelimit/ratelimit.go:66-71 | the refill over a window is exactly `requests` |
| BucketRuns.WaitIsTight | internal/ratelimit/memory.go:92-100 | the advertised wait is right to one nanosecond for an untouched bucket |
| BucketRuns.RetryAfterTight | internal/ratelimit/memory.go:74-102 | after a refusal, a retry before RetryAfter is refused and any retry one nanosecond past it is granted, whatever refused takes, peeks and cleanups happen meanwhile |
| BucketRuns.ForgettingUnobservable | internal/ratelimit/memory.go:190-209 | cleanup passes anywhere in a run change no answer of any call |
| RedisBucket.ScriptsMatchMemory | internal/ratelimit/redis.go:13-86 | apart from expiry, the scripts do to an entry what the memory store does to the bucket it stands for, and report the same |
| RedisBucket.ExpiredIsFull | internal/ratelimit/redis.go:44-47 | on matched limits an entry past its time to live would be full anyway |
| RedisBucket.RedisMatchesMemory | internal/ratelimit/redis.go:13-86 | on matched limits and a whole-millisecond clock every run, with any expiries on one side and any cleanups on the other, gives the same Allowed, Remaining and ResetAt |
| RedisBucket.UnmatchedParts | internal/ratelimit/redis.go:13-86 | on every other limit, fractional and zero windows included, a concrete run tells the stores apart |
| RedisBucket.InterchangeableIffMatched | internal/ratelimit/redis.go:13-86 | the stores agree on all runs if and only if requests are at least one, the burst at most twice the requests, and the window a positive number of whole milliseconds |
| RedisBucket.RedisObeysRate | internal/ratelimit/redis.go:13-53 | from any live state, the Redis store grants over any stretch at most burst plus rate times elapsed time, however the server expires keys |
| RedisBucket.ServerStaysLive | internal/ratelimit/redis.go:13-53 | every state the server reaches is live: in credit, and expiring two windows after its last update |
| RateKeys.BuildKeyString | internal/ratelimit/ratelimit.go:32-53 | the part-by-part construction gives the labelled, colon-joined text of the non-empty fields, "global" for none |
| RateKeys.ParseKeyString | internal/ratelimit/ratelimit.go:32-53 | a parser reads every colon-free key back from its text |
| RateKeys.KeyStringInjective | internal/ratelimit/ratelimit.go:32-53 | no two colon-free keys share a storage key |
| RateKeys.TextUniqueIff | internal/ratelimit/ratelimit.go:32-53 | a text belongs to one key alone if and only if that key has at most one non-empty field and its value does not read on as a later field |
| RateKeys.ColonsCollide | internal/ratelimit/ratelimit.go:32-53 | for instance every tenant's user shares its text with a tenant whose name holds both |
| HierarchicalLimiter.Limiter.AllowN | internal/ratelimit/limiter.go:77-102 | the loop performs the takes of `Admit`: most specific level first, store errors skipped, stopping at the first refusal |
| HierarchicalLimiter.Limiter.Peek | internal/ratelimit/limiter.go:105-132 | the loop computes `PeekAll` and changes nothing |
| HierarchicalLimiter.ChecksDistinct | internal/ratelimit/limiter.go:160-212 | the levels consulted for one request have different storage keys, whatever the fields contain |
| HierarchicalLimiter.AdmitStops | internal/ratelimit/limiter.go:85-99 | an attempt is refused exactly at the first level whose balance is below `n` in the store as it stood, and answers with that level's refusal |
| HierarchicalLimiter.AdmitDebits | internal/ratelimit/limiter.go:85-99 | every level before the refusing one is debited `n`, the refusing one nothing |
| HierarchicalLimiter.AdmitFrame | internal/ratelimit/limiter.go:85-99 | keys the attempt did not reach are untouched |
| HierarchicalLimiter.AllowDebits | internal/ratelimit/limiter.go:77-102 | an allowed request pays `n` at every applicable level and nowhere else; one refused at level k has paid exactly the levels before k, with no refund |
| LimiterTiers.AllowPaysItsTiers | internal/ratelimit/limiter.go:77-212 | in the configuration's own terms: a request pays `n` at {scope, tenant, user, tool}, {scope, tenant, user}, {scope, tenant} and s:global exactly where that level is on and its field given, is refused with the limit of the first short one in that order, and leaves every other storage key alone |
| HierarchicalLimiter.PeekPredicts | internal/ratelimit/limiter.go:105-132 | a peek answers the first refusal of one token, or the zero result |
| HierarchicalLimiter.PeekAgreesWithAllow | internal/ratelimit/limiter.go:77-132 | at one instant peek allows exactly when allow would, and both blame the same level |
| LimiterRuns.OneLimitPerKey | internal/ratelimit/limiter.go:160-212 | with colon-free fields a storage key always carries the same limit |
| LimiterRuns.AloneIsAdmit | internal/ratelimit/limiter.go:85-99 | a call that nothing interrupts is the limiter's loop: same store, same refusal, and if let through it was granted at every level that answered |
| LimiterRuns.HistoryGrants | internal/ratelimit/limiter.go:85-99 | however concurrent calls interleave, their takes are a run of the bucket store and what calls paid at a level was granted there |
| LimiterRuns.PaymentsObeyRate | internal/ratelimit/limiter.go:77-102 | over any stretch of any interleaving what is paid at a level obeys its rate |
| LimiterRuns.AdmissionsObeyRate | internal/ratelimit/limiter.go:77-102 | over any interleaving of concurrent calls and cleanups, all calls let through that are subject to a level obey that level's rate |
| LimiterRuns.TotalObeysGlobalRate | internal/ratelimit/limiter.go:203-209 | all calls let through together, whoever makes them, obey the configured global rate |
| Calendar.CivilRoundTrip | internal/quota/quota.go:190-216 | every day number has a valid proleptic Gregorian date that names it |
| Calendar.DateRoundTrip | internal/quota/quota.go:190-216 | every valid date is recovered from its day number, so days and dates match one to one |
| Calendar.BoundsAreDays | internal/quota/quota.go:190-216 | the bounds built with out-of-range days and months are plain day ranges; December rolls over |
| Calendar.PeriodContainsNow | internal/quota/quota.go:190-222 | start <= now < end for every period and instant, and the time until reset is positive |
| Calendar.PeriodStable | internal/quota/quota.go:190-216 | every instant of a period has that period's bounds |
| Calendar.PeriodsAdjacent | internal/quota/quota.go:190-216 | the period after one begins at its end |
| Calendar.PeriodStartDay | internal/quota/quota.go:190-216 | weekly periods start on Mondays, monthly ones on the first, all at midnight |
| Calendar.PeriodStartMonotone | internal/quota/quota.go:190-216 | later instants never have an earlier period |
| Calendar.Anchors | internal/quota/quota.go:190-216 | day 0 is Thursday 1 January 1970, and the zero time midnight on 1 January of year 1 |
| QuotaKeys.StampInjective | internal/quota/memory.go:29-31 | two whole-second instants with one RFC 3339 text are equal |
| QuotaKeys.StampReads | internal/quota/memory.go:29-31 | a timestamp is the civil date and time of day of its instant in the layout of section 5.6 of RFC 3339, and reads back as them |
| QuotaKeys.UsageKeyInjective | internal/quota/memory.go:29-31 | no other account, whatever characters it holds, shares the key of a colon-free one |
| QuotaKeys.UsageKeyUniqueIff | internal/quota/memory.go:29-31 | a usage key belongs to one account alone if and only if none of its names holds a colon |
| QuotaKeys.QuotaKeyInjective | internal/quota/memory.go:25-27 | no other tenant, user and kind shares the quota key of a colon-free one |
| QuotaKeys.PeriodStartsAreWhole | internal/quota/quota.go:190-216 | every period start is a whole second, so its text identifies it |
| Quota.Store.SetQuota | internal/quota/memory.go:47-59 | replaces one quota, keeping a given creation time |
| Quota.Store.DeleteQuota | internal/quota/memory.go:62-69 | removes one quota |
| Quota.Store.GetUsage | internal/quota/memory.go:72-89 | an uncounted account has zero usage |
| Quota.Store.IncrementUsage | internal/quota/memory.go:92-114 | adds the amount to one account and returns the new total |
| Quota.Manager.GetEffectiveQuota | internal/quota/manager.go:255-288 | the user's quota, else the tenant's, else the default |
| Quota.Manager.Check | internal/quota/manager.go:78-164 | refuses exactly when hard enforcement is on and usage plus cost exceeds the limit; which warnings and notices are raised; lets the call through when the usage lookup fails |
| Quota.Manager.Increment | internal/quota/manager.go:167-189 | counts under the calling user in the period of now, or passes on the store's error and counts nothing |
| Quota.AddTouchesOne | internal/quota/memory.go:92-114 | an increment moves no other account |
| Quota.UsageIsSumOfIncrements | internal/quota/memory.go:72-114 | usage is the sum of that account's increments, whatever other increments were interleaved |
| Quota.CountersSeparateIff | internal/quota/memory.go:29-114 | over every history an account's usage is its own increments if and only if none of its names holds a colon |
| Quota.ColonsShareACounter | internal/quota/memory.go:29-114 | otherwise a call of another account is counted for it |
| Quota.CheckCountsIncrements | internal/quota/manager.go:78-189 | after any increments a hard check fails exactly when that user's sum in the current period plus the cost exceeds the limit |
| Quota.OwnQuotaWins | internal/quota/manager.go:255-288 | over every history of quota changes the user's own last-set quota counts, else the tenant's, else the monthly or daily default |
| Quota.CheckGoesByOwnQuota | internal/quota/manager.go:78-164 | over every history of quota changes and increments a hard check of a user with its own quota is decided by that quota |
| Session.RouteMessage | internal/mcpws/mcpws.go:642-685 | a named tool call goes, with its name, to the server the router gives, whatever is bound, and to the bound server if the router gives none; everything else goes to the bound server; exactly what has no such server goes nowhere |
| Session.SpacesAreUnicode | internal/mcpws/mcpws.go:654 | the blanks a tool name is trimmed of are the white space of Unicode |
| SessionRouting.ReactRoutes | internal/mcpws/mcpws.go:505-519 | a handler goes by the router's answer and keeps its route |
| SessionRouting.WrittenWhereRouted | internal/mcpws/mcpws.go:505-582 | in every reachable state a handler carries the route its message was given, and writes it to a connection dialed for that route's server |
| SessionRouting.HandlerFinishes | internal/mcpws/mcpws.go:505-593 | every handler finishes within sixteen of its own steps, whatever the outside answers and whoever else moves |
| SessionRouting.LookupDecides | internal/mcpws/mcpws.go:687-698 | a healthy backend is used, an unhealthy one taken out, a missing one dialed |
| SessionRouting.UnhealthyIsEvicted | internal/mcpws/mcpws.go:687-705 | a connection found unhealthy is returned once the handler moves again and never mapped again, whatever others do |
| SessionRouting.DropsAreMade | internal/mcpws/mcpws.go:595-634 | failed writes, failed pump reads and the reaper's list each drop the server they name |
| SessionRouting.DropTakesOut | internal/mcpws/mcpws.go:742-758 | a drop takes out whatever is mapped under the name and gives it back |
| Session.ReactKeepsMessage | internal/mcpws/mcpws.go:505-593 | a process keeps its message and speaks only of it |
| Session.AdvanceFrame | internal/mcpws/mcpws.go:505-788 | a step of one process leaves every other process where it is and starts at most one pump |
| Session.OutsideMoves | internal/mcpws/mcpws.go:687-698 | time passes and connections turn unhealthy under the session's hands |
| SessionOwnership.MoveOwned | internal/mcpws/mcpws.go:687-758 | dialing, mapping, unmapping and returning keep every connection in exactly one place |
| SessionOwnership.ReactHolds | internal/mcpws/mcpws.go:595-788 | which steps take, pass on and give back a connection |
| SessionOwnership.StepIsMove | internal/mcpws/mcpws.go:595-788 | every step of the session is a legal move of that small machine |
| SessionOwnership.OwnershipInvariant | internal/mcpws/mcpws.go:595-788 | ownership is kept in every interleaving of handlers, reaper, pumps and by-name drops |
| SessionOwnership.ExactlyOnePlace | internal/mcpws/mcpws.go:595-788 | in every reachable state each dialed connection is held by one process, or mapped under the server it was dialed for, or returned; it is returned at most once and then marked unhealthy |
| SessionOwnership.OnePumpPerBackend | internal/mcpws/mcpws.go:722-740 | each installed backend gets exactly one pump |
| SessionQuota.FewHandlers | internal/mcpws/mcpws.go:431-501 | at most ten concurrent handlers and one inline one are running |
| SessionQuota.StepBears | internal/quota/manager.go:78-189 | no step adds to what a period has or may still get unless its usage is below the limit |
| SessionQuota.QuotaInvariant | internal/quota/manager.go:78-189 | for every period, its usage plus the handlers that may still count into it stays within the limit plus ten, in every interleaving, also when the period changes between the clock and the store of one check or increment |
| SessionQuota.QuotaOvershootBound | internal/mcpws/mcpws.go:539-589 | no period's usage ever exceeds the hard limit by more than ten; a zero limit lets nothing through |
| SessionOvershoot.OvershootAttained | internal/mcpws/mcpws.go:454-593 | for every limit of at least one some run reaches the limit plus ten, so the bound is exact |
| SessionFleet.FleetInvariant | internal/quota/manager.go:78-189 | with any number of sessions sharing store and clock, usage plus handlers that may still count stays within the limit plus eleven per session less one |
| SessionFleet.FleetOvershootBound | internal/mcpws/mcpws.go:539-589 | usage exceeds the limit by less than eleven per session, in every interleaving of the sessions; a zero limit lets nothing through |
| SessionFleet.FleetOvershootAttained | internal/mcpws/mcpws.go:454-593 | for every number of sessions and every limit of at least one some run reaches that bound |
| SessionAccounting.GatesAreDecided | internal/mcpws/mcpws.go:505-582 | every gate is passed exactly when the router, limiter, usage or policy says so and is otherwise answered with an error; the write is logged as it went |
| SessionAccounting.OnlyGatesPass | internal/mcpws/mcpws.go:505-593 | nothing else passes a gate or writes |
| SessionAccounting.ReactTrace | internal/mcpws/mcpws.go:505-593 | a handler's history grows by exactly what its step does |
| SessionAccounting.ReactCounts | internal/mcpws/mcpws.go:584-589 | usage moves only with a counted call, in the period counted |
| SessionAccounting.TraceInvariant | internal/mcpws/mcpws.go:454-593 | no two handlers share a message, and the log of each is the history its point tells |
| SessionAccounting.HistoryIsTrace | internal/mcpws/mcpws.go:505-593 | the logged history of a message is determined by the point its handler has reached |
| SessionAccounting.EveryMessage | internal/mcpws/mcpws.go:454-502 | every received message was malformed and answered once, or waits untouched in the loop, or has exactly one handler |
| SessionAccounting.MessageVerdict | internal/mcpws/mcpws.go:505-593 | every handled message was either written once after passing all gates and never answered with an error, or answered with exactly one error and never written |
| SessionAccounting.AccountsBalance | internal/mcpws/mcpws.go:570-593 | quota increments and success events each equal the tool calls written, failure events equal failed tool-call writes, up to what running handlers have yet to do |
| SessionAccounting.TallyInvariant | internal/mcpws/mcpws.go:584-589 | the usage of a period is the number of calls counted into it |
| Tracker.ReactMoves | internal/usage/tracker.go:167-295 | a flush step takes the whole buffer or hands over events from the front of its batch |
| Tracker.EventsConserved | internal/usage/tracker.go:78-295 | in every interleaving the tracked events are, with multiplicity, those buffered, in flight, stored, dead-lettered or lost to a failed dead-letter write; the retry buffer stays empty |
| Tracker.NegativeRetriesLose | internal/usage/tracker.go:205-245 | with a negative retry count a concrete run loses an event silently |
| Tracker.ConservesIff | internal/usage/tracker.go:78-295 | events are conserved on every run if and only if the retry count is not negative |
| Tracker.CloseDrains | internal/usage/tracker.go:126-150 | after Close, with no further Track and no other flush running, every event ever tracked has left the tracker |
| TrackerClose.CloseReturns | internal/usage/tracker.go:126-150 | after Close with no further Track, worker and closer have a bounded number of steps left, one can always be taken until the closer has ended, and when all are taken it has, the buffer is empty and every event has left |
| TrackerClose.WakingFlushes | internal/usage/tracker.go:298-314 | on a tick or a pending signal the idle worker goes on to empty the buffer, whatever others do in between |
| TrackerClose.SealingCloses | internal/usage/tracker.go:138-144 | the closer's last step closes the dead-letter file |
| Tracker.NoLostWakeup | internal/usage/tracker.go:91-98 | while the worker runs, a full buffer with no Track between append and trigger has a pending signal or a worker about to swap |
| TrackerFlush.DefaultTracker.Track | internal/usage/tracker.go:78-99 | appends the event, with a missing id and timestamp filled in, and signals exactly when the buffer is full |
| TrackerFlush.DefaultTracker.StoreWithRetry | internal/usage/tracker.go:199-245 | stops at the first success, makes at most one try more than the retry count, stores the batch at most once, and waits the base delay times a power of two less one |
| TrackerFlush.DefaultTracker.SendToDLQ | internal/usage/tracker.go:248-295 | appends in order exactly the events whose write succeeded |
| TrackerFlush.DefaultTracker.Flush | internal/usage/tracker.go:167-196 | where every event of the swapped batch ends up, for all outcomes of the external calls |
| TrackerFlush.DefaultTracker.Query | internal/usage/tracker.go:102-111 | a query sees every event tracked before it while the store accepts |
| TrackerFlush.FlushIsRun | internal/usage/tracker.go:167-295 | a flush that nothing interrupts is a run of one process of the step system, with the same destinations |
| UsageStore.MemoryStore.Store | internal/usage/memory.go:24-30 | appends in order |
| UsageStore.MemoryStore.Query | internal/usage/memory.go:33-63 | one page of the matching events, newest first, for whatever the library sort does among equal timestamps |
| UsageStore.MemoryStore.GetSummary | internal/usage/memory.go:66-118 | the one-pass loop computes the sums and per-tool counts of the matching events, and the request is echoed |
| UsageStore.MemoryStore.DeleteOlderThan | internal/usage/memory.go:121-138 | keeps exactly the newer events in order and counts the rest |
| UsageStore.SortedSorts | internal/usage/memory.go:47-50 | such a sort exists: a permutation, newest first |
| UsageStore.SummaryPermutation | internal/usage/memory.go:66-118 | a summary does not depend on order |
| UsageStore.SummaryRefinesQuery | internal/usage/memory.go:33-118 | a summary equals the same folds over the unpaged query result, whichever sort was used, and its parts add up |
| UsageStore.PagesConcatenate | internal/usage/memory.go:52-60 | consecutive pages concatenate to the unpaged result |
| UsageStore.RetentionKeepsLaterQueries | internal/usage/memory.go:121-138 | deleting old events leaves every query with a later start unchanged |
| UsageStore.SortsAgreeOnTimes | internal/usage/memory.go:47-50 | two sorts of the same events differ only among equal timestamps |
| SqlQuery.BuildText | internal/usage/postgres.go:78-123 | text, arguments and placeholder number grown side by side give the rendered query and its arguments |
| SqlQuery.PlaceholdersInOrder | internal/usage/postgres.go:78-123 | scanning the text of any built query finds $1 .. $k once each, in order, for k arguments |
| SqlQuery.QueryMeansMatches | internal/usage/postgres.go:78-123 | the WHERE clause holds of an event exactly when the memory store's filter does |
| SqlReader.ReadsBack | internal/usage/postgres.go:78-123 | a reader of literal SQL words recovers columns, operators, placeholders, newest-first order, LIMIT and OFFSET from the text of every query |
| SqlReader.TextMeansMatches | internal/usage/postgres.go:78-123 | the text built for any parameters reads as conditions that hold exactly when the memory store's filter does, with the page's LIMIT and OFFSET |
| SqlQuery.QueriesAgreeUpToTies | internal/usage/postgres.go:78-123 | every answer of the database is the memory store's page up to the order of equal timestamps |
| Text.AtoiItoa | internal/usage/postgres.go:299-304 | decimal text reads back as the number |
| ApiKeyStore.MemoryStore.Create | internal/apikeys/memory.go:24-31 | enters the key in the map and the index |
| ApiKeyStore.MemoryStore.Get | internal/apikeys/memory.go:34-43 | finds a key exactly when its id is stored |
| ApiKeyStore.MemoryStore.GetByHash | internal/apikeys/memory.go:46-61 | with an exact index, finds exactly the key a linear scan would |
| ApiKeyStore.MemoryStore.Update | internal/apikeys/memory.go:83-93 | replaces a stored key and leaves the index alone |
| ApiKeyStore.MemoryStore.Delete | internal/apikeys/memory.go:96-108 | removes a key from both maps |
| ApiKeyStore.MemoryStore.CountByUser | internal/apikeys/memory.go:111-122 | in any visiting order, the number of that user's valid keys, each judged at its own clock reading |
| ApiKeyStore.LookupIsScan | internal/apikeys/memory.go:46-61 | index lookup equals a linear scan of the key map |
| ApiKeyStore.PutKeepsIff | internal/apikeys/memory.go:24-31 | storing keeps the index exact if and only if neither id nor hash belongs to another entry |
| ApiKeyStore.ReplaceKeepsIff | internal/apikeys/memory.go:83-93 | updating keeps the index exact if and only if it keeps the hash |
| ApiKeyStore.RemoveKeeps | internal/apikeys/memory.go:96-108 | deleting keeps the index exact and hides only that key |
| ApiKeys.Manager.Create | internal/apikeys/manager.go:52-114 | the error cases in order, the key that is stored, and that errors store nothing |
| ApiKeys.Manager.Validate | internal/apikeys/manager.go:133-161 | the refusals in order; an accepted key is valid at that instant |
| ApiKeys.Manager.Revoke | internal/apikeys/manager.go:164-183 | revokes one key and changes nothing else |
| ApiKeys.Manager.Rotate | internal/apikeys/manager.go:186-226 | stores the successor, then revokes the old key; a failure changes nothing |
| ApiKeys.Manager.UpdateLastUsed | internal/apikeys/manager.go:229-243 | changes one key's last use only |
| ApiKeyRuns.SoundRun | internal/apikeys/manager.go:52-243 | in every run the index is exact and knows exactly the plaintexts handed out |
| ApiKeyRuns.ValidateExact | internal/apikeys/manager.go:133-161 | in every run an issued plaintext is refused as revoked if its key is revoked, as expired exactly after the stored expiry instant, and accepted otherwise; any other plaintext is unknown or malformed |
| ApiKeyRuns.CreateOutcome | internal/apikeys/manager.go:52-114 | a key is created exactly when the request is complete, the random source works and a capped user holds fewer unrevoked, unexpired keys than allowed; what is stored, and when it expires |
| ApiKeyRuns.KeyLives | internal/apikeys/manager.go:94-161 | a key created at t is accepted, until revoked, at every instant up to t plus the requested (else the default) time and at none after, whatever the manager does meanwhile |
| ApiKeyRuns.LaterRun | internal/apikeys/manager.go:52-243 | no run removes a key, changes its owner, hash, scopes or expiry, or undoes a revocation |
| ApiKeyRuns.RefusalIsFinal | internal/apikeys/apikeys.go:45-63 | once refused as revoked or expired, a plaintext is refused for ever |
| ApiKeyRuns.CapHolds | internal/apikeys/manager.go:65-74 | in every run no named user has more valid keys than allowed, from the latest reading on, also between the two halves of a rotation |
| ApiKeyRuns.RotateOutcome | internal/apikeys/manager.go:186-226 | a rotation succeeds exactly when enabled, found, below the cap and given entropy; at the cap it fails and changes nothing |
| ApiKeyRuns.RotateHandsOver | internal/apikeys/manager.go:186-226 | the new plaintext replaces the old one for the same tenant, user and scopes, and no other key changes |
| ApiKeyRuns.RotateExpiry | internal/apikeys/manager.go:197-213 | a future expiry moves by the time between two readings and is kept if and only if they are equal; a past one becomes the default |
| Webhook.Sender.Send | internal/billing/webhook.go:115-153 | between one and MaxRetries + 1 identical posts, stopping at the first success or a cancelled wait; none when disabled; total wait is the base delay times a power of two less one |
| Webhook.QueueAccounts | internal/billing/webhook.go:156-252 | accepted events are, in order, those attempted, the one in hand and those queued; offered events are accepted or dropped |
| Webhook.DroppedOnlyWhenFull | internal/billing/webhook.go:156-168 | an event is dropped exactly when one hundred accepted events are waiting |
| Webhook.CloseDrains | internal/billing/webhook.go:171-252 | after Close with no later SendAsync the worker returns within a bounded number of its steps, and every accepted event was attempted in acceptance order |
| Webhook.AcceptedIsAttempted | internal/billing/webhook.go:220-252 | closed or not, and whatever is sent meanwhile, every accepted event is attempted in acceptance order within two worker steps for each event waiting and two more |
| Webhook.ReturnsWithNothingLeft | internal/billing/webhook.go:220-252 | when the worker returns, everything accepted by then, also during the drain, has been attempted |
| Webhook.StrandedAfterExit | internal/billing/webhook.go:156-252 | in every run in which the worker returned, what was accepted up to its return is exactly what was attempted, and what was accepted after it exactly what never will be |

## Left out

- HTTP handlers, the WebSocket upgrade, dialing, JSON encoding, metrics, logging and environment parsing: plumbing without a hard property.
- SHA-256, HMAC, JWT and random generation: the key hash is an injective function, ids and secrets are fresh inputs.
- The pool, router and registry libraries are not part of this model: a pool hands out a new healthy connection for the server asked for, resolving a tool is an arbitrary answer, and connections may be flagged unhealthy at any time.
- The session, tracker and webhook queue are step systems over values: update in place and aliasing of their fields is not captured, only the order of lock regions and external calls.
- The session's Close and the end of its context; the reaper picks an arbitrary list of names, so its idle test is not modelled.
- Retry sleeps in the tracker's step system take no time; the waits are stated for the sequential loops.
- The Redis scripts are modelled on values, and the server may drop a key at any instant from its expiry on; the Redis retry-after estimate and result parsing are left out, since they do not match the memory store's.
- The other Postgres stores, whose summary is capped and averaged in SQL.
- A second Close of the tracker or of the webhook sender closes a closed channel and panics; here it changes nothing.
- Disabled components other than where a row says so, the no-op implementations, policy patterns, the composite authenticator, the tenant resolver, the one-shot call, exporters and formatting: they would add only easy members.
- Float rounding and 64-bit overflow: arithmetic is idealised.
