# LLMSentinelRouter, verified

A Dafny 4.11 model of the routing engine of LLMSentinelRouter, a Go gateway that sends each
chat request to a weak or a strong tier of language models under a per-session budget. Each
component of the engine is modelled in its own module, in the form it has in the program
(classes whose methods change their fields, loops over lists and maps, in-place sorting), and
the facts about it are proved over whole runs and, where requests overlap, over every
interleaving. `Router.Router.Route` puts the components together: one request does to them
exactly what the step function in `Routing` says, and the theorems in `Routing` are about every
run of such requests.

`dafny verify dfyconfig.toml` checks the whole project.

| module | models |
|---|---|
| `SessionStore`, `BudgetProtocol`, `BudgetReports` | the session table, its SQL statements as atomic steps, the budget manager, all interleavings of the requests of one session, and the row in terms of the costs the providers reported |
| `RateLimiter`, `TokenBound`, `RouterLimits` | the sliding-window limiter, checks and records that overlap, what the token limits bound, and the limits in runs of the router |
| `Threshold`, `Escalation`, `OverlappingDecisions`, `Recovery` | the threshold controller, its feedback loop with the routing decision, requests that overlap at it, and how strong routing comes back |
| `SemanticCache`, `CacheRuns`, `RestartShows`, `RouteMemory`, `FlipRuns` | the route cache, its table, the write-through wrapper, runs with restarts and where these show, and how recorded routes move the cached answer |
| `SimHash`, `CycleDetector` | the hash, one session's detector, and the bounded registry of sessions |
| `JudgeHealth`, `JudgeRuns` | the judge circuit breaker, the loop over the judges, and runs of it |
| `Config`, `LegacyConfig`, `LegacyMeaning` | validation of a configuration, the translation of a legacy model list, and what it contains entry by entry |
| `Failover`, `KeyStability` | candidates, key order, the loop over models and keys, and what the key sort does to equal priorities |
| `Sse`, `SseMeaning` | the server-sent event frames, failing writes, the stream reader, and how it takes any single line |
| `Routing`, `Router` | a whole request on the combined state, runs of requests, and the router object |
| `RouteDecided`, `RouterCalls`, `RequestBooked`, `RequestTaught` | what the route of a request depends on, which models it calls, what it books and answers, and what it leaves behind in each component, in the program's own numbers |
| `RestartedRuns`, `RouterLockIn`, `ForgottenRepeats` | runs of the router with the cache restarted in between, with a cached "weak", and with a failed request before a repeated prompt |
| `SmallSetup`, `StreamedTwice`, `RestartChangesRoute` | the smallest valid configuration, a request whose caller is sent two texts, and a run in which a restart changes a route |
| `Common` | an option type and bounded tails of lists |

Money, scores, rates and thresholds are `real`s; time is an integer clock that never goes back,
and every reading is a parameter. What providers, judges and other requests do is a parameter
too, so each theorem holds for all of it.

What the proofs turned up, each stated as a theorem with its exact condition:

- A failed provider call, and a failed or rejected settlement, leave the reservation of 5.0 on
  the session row for good (`BudgetProtocol.TracksCostIffNothingAbandoned`,
  `BudgetProtocol.AbandonedLockSession`, `BudgetProtocol.FailedCallLeaks`). The repository's
  README promises that the switch "tracks cumulative session cost"; below 25000 settlements, where
  the tolerances of the settlements cannot add up to a reservation, it does exactly when nothing was
  abandoned.
- The rate limit can be overshot by one less than the number of requests that may stand between
  a passing check and its record, and that bound is reached, for the minute and for the day
  (`RateLimiter.BoundIsReached`).
- Strict mode ends after at most 85 + windowSize - a requests, where a full window tolerates `a`
  strong decisions, that is floor(targetRate * windowSize) of them; every a + 1 requests that are
  forced by a cycle or scored above 1 prolong it by windowSize, and those left over by one each
  (`Escalation.StrictModeEnds`). For every target below one and every number of forced requests
  there is a run that needs them all (`Escalation.StrictBoundReached`); with the default setting
  this is 104 (`Escalation.DefaultTolerates`). Cycles can keep strict mode on for as long as they come
  (`Escalation.CyclesKeepStrict`), and k requests that overlap count like k - 1 forced ones
  (`OverlappingDecisions.OverlappingModeEnds`).
- Strong routing comes back if the target rate is above 0.02: then at most windowSize + 49 requests
  in a row with scores of zero or more are routed weak (`Recovery.WeakStretchEnds`). At 0.02 or below
  the threshold is never lowered to zero, and requests without a score stay weak for as long as they
  come (`Recovery.LowTargetStaysWeak`).
- A failed request hides a repeated prompt from the cycle detector exactly when the bare prompt
  hashes too far from every pair remembered (`ForgottenRepeats.RepeatAfterFailure`, and a run in
  which it does in `ForgottenRepeats.MissedRepeat`).
- Restarting the cache between requests changes no result of any request and nothing in the rest of
  the state, as long as logs are redacted no more than prompts (`RestartedRuns.RestartsGoUnnoticed`).
  The default redaction mode redacts logs only, and then, for a prompt with something to redact,
  the cache is told under a key it was not asked for. A restart before such a recording shows in the
  next answer exactly when the key has expired from memory and is still in the table, and the calls
  in the row matter besides the new one (`RestartShows.NextAnswerShowsRestart`, and a run of five
  requests in which it sends the last to the other tier in `RestartChangesRoute.RestartTurnsRoute`).
- The exchange sort over key priorities keeps the configured order of the keys with the best
  priority, but not of the others: every better key turns the group of the worse ones before it by
  one place (`KeyStability.SortedGroup`). Distinct keys of one priority keep their order exactly when
  for every k the better keys configured between the k-th and the next of them come in a multiple
  of k (`KeyStability.EqualKeysKeepOrderIff`); one better key after two equal ones swaps them, two do
  not (`KeyStability.OneTurnSwapsTwoDoNot`).
- A streamed answer is what the caller received exactly when the failed calls before it had
  streamed nothing, in the first round and, after a conditional timeout, in the second
  (`Routing.ReceivedIsTheAnswersIff`; `StreamedTwice.TimedOutText` is the first request of a new
  router where they had).
- A stream of events that stops anywhere, after a failed write for example, is read without an
  error, as a complete shorter answer (`Sse.CutStream`).

## Model

| member | source | states |
|---|---|---|
| `SessionStore.SettleMeaning` | internal/storage/budget.go:29-57 | Settling fails exactly for a top-up without room and then changes nothing; while the reservation is on the row the refund never clamps and the row ends within the epsilon of the actual cost |
| `SessionStore.Store.TryReserveBudget` | internal/storage/budget.go:13-27 | The conditional update charges exactly when the session is active and has room, and otherwise changes nothing |
| `SessionStore.Store.AdjustReservedCost` | internal/storage/budget.go:29-57 | The row becomes the settled row, for a missing session nothing happens and only a top-up is an error |
| `SessionStore.Store.ReserveBudget` | internal/storage/budget.go:59-91 | Under any interference: granted means exactly one charge, anything else none; a denial names an instant without room; a conflict needs one foreign statement per attempt; left alone, granted exactly when the row is active and has room |
| `SessionStore.Store.GetOrCreateSession` | internal/storage/storage.go:201-225 | Under any interference the session exists afterwards and was created by this call at most once, never if it existed |
| `SessionStore.Store.AddCost` | internal/storage/storage.go:255-260 | Adds the cost whatever the limit |
| `SessionStore.Store.ResetSession` | internal/storage/storage.go:267-272 | Zero cost, the new limit, active again |
| `SessionStore.Manager.RequireBudget` | internal/budget/budget.go:34-51 | Under any interference a success leaves exactly one charge, a refusal or failure none; left alone it succeeds exactly when the session, new or known, is active and has room |
| `SessionStore.Manager.SettleCost` | internal/budget/budget.go:53-55 | The row becomes the settled row of the reservation |
| `SessionStore.Manager.ResetSession` | internal/budget/budget.go:61-66 | A non-positive limit means the manager's own |
| `SessionStore.Manager.SetMaxCostPerSession` | internal/budget/budget.go:68-72 | Only a positive limit replaces the manager's |
| `BudgetProtocol.BudgetSafety` | internal/storage/budget.go:13-57 | In every interleaving, resets and deactivations included, the row's cost stays between zero and its limit |
| `BudgetProtocol.ClampNeverFires` | internal/storage/budget.go:34-44 | Whenever a request settles, its whole reservation is still on the row |
| `BudgetProtocol.StatementBalances` | internal/router/router.go:136-220 | Every statement moves the row by what the request's own ledger entry moves by |
| `BudgetProtocol.Conservation` | internal/router/router.go:136-220 | In every interleaving the row is the sum of outstanding reservations, abandoned reservations and settled charges, each charge within the epsilon of its actual cost |
| `BudgetProtocol.ReservationBound` | internal/router/router.go:136-143 | At most floor(limit / 5) reservations are outstanding or abandoned at any instant |
| `BudgetProtocol.TracksCostIffNothingAbandoned` | internal/router/router.go:197-220 | At quiescence the row is within n epsilons of the n actual costs if no reservation was abandoned and, for n below 25000, exactly then |
| `BudgetProtocol.FailuresAbandon` | internal/router/router.go:197-220 | A failed call and a rejected settlement each abandon one more reservation and leave the row as it is |
| `BudgetProtocol.AbandonedLockSession` | internal/router/router.go:197-200 | Once abandoned reservations leave less than one estimate, without a reset there is never room again and the settled requests of the session stay the same ones for good |
| `BudgetProtocol.FailedCallLeaks` | internal/router/router.go:197-200 | The concrete run: one failed call leaves 5.0 on a row nobody was charged for |
| `BudgetProtocol.AloneUntilCall` | internal/router/router.go:108-143 | Undisturbed, a request creates its session if need be and reaches its call with 5.0 more on the row exactly when the session is active and has 5.0 left, and is otherwise refused with the row as it was |
| `BudgetProtocol.LostRace` | internal/storage/budget.go:59-91 | A request that lost the race for a reservation tries again, three times in all, as long as there is room |
| `BudgetProtocol.AdministrationMeans` | internal/budget/budget.go:61-72 | Resetting, closing and a new limit on the session and the manager, and none of them touches a request |
| `BudgetReports.SettledIsReported` | internal/router/router.go:590-596 | In every interleaving the cost a request settles is the one its own call reported, zero for a negative one, and no other request has been reported |
| `BudgetReports.RowIsReports` | internal/router/router.go:136-220 | At any instant the row is the reported costs of the settled requests, up to 0.0001 each, and 5.0 for each reservation outstanding or abandoned |
| `BudgetReports.TracksReportsIffNothingAbandoned` | internal/router/router.go:197-220 | At quiescence the row is within 0.0001 times n of the n reported costs if no reservation was abandoned and, for n below 25000, exactly then |
| `RateLimiter.TrimEvents` | internal/rate/limiter.go:112-122 | The in-place trim drops the prefix before the cutoff |
| `RateLimiter.TrimIsFilter` | internal/rate/limiter.go:112-122 | On a sorted log dropping the prefix is filtering the whole log |
| `RateLimiter.MinuteIsSuffixOfDay` | internal/rate/limiter.go:94-99 | The minute log is a suffix of the day log |
| `RateLimiter.CapMeaning` | internal/rate/limiter.go:57-71 | An amount reaches the cap exactly when one more would pass the limit times the margin |
| `RateLimiter.VerdictMeaning` | internal/rate/limiter.go:50-73 | The verdict over the counts of the last 60 seconds and 24 hours: which limit it names, in which order, and admitted exactly when every limit times the margin has room for one more and the minute also for the estimated tokens |
| `RateLimiter.Window.Record` | internal/rate/limiter.go:40-48 | Both logs stay the full history cut to their span, grown by one event |
| `RateLimiter.Window.Check` | internal/rate/limiter.go:50-73 | Admits exactly when every limit times the margin has room for one more, over the counts of the whole history, and for the estimated tokens; the verdict says which limit stands in the way, and the history is untouched |
| `RateLimiter.Limiter.Record` | internal/rate/limiter.go:40-48 | One more event for this model and nothing for any other |
| `RateLimiter.Limiter.Check` | internal/rate/limiter.go:50-92 | The same by this model's history alone, and nothing is recorded |
| `RateLimiter.ConcurrentRateBound` | internal/rate/limiter.go:40-73 | With at most k requests between a passing check and their record, no closed minute or day holds more than cap - 1 + k recorded requests (in the configured numbers below) |
| `RateLimiter.ConcurrentRateInNumbers` | internal/rate/limiter.go:40-73 | With at most k at once no closed minute or day holds more recorded requests than the limit times the margin, less one, and k |
| `RateLimiter.GivingUpLeavesNothing` | internal/router/router.go:197-200 | A request that was let through and fails leaves no record and frees its place |
| `RateLimiter.BoundIsReached` | internal/router/router.go:444-448 | Some run reaches cap - 1 + k within the span, minute or day, of the tightest cap on requests |
| `TokenBound.ConcurrentTokenBound` | internal/rate/limiter.go:40-73 | With at most k requests between a passing check and their record and no negative count, the tokens of any closed minute or day, but for its newest k records, are below the cap |
| `TokenBound.TokenOvershoot` | internal/rate/limiter.go:50-73 | Hence the tokens of the window are at most cap - 1 and k times the largest record |
| `TokenBound.ConcurrentTokensInNumbers` | internal/rate/limiter.go:40-73 | With at most k at once the tokens of any closed minute or day, but for its newest k records, and one more are within the limit times the margin |
| `TokenBound.OvershootInNumbers` | internal/rate/limiter.go:50-73 | Hence all its tokens are at most the limit times the margin, less one, and k times the largest record |
| `Threshold.RateAbove` | internal/threshold/threshold.go:80-91 | The rate exceeds the target exactly when the strong decisions outnumber their share |
| `Threshold.AdjustedRange` | internal/threshold/threshold.go:55-69 | The threshold stays at or above zero, is raised only in strict mode, by 0.01 and up to 0.99 |
| `Threshold.StrictInCounts` | internal/threshold/threshold.go:43-47 | Strict mode is a full window in which the strong decisions outnumber their share |
| `Threshold.AdjustedInCounts` | internal/threshold/threshold.go:55-69 | The new threshold in counts: nothing before the window is full, then 0.01 up to at most 0.99 above the share, 0.02 down to at least zero when the strong decisions are fewer than (targetRate - 0.02) of the window, otherwise nothing |
| `Threshold.AdjustedMoves` | internal/threshold/threshold.go:55-69 | Between zero and 0.99 it rises exactly in the first case and falls exactly in the second |
| `Threshold.Dynamic.AddDecision` | internal/threshold/threshold.go:26-35 | The window is always the newest windowSize decisions |
| `Threshold.Dynamic.Adjust` | internal/threshold/threshold.go:55-69 | The new threshold, by the counts of `Threshold.AdjustedInCounts`, and whether it changed |
| `Escalation.HandleRequest` | internal/router/router.go:166-240 | Decide, record and adjust on the controller object is the step of the feedback loop |
| `Escalation.FlushBound` | internal/threshold/threshold.go:26-69 | With the threshold above 0.85 strict decisions are weak and flush the window down to the strong ones it tolerates, less those already gone, and forced ones prolong this by what they fill |
| `Escalation.SlidingBound` | internal/threshold/threshold.go:26-35 | As long as a window of w decisions always holds more than a strong ones, at most w - a decisions follow, less its weak tail, and windowSize more for every a + 1 strong ones among them |
| `Escalation.ProlongedIs` | internal/threshold/threshold.go:26-35 | m strong decisions prolong a flush by m div (a + 1) windows and m mod (a + 1) decisions |
| `Escalation.StrictBound` | internal/router/router.go:560-575 | The ranking argument: a strict stretch is at most the steps to the ceiling, the flush, and what its forced requests prolong |
| `Escalation.StrictModeEnds` | internal/threshold/threshold.go:26-69 | From outside strict mode, at most 85 + windowSize - a consecutive requests are strict, a being the strong decisions a full window tolerates, and more only by what forced ones among them prolong |
| `Escalation.CyclesKeepStrict` | internal/router/router.go:560-563 | Requests forced by cycle detection keep strict mode on |
| `Escalation.StrictBoundReached` | internal/threshold/threshold.go:26-69 | For every target below one and every number of forced requests, a run from threshold 0 is strict for exactly that many requests |
| `OverlappingDecisions.OverlappingModeEnds` | internal/router/router.go:166-240 | With at most k requests between reading the threshold and adjusting it, in any interleaving no more decisions are added in strict mode than the same bound with k - 1 more forced ones |
| `OverlappingDecisions.AloneIsHandle` | internal/router/router.go:166-240 | With nobody in between, a request is one turn of the feedback loop |
| `OverlappingDecisions.DecidesOnWhatItRead` | internal/router/router.go:166-168 | With any others in between, it decides on the threshold it read and in the mode it finds |
| `OverlappingDecisions.JudgedAgain` | internal/router/router.go:181-191 | Judged again after the timeout, it is one turn of the loop on the second verdict |
| `OverlappingDecisions.DroppedLeavesNothing` | internal/router/router.go:197-200 | Failed before its decision counts, it leaves the controller alone and its place free |
| `Recovery.WeakRunLowers` | internal/threshold/threshold.go:55-69 | From a full window of weak decisions n more of them lower the threshold by 0.02 n, down to zero, if the target rate is above 0.02 |
| `Recovery.WeakStretchEnds` | internal/router/router.go:560-575 | Then at most windowSize + 49 requests in a row with scores of zero or more are routed weak, whatever happened before |
| `Recovery.LowTargetStaysWeak` | internal/threshold/threshold.go:65-67 | With a target rate of 0.02 or below a positive threshold never reaches zero, and requests without a score are weak for ever |
| `Recovery.RouterWeakStretchEnds` | internal/router/router.go:166-240 | The bound on weak stretches for the settled requests of any run of the router |
| `SemanticCache.RowRoundTrip` | internal/storage/semantic_cache.go:38-79 | An entry survives being written to its row and read back |
| `SemanticCache.Cache.Lookup` | internal/semantic/cache.go:48-62 | Finds an entry unless it has expired, and then deletes it |
| `SemanticCache.Cache.Record` | internal/semantic/cache.go:92-117 | One more call on the entry, a new one if there was none |
| `SemanticCache.StatsTable.UpsertSemanticCacheStats` | internal/storage/semantic_cache.go:60-79 | Overwrites a row except for the time it was first seen |
| `SemanticCache.PersistentCache.ConfidentRoute` | internal/semantic/persistent_cache.go:65-68 | Loads at most once, sweeps the key and answers from memory |
| `SemanticCache.PersistentCache.Record` | internal/semantic/persistent_cache.go:70-100 | Records in memory and writes the entry through unless it is dropped at once |
| `SemanticCache.PersistentCache.Reset` | internal/semantic/persistent_cache.go:102-108 | Memory and table are empty, and the cache counts as loaded |
| `CacheRuns.RunKeepsSound` | internal/semantic/persistent_cache.go:25-108 | After any run each entry in memory equals its row except for the first-seen time, and a row missing from memory is expired |
| `CacheRuns.FreshCacheSameAnswer` | internal/semantic/persistent_cache.go:25-68 | A fresh cache over the same table gives the same answer for every key |
| `CacheRuns.RestartsChangeNoAnswer` | internal/semantic/persistent_cache.go:25-108 | In any run that asks for a key before recording under it, leaving out the restarts changes no answer |
| `RestartShows.UnaskedRecordingShowsRestart` | internal/semantic/persistent_cache.go:70-100 | Recording without asking first gives the same entry with and without a restart exactly when the key is in memory or has no row |
| `RestartShows.NextAnswerShowsRestart` | internal/semantic/persistent_cache.go:65-100 | A restart before such a recording leaves the next answer alone exactly when the key is in memory, or has no row, or the row's calls make no difference to the new one |
| `RestartShows.RestartShowsInARun` | internal/semantic/persistent_cache.go:65-100 | Two recordings, a question after they expired, a recording and a question: the last is answered only if the process was restarted before the third recording |
| `RouteMemory.ConfidenceRange` | internal/semantic/cache.go:134-144 | Confidence is zero without calls, otherwise between a half and one, and one exactly when all calls agree |
| `RouteMemory.AnswerMeansShare` | internal/semantic/cache.go:74-90 | The cache answers a route exactly when it has enough samples, a strict majority and the configured share |
| `RouteMemory.FlipWeakToStrong` | internal/semantic/cache.go:74-117 | Turning a confident weak into a confident strong takes at least w(2c-1)/(c(1-c)) strong calls |
| `RouteMemory.FlipStrongToWeak` | internal/semantic/cache.go:74-117 | The same the other way round |
| `FlipRuns.FlipInRun` | internal/semantic/persistent_cache.go:65-108 | The same over any run of the persistent cache, with other keys and restarts in between, as long as the key is not lost |
| `FlipRuns.FlipInRouter` | internal/router/router.go:125-297 | And over any run of the router: so many requests answered by the other tier and recorded under the key |
| `RouteMemory.NoFlipAtFullConfidence` | internal/semantic/cache.go:74-117 | At confidence one a contrary call silences the cache, whatever it answered, and it never flips |
| `RouteMemory.CachedWeakRoute` | internal/router/router.go:151-168 | A cached weak is routed weak exactly without a cycle and with a positive threshold or strict mode |
| `RouteMemory.CachedStrongRoute` | internal/router/router.go:151-168 | A cached strong is routed strong exactly with a cycle or when 0.95, in strict mode 0.80, reaches the threshold |
| `RouteMemory.WeakLockIn` | internal/router/router.go:125-168 | Once the cache says weak, every later request under the key is routed weak or forced by a cycle and not recorded; confidence never falls until expiry or reset |
| `RouteMemory.ServeIsAskThenRecord` | internal/router/router.go:295-297 | The entry evolves as in the cache's memory |
| `RouterLockIn.WeakLockIn` | internal/router/router.go:125-168 | In runs of the whole router, whatever happens under other keys, each request under a key cached as weak is refused, forced by a cycle or routed weak, no strong call is recorded there and confidence never falls |
| `SimHash.SimHash` | internal/semantic/hash.go:14-38 | A bit is set exactly when more tokens have it than lack it |
| `SimHash.OrderDoesNotMatter` | internal/semantic/hash.go:14-38 | The hash depends on the bag of tokens only |
| `SimHash.RepetitionDoesNotMatter` | internal/semantic/hash.go:14-38 | Repeating the whole text any number of times changes nothing |
| `SimHash.OneTokenFlips` | internal/semantic/hash.go:14-38 | One more token flips exactly the bits won by one vote that it lacks and the tied bits that it has |
| `SimHash.NoCloseVoteNoChange` | internal/semantic/hash.go:14-38 | Without a close vote one more token changes nothing |
| `SimHash.HammingIsMetric` | internal/semantic/hash.go:40-42 | Zero exactly for equal words, symmetric, at most 64, triangle inequality |
| `CycleDetector.Detector.DetectPrompt` | internal/cycle/detector.go:27-35 | A hit is a remembered hash within the threshold; repeating a remembered pair is always a hit |
| `CycleDetector.Detector.Add` | internal/cycle/detector.go:37-45 | The remembered hashes are those of the newest maxHashes pairs |
| `CycleDetector.RepeatForcesStrong` | internal/router/router.go:144-168 | Repeating a prompt after its response is routed strong whatever score, impact, threshold and mode |
| `ForgottenRepeats.RepeatAfterFailure` | internal/router/router.go:144-200 | In a run with an answered prompt, a failed request of the session and the prompt again, other sessions in between, the repeat is recognised, and goes strong, exactly when the bare prompt hashes near enough to a pair remembered at the answer |
| `ForgottenRepeats.MissedRepeat` | internal/router/router.go:144-200 | Three requests of a new router: at once the repeat goes strong, after a failed request it goes weak, whenever the bare prompt and the pair hash more than the threshold apart |
| `ForgottenRepeats.SilentHashIsFar` | internal/cycle/detector.go:27-45 | A token hash for which they do |
| `CycleDetector.ByLastUseShape` | internal/cycle/detector.go:91-99 | The listing by last use has every session once |
| `CycleDetector.ByLastUseOrdered` | internal/cycle/detector.go:91-99 | It is ordered by last use |
| `CycleDetector.SurvivesIff` | internal/cycle/detector.go:73-99 | A session is kept exactly when fewer than maxSize distinct others were used since its last use |
| `CycleDetector.FetchOrder` | internal/cycle/detector.go:73-99 | Bounding the listing commutes with one more use |
| `CycleDetector.Registry.Get` | internal/cycle/detector.go:73-89 | The registry stays the newest maxSize sessions in order; a known session keeps its detector, nobody else's changes |
| `CycleDetector.Registry.Touch` | internal/cycle/detector.go:91-99 | Moves the session to the end of the order |
| `JudgeHealth.HealthTracker.RecordFailure` | internal/judge/health.go:52-60 | One more failure, and a deadline once the threshold is reached |
| `JudgeHealth.HealthTracker.IsAvailable` | internal/judge/health.go:34-42 | Available unless a deadline lies ahead |
| `JudgeHealth.HealthMeaning` | internal/judge/health.go:44-60 | The count is the failures since the last success, and a deadline exists exactly when it reached the threshold |
| `JudgeHealth.LetThroughIff` | internal/judge/health.go:34-60 | A judge is available exactly after fewer than failureThreshold failures in a row or more than a cooldown after the last of them |
| `JudgeHealth.FailureBound` | internal/judge/health.go:34-60 | A stretch of failures spanning time T has at most failureThreshold + floor(T / cooldown) calls |
| `JudgeHealth.FailureBoundInRun` | internal/judge/health.go:34-60 | The same between any two successes of a run |
| `JudgeHealth.PassIsFirstSuccess` | internal/judge/registry.go:30-56 | At most maxAttempts judges are tried, in order, and only the last can have succeeded |
| `JudgeHealth.PassTouchesTriedOnly` | internal/judge/registry.go:30-56 | Judges that were not tried keep their health, a winner is healthy |
| `JudgeHealth.JudgeRegistry.Evaluate` | internal/judge/registry.go:24-61 | The loop over the tracker computes that pass |
| `JudgeRuns.PassHealth` | internal/judge/registry.go:30-56 | An evaluation moves each judge's health by the calls that judge got, in their order |
| `JudgeRuns.PassSkipsNobody` | internal/judge/registry.go:30-56 | Up to the winner or the last attempt, a place is tried exactly when its judge is usable and available after its own earlier calls of the evaluation, however often it is listed |
| `JudgeRuns.PassAdmitted` | internal/judge/registry.go:38-44 | The circuit breaker lets through every call the loop makes, for each judge |
| `JudgeRuns.RunAdmitted` | internal/judge/registry.go:24-61 | In a run of evaluations each judge's health is what its own calls made of it, each of them let through |
| `JudgeRuns.EvaluationsBound` | internal/judge/registry.go:24-61 | In a run of evaluations a stretch of failures of one judge spanning time T has at most failureThreshold + floor(T / cooldown) calls |
| `Config.ValidationIdempotent` | internal/config/sentinel.go:151-159 | Normalising neither makes nor breaks a configuration, and once is enough |
| `Config.NormalMeans` | internal/config/sentinel.go:152-157 | A model without a list of instances gets its single old one if it names one; nothing else changes |
| `Config.ErrorMeansIllFormed` | internal/config/sentinel.go:136-222 | A configuration with any of the reportable errors is not well-formed |
| `Config.CheckModel` | internal/config/sentinel.go:152-183 | No fault exactly for a good model, and a reported fault is one the model has |
| `Config.SentinelConfig.Validate` | internal/config/sentinel.go:136-222 | Accepts exactly the well-formed configurations whatever the map order, otherwise names an error the configuration has; models are at most normalised |
| `LegacyConfig.SortLegacy` | internal/config/sentinel.go:350-357 | The one listing of the items sorted by order and then id |
| `LegacyConfig.ListingUnique` | internal/config/sentinel.go:350-357 | A set of items has only one sorted listing |
| `LegacyConfig.TranslationUnique` | internal/config/sentinel.go:260-343 | A legacy list has only one translation, so map order does not matter |
| `LegacyConfig.AcceptedIff` | internal/config/sentinel.go:260-343 | The translation is well-formed exactly when there is an active strong-group model and an active other one |
| `LegacyConfig.LoadLegacyConfig` | internal/config/sentinel.go:260-343 | Succeeds exactly then, with the translation as its result |
| `LegacyMeaning.KeysMean` | internal/config/sentinel.go:291-301 | Each provider of an active model, and no other, has one key with its value and one enabled instance of priority zero |
| `LegacyMeaning.ModelsMean` | internal/config/sentinel.go:302-313 | Each active model, and no other, is translated: enabled, with its provider, its instance, its own limits and prices, and its entry as its name where it names nothing |
| `LegacyMeaning.TiersMean` | internal/config/sentinel.go:314-357 | The strong tier is the active models of its group, the weak tier all other active ones, the judges those that can judge or else the first two weak ones, each sorted by order and name |
| `LegacyMeaning.ActiveMeans` | internal/config/sentinel.go:287-290 | A status counts as active whatever the case of its letters, and no other does |
| `LegacyMeaning.JudgeMeans` | internal/config/sentinel.go:321-323 | A model can judge exactly when it is from Gemini or has "judge" in its name, in any case |
| `LegacyMeaning.LessMeans` | internal/config/sentinel.go:350-357 | Names are compared by their first difference, and a name comes before its continuations |
| `Failover.CandidatesMeaning` | internal/router/router.go:480-504 | The candidates are the models of the tier that exist, are enabled, and whose status is missing, empty or "active" |
| `Failover.CandidatesOfOne` | internal/router/router.go:487-494 | A tier of one model has it as its candidate under the same conditions, or none |
| `Failover.CandidatesKeepOrder` | internal/router/router.go:480-494 | In tier order |
| `Failover.TiersStayApart` | internal/config/sentinel.go:193-212 | In a valid configuration no model is a candidate for both tiers |
| `Failover.ExchangeInPlace` | internal/router/router.go:546-552 | The in-place loops compute the exchange sort |
| `Failover.OrderedKeys` | internal/router/router.go:525-558 | The keys in the order in which they are tried |
| `Failover.KeysByPriority` | internal/router/router.go:525-558 | A permutation of the usable keys, sorted by priority |
| `Failover.KeysAreOffered` | internal/router/router.go:525-558 | The keys tried are exactly those of enabled instances with a key that is not blank, the better priority first |
| `Failover.UsableAppend` | internal/router/router.go:531-545 | They are collected instance by instance in configured order |
| `Failover.FirstKeyIsEarliestBest` | internal/router/router.go:546-552 | The first key tried is the earliest configured of the best priority |
| `KeyStability.SortedGroup` | internal/router/router.go:546-552 | The keys of one priority end up in configured order but turned by one place for each better key configured after them |
| `KeyStability.EqualKeysKeepOrderIff` | internal/router/router.go:525-558 | Distinct keys of one priority are tried in configured order exactly when, for every k, the better keys between the k-th and the next of them come in a multiple of k |
| `KeyStability.BestKeepOrder` | internal/router/router.go:546-552 | Keys that share the best priority keep their configured order |
| `KeyStability.NothingBetterAfter` | internal/router/router.go:546-552 | A key with nothing better configured after it stays behind every key of its priority that was before it, and before those that were after it |
| `KeyStability.OneTurnSwapsTwoDoNot` | internal/router/router.go:546-552 | One better key after two equal ones swaps them, a second one swaps them back |
| `Failover.KeysAreOfProvider` | internal/config/sentinel.go:160-182 | Under a valid configuration a model is called with keys of its own provider only |
| `Failover.ResolveIsFirstSuccess` | internal/router/router.go:435-478 | The outcome is the first success in tier order and key order, or the last error, or that there was nobody to call |
| `Failover.FirstSuccessIsUnique` | internal/router/router.go:435-478 | There is one such outcome, and a request is served exactly when some planned call would be answered |
| `Failover.CallCandidates` | internal/router/router.go:435-478 | The nested loops, asking the limiter object before each model, find the first success and leave the limiter's history alone |
| `Failover.PlannedModel` | internal/router/router.go:441-449 | No call is ever made to a model outside the tier or past the limiter |
| `Failover.PlanAt` | internal/router/router.go:441-471 | The plan call by call: each allowed model with its keys in order, after all calls to the models before it, and no others |
| `Failover.PlanSize` | internal/router/router.go:441-471 | And no other calls are planned |
| `Failover.CallsMade` | internal/router/router.go:441-477 | The calls made are the first of the plan, up to the first answer, or all of them |
| `Failover.ServedByItsTier` | internal/router/router.go:435-504 | A valid configuration answers with an enabled model of the tier whose status is missing, empty or "active", through an enabled instance and a key of its provider |
| `Failover.NobodyMeansHeldBack` | internal/router/router.go:474-477 | Without blank keys no call is made exactly when the limiter holds every candidate back |
| `Failover.RepliesEndWithAnswer` | internal/router/router.go:435-478 | The calls of one round are failures but the one that serves the request, which comes last |
| `Sse.EventStream.Handle` | internal/server/server.go:360-373 | Text and the final usage become one frame each, anything else nothing; a failing write sends a beginning of the frame and refuses, and nothing else does |
| `Sse.EventStream.WriteDone` | internal/server/sse.go:41-47 | The closing frame, or a beginning of it if the write fails |
| `Sse.ReadStream` | internal/provider/client.go:247-300 | The reading loop computes what the lines mean, the line limit and a refusing handler included |
| `Sse.RoundTrip` | internal/server/sse.go:19-75 | Reading what was written gives back every chunk, their concatenation and the usage |
| `Sse.LongLineBreaks` | internal/provider/client.go:247-292 | The first event over the line limit ends the reading with an error after exactly the chunks before it |
| `Sse.CutStream` | internal/provider/client.go:247-300 | A stream that stops after any number of bytes is read as the complete stream of the events whose line got through |
| `Sse.FailedWriteCuts` | internal/server/server.go:360-373 | A handler that refuses a chunk because its write failed leaves a beginning of the stream on the wire |
| `Sse.ConsumeKeeps` | internal/provider/client.go:249-289 | Whatever comes in, the chunks handed over are non-empty and the content is their concatenation |
| `SseMeaning.LongMeans` | internal/provider/client.go:249-292 | A line of 1048576 bytes or more ends the reading, and no other is too long |
| `SseMeaning.LineMeans` | internal/provider/client.go:251-275 | What stands after "data:" is an event, "[DONE]" the end, and anything else is passed over |
| `SseMeaning.EventMeans` | internal/provider/client.go:272-289 | An event hands over the text of its first choice, or else its reasoning, and replaces the usage if it has one |
| `SseMeaning.UsageMeans` | internal/provider/client.go:293-300 | The usage returned is the last one seen, with the sum of its parts for a missing total |
| `SseMeaning.CompleteMeans` | internal/provider/client.go:281-300 | A reading is complete exactly when it came to its end and the handler took everything, and otherwise names the reason |
| `SseMeaning.SentMeans` | internal/server/sse.go:19-47 | A write that fails after n bytes has sent exactly the first n |
| `SseMeaning.TrimMeans` | internal/provider/client.go:252-256 | Trimming takes away exactly the blanks around a text |
| `Sse.RelayIsTransparent` | internal/server/server.go:360-373 | Relaying any completely read stream and reading it again gives the same chunks, content and usage |
| `Routing.OnlyAnswersTeach` | internal/router/router.go:197-300 | A request that is not answered teaches neither limiter nor cache, and the controller only if it was settled |
| `Routing.OtherSessions` | internal/router/router.go:115-220 | No request touches any session row but its own |
| `Routing.RequestMovesRow` | internal/router/router.go:136-220 | The row moves by the cost of a settled request up to the epsilon, by 5.0 for a failed call or settlement, and not for a refused one |
| `Routing.RunStaysSolvent` | internal/router/router.go:101-326 | With the kill switch on no row ever leaves the range from zero to its limit |
| `Routing.TurnWasAllowed` | internal/router/router.go:176-196 | Whoever served the request, at the first call or after the conditional timeout, had just passed the limiter |
| `Routing.SequentialRateBound` | internal/router/router.go:101-326 | In any run of requests one after the other no closed minute or day holds more answers of a model than its cap |
| `Routing.RunControl` | internal/router/router.go:166-240 | The controller evolves as the feedback loop on the verdicts of the settled requests |
| `Routing.RouterStrictModeEnds` | internal/router/router.go:166-240 | Strict mode ends for the whole router, by the same bound on the settled requests |
| `Routing.RepeatGoesStrong` | internal/router/router.go:144-202 | Repeating an answered prompt goes to the strong tier as long as the budget admits it and fewer than maxSessions other sessions were active in between |
| `Routing.RouterCacheRun` | internal/router/router.go:125-297 | In any run of requests the cache goes through the run of the router's own operations |
| `Routing.RouterAsksFirst` | internal/router/router.go:125-128 | Each recording is preceded by its question when logs are redacted no more than prompts |
| `RestartedRuns.RestartsGoUnnoticed` | internal/semantic/persistent_cache.go:25-108 | In any run of requests whose logs are redacted no more than prompts, restarting the cache between requests changes no result, and the state only in first-seen times and expired entries of the cache |
| `Routing.ReceivedIsTheAnswersIff` | internal/router/router.go:176-196 | A served caller received what the answering call streamed exactly when the failed calls of both rounds streamed nothing |
| `RouteDecided.TurnIs` | internal/router/router.go:149-196 | The whole decision for every state, request and luck: on what verdict the request is routed, and a second round on the judge's exactly when nobody said whether to judge, the cache knows nothing, the route is weak, and the first round timed out unanswered |
| `RouteDecided.AnswerKnows` | internal/semantic/cache.go:48-90 | What the cache answers for a request, in ages, counts and shares of the entry |
| `RouteDecided.ConfidenceTold` | internal/semantic/cache.go:134-144 | The confidence told is the share of the more frequent route, and zero where the cache has nothing to go by |
| `RouteDecided.CachedStrongDecides` | internal/router/router.go:153-168 | With a cached strong the result is strong exactly when a cycle is seen or 0.95, in strict mode 0.80, reaches the threshold |
| `RouteDecided.CachedWeakDecides` | internal/router/router.go:157-168 | With a cached weak exactly when a cycle is seen or, outside strict mode, the threshold is at zero |
| `RouteDecided.JudgeDecides` | internal/router/router.go:162-168 | With nothing cached and a judge asked for, its score, less 0.15 in strict mode, and there only with high impact, has to reach the threshold |
| `RouteDecided.NobodyDecides` | internal/router/router.go:149-191 | Without a judge a request is strong only by a cycle, by a threshold at zero, or by the judge's verdict after the timeout |
| `RouteDecided.RouteMemoryAgrees` | internal/router/router.go:151-168 | The one-entry model of the cache feedback decides as the router does |
| `RouteDecided.CycleIs` | internal/cycle/detector.go:27-35 | A cycle is seen exactly when detection is on and the hash of prompt and last response is near enough to a remembered one |
| `RouterCalls.PlannedCall` | internal/router/router.go:435-514 | No call is ever planned outside the tier of the route, to a model that is disabled, taken out by an operator or without room at 0.95 of a limit, or with a key its instances do not offer |
| `RouterCalls.CallsHeard` | internal/router/router.go:441-477 | Calls are made in the order of the plan, up to the first answer |
| `RouterCalls.RoundEnds` | internal/router/router.go:435-478 | What comes of a round: the last call's answer with its model, content, cost and tokens, the last error, no active model, or nobody to call |
| `RouterCalls.ModelIsCalled` | internal/router/router.go:441-471 | A model of the tier that is enabled, active and has room is called with every key its instances offer unless a call planned before is answered |
| `RouterCalls.AnswerIsRoutable` | internal/router/router.go:480-514 | An answer comes from an enabled, active model of the tier of the route that had room |
| `RequestBooked.RequestIs` | internal/router/router.go:136-224 | Row and result of any request: refused exactly without 5.0 left, 5.0 kept when nobody answered, and otherwise settled, with which failure in which case |
| `RequestBooked.AnswerCosts` | internal/router/router.go:211-224 | An answer costs what the answering call reported, zero if that is negative: that is told, booked up to 0.0001 with the kill switch and exactly without, and the session cost told is the one on the row |
| `RequestTaught.LimiterLearns` | internal/router/router.go:298 | An answer is one record of its model with the tokens its reply reported, and nothing else is recorded |
| `RequestTaught.ControllerLearns` | internal/router/router.go:225-240 | A settled request adds its route to the window and moves the threshold by the counts of the new window, exactly with dynamic thresholds |
| `RequestTaught.CacheLearns` | internal/router/router.go:125-297 | The cache is asked, and told of an answer that no cycle forced, under the key for logs: route, model, judge, booked cost, tokens, latency and time |
| `RequestTaught.NoteIs` | internal/semantic/persistent_cache.go:70-100 | One recording: every counter and total of the entry, its row with the first-seen time kept, and nothing for an entry that is too old at once |
| `RequestTaught.LoadIs` | internal/semantic/persistent_cache.go:25-54 | The first use puts the rows of the table on top of what is in memory, column by column |
| `RequestTaught.DetectorLearns` | internal/router/router.go:144-210 | The session's own detector remembers the pair, nothing for an empty answer, and forgets the last response on a failure; another session's stays exactly while fewer than maxSessions distinct sessions have been used since |
| `RouterLimits.AnswersWithinLimits` | internal/router/router.go:101-326 | In any run of requests one after the other no closed minute or day holds more answers of a model than 0.95 times its limit |
| `RouterLimits.TokensWithinLimits` | internal/router/router.go:101-326 | And without its newest record fewer tokens than that, when no negative counts are reported |
| `SmallSetup.Valid` | internal/config/sentinel.go:136-222 | The configuration of the concrete runs is well-formed |
| `StreamedTwice.TimedOutText` | internal/router/router.go:101-326 | The first request of a new router with default settings: the weak call streams, times out and is called again with success; the request is answered with the second text and the caller is sent both |
| `RestartChangesRoute.RestartTurnsRoute` | internal/router/router.go:125-297 | Five requests of a new router whose last goes strong, and weak if the cache is restarted before the fourth |
| `Router.Router.constructor` | internal/router/router.go:80-99 | A new router is sound and in the starting state: no memory but the two tables |
| `Router.OptionsTaken` | internal/router/router.go:80-99 | Switches, limit and positive numbers are taken as given, others are 0.05, 20, 0.7, 3, 0.75, seven days, 3 and 50, for at most 1000 sessions |
| `Router.Router.PlayTurn` | internal/router/router.go:166-196 | Deciding, calling and the judge after a conditional timeout, on the component objects, and all the text the caller was sent |
| `Router.Router.Route` | internal/router/router.go:101-326 | Undisturbed, the request method changes the components and answers exactly as the step function on the combined state says; disturbed, the components stay sound |

## Left out

- Rounding of float64: money, scores, rates and thresholds are reals.
- SQLite itself: each statement is an atomic step on rows; time encoding and driver errors are not modelled, except a failing settlement, a failing read-back and a failing audit insert.
- `Router.Router.Route`: exact only when no other request touches the session table meanwhile; overlapping requests are the subject of `BudgetProtocol` and `RateLimiter.ConcurrentRateBound`. It does not promise that limiter windows added during a request are new objects.
- `Router.Router.PlayTurn`: the judge's verdict is a parameter; `JudgeHealth` models how one is obtained, and the heuristic that scores a prompt by keywords is not modelled.
- `RestartedRuns.RestartsGoUnnoticed`: restarts the cache alone; a restarted process also loses rate-limit windows, cycle detectors and the threshold.
- `JudgeRuns.RunAdmitted`: evaluations one after the other; evaluations that overlap, of which several may pass a circuit that has just closed, are not modelled.
- `RouterLimits.TokensWithinLimits`: for replies without a negative token count, as `TokenBound.ConcurrentTokenBound`.
- `TokenBound.ConcurrentTokenBound`: for records without a negative token count; a provider that reported one would make room for more.
- `OverlappingDecisions.OverlappingModeEnds`: each of the controller's methods is one step; a request that fails after its decision was made drops out without adding it.
- Provider calls, their retries inside a client, timeouts and latency: a call is an arbitrary reply; the stream reader of OpenAI-compatible providers is the one client loop modelled.
- Redaction: a request carries the prompt after redaction and the cache keys before and after log redaction; the patterns are not modelled.
- Turning text into tokens, the token hash, the SHA-256 of cache keys and JSON: functions given as parameters.
- Unicode: case mapping and trimming cover ASCII only, and streams are read byte by byte.
- Slices that share their storage: logs, windows and hash histories are sequences, so aliasing of a slice with its former self is not modelled.
- The Go sort library: `LegacyConfig.SortLegacy` inserts one by one; only the comparison is the program's.
- Changing settings or configuration during a run (`UpdatePolicy`, configuration reload, model status changes): fixed within a run; raising the TTL can revive expired cache rows.
- Metrics, audit tables, reason texts, runtime statistics of models, string masking and environment loading: easy or cosmetic.
- HTTP handlers, the dashboard, CORS, administration and start-up: input, output and user interface.
