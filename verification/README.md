# TokenGuard: the token-budget ledger, verified

TokenGuard is a proxy in front of LLM providers. Before it forwards a request it reserves an
estimated number of tokens on a budget bucket in Redis; when the response has been read it settles
the reservation at the tokens actually used, or releases it when the upstream failed. Four Lua
scripts make each of these steps atomic.

This project models that system in Dafny and proves what it promises.

- **Ledger** (`Ledger`, `Conservation`, `HoldLifecycle`): the scripts as atomic steps on balances
  and holds, with exact integers. A run is any sequence of steps, hence any interleaving of any
  number of requests, an administrator, and holds that expire.
- **Scripts as they compute** (`LuaNumber`, `LuaScripts`, `ScriptLimits`, `Keys`, `Redis`): the same steps
  with every number going through an IEEE double and Redis refusing to leave the 64-bit range; a class
  that executes the scripts statement by statement on one string-keyed database and refines them; a
  proof that the doubles are exact as long as the volume of a bucket stays below 2^53; and what becomes
  of negative numbers and of those next to 2^63.
- **Requests** (`Estimate`, `Protocol`, `ProtocolInvariant`, `RequestCharges`, `ProtocolTheorems`,
  `LogEntries`, `ProtocolNumbers`, `Proxy`, `Retry`): the life of every request (pre-check, denial or forwarding,
  response, body, settlement attempts, release) as a state machine in which each call to Redis is not applied, applied and acknowledged, or applied
  with the reply lost or late. The handler's methods are proved against it, and what a run of it sends
  for one request is proved to be what the retry loop sends.
- **Streams** (`Text`, `Sse`, `SseParser`, `SseRoundTrip`, `BodyTap`): the incremental event-stream parser
  and the body wrappers that decide the settled amount.
- **Rate limiter** (`RateLimiter`), **usage log** (`UsageStore`), **organisations and provisioning**
  (`OrgStore`, `Provision`).
- `MapSum` and `Wrappers` hold sums over maps and sequences, and `Option`.

The layers meet in three places: `Redis` methods equal `LuaScripts.LuaStep`, `LuaMatchesLedger`
carries that to `Ledger.Step`, and `ScriptsRunTheProtocol` to the state machine of requests.

## Where the code and its documentation differ

The model follows the code.

- A hold that expires is not refunded (`internal/budget/lua/reserve_budget.lua:18` only sets the key's
  time to live), although `ARCHITECTURE.md:73` and `ARCHITECTURE.md:361` say it is. It is modelled as a
  forfeit, and the conservation law has a term for it.
- Settlement may take a balance below zero (`internal/budget/lua/settle_budget.lua:13-14`); the debt
  bound says by how much.
- A status below 400 other than 200 neither settles nor releases (`internal/proxy/handler.go:226-275`).
- A client that disconnects is settled at the reserved amount even when usage was already seen
  (`internal/proxy/stream_tap.go:40-43`), although `ARCHITECTURE.md:177` says "if usage not yet received".
- After failing open the carried reserved amount is 0 even if the hold was made
  (`internal/proxy/enforcement.go:65`), so a stream without usage is then settled at 0.
- `[DONE]` is emitted ahead of data still pending (`internal/usage/sse/parser.go:64-66`).
- A reservation time to live below one second makes the script's EXPIRE delete the hold at once.

## What does not hold in general

Each of these comes with the exact condition under which it does hold.

- A balance can go below zero without any settlement, if an estimate is negative: through a negative
  default estimate or buffer, or through max_tokens plus a large buffer that overflows int64. On exact
  integers `DebtBoundExactly`; in the scripts `ScriptDebtBoundExactly`, where the most negative estimates
  do no harm because DECRBY refuses them. Every overflow is of that kind while the buffer is at most 513
  (`OverflowIsRefused`), as the default of 512 is (`internal/config/config.go:108`).
- Tokens can appear from nothing, if an estimate or a reported usage is negative (`SupplyBoundExactly`,
  and for the scripts `NegativeUsageInScripts`).
- The scripts compute the exact integers only while the volume of a bucket stays below 2^53
  (`VolumeLimitIsTight`).
- Two organisations can share a budget key, if the name of one continues the other's past a colon
  (`BudgetKeyCollision`).
- The usage log can exceed what the ledger charged: without failures, in shadow mode only
  (`LogAgreesUnlessShadow`); with failures in enforce mode as well, when a request fails open and is
  settled without a hold (`UnheldIsLoggedUncharged`). `LogGap` says by how much in every run.
- The rate limiter can admit more than its limit, if clock readings go backwards (`BoundWithoutClock`).

## Assumptions

- Request ids in the state machine of requests are distinct: a repeated id is not a new request
  there. The ledger theorems, and the handler's ServeHTTP, have no such assumption.
- `OrgStore` and `Provision`: minted organisation ids and key hashes are new.
- `RateLimiter`: the theorems about the window need clock readings that do not go backwards in the
  order the lock is taken, for the key in question; `BoundWithoutClock` says for
  which limiters they need not.
- With enforcement off there is nothing to release or settle with, as `cmd/proxy/main.go:80-84` sets the
  handler up; with enforcement on there is.
- A Go string or byte slice is a Dafny `string`, one character per byte. Trimming and lower-casing are
  those of ASCII.

## Model

| member | source | states |
|---|---|---|
| Conservation.TokensConserved | internal/budget/lua/settle_budget.lua:4-20 | in every run and bucket: start + net credits = balance + live holds + settled usage + expired holds |
| Conservation.DebtBound | internal/budget/lua/settle_budget.lua:11-17 | with non-negative estimates and sets every reachable balance is at least minus the overruns so far |
| Conservation.NeverNegative | internal/budget/lua/reserve_budget.lua:14-20 | if no settlement exceeds its hold no reachable balance is negative |
| Conservation.NegativeEstimateBreaksDebtBound | internal/budget/lua/reserve_budget.lua:14-19 | on exact integers, for every negative estimate a run that ends in that debt without any overrun |
| Conservation.DebtBoundExactly | internal/budget/lua/reserve_budget.lua:14-20 | on exact integers the debt bound holds for all runs drawing on a set of estimates iff none of them is negative, whatever the usages |
| Conservation.SupplyBound | internal/budget/lua/set_budget.lua:5-16 | without negative inputs live holds, and balance plus live holds, never exceed what was ever set or topped up |
| Conservation.NegativeUsageBreaksSupplyBound | internal/budget/lua/settle_budget.lua:11-17 | on exact integers, for every negative usage a run that leaves more on a bucket than was ever put there |
| Conservation.SupplyBoundExactly | internal/budget/lua/settle_budget.lua:11-19 | on exact integers the supply bound holds for all runs drawing on sets of estimates and usages iff neither has a negative one, or there are no estimates |
| HoldLifecycle.ReserveReplyTellsTheHold | internal/budget/lua/reserve_budget.lua:7-22 | granted iff a hold of the id is there afterwards; the reply tells its amount and bucket balance; a refusal changes nothing and means the balance is too small |
| HoldLifecycle.AdminReplyTellsBalance | internal/budget/lua/set_budget.lua:5-16 | a set leaves its value, a topup adds a positive amount and is refused otherwise; the reply tells the new balance and nothing else changes |
| HoldLifecycle.RemovedAtMostOnce | internal/budget/lua/settle_budget.lua:4-19 | along every run creations and removals of one id's hold balance, so no hold is removed twice |
| HoldLifecycle.FinishTouchesOnlyItsBucket | internal/budget/lua/release_budget.lua:4-14 | settle, release and expiry change only the bucket the hold was taken from, by the refund less the usage, and tell the change; on a missing hold they do nothing |
| HoldLifecycle.HoldPersists | internal/budget/lua/reserve_budget.lua:7-12 | a hold stays as created until something ends it, whatever else runs |
| HoldLifecycle.RepeatReserveIsIdempotent | internal/budget/lua/reserve_budget.lua:7-12 | while a hold lives every reserve of its id, for any bucket or estimate, returns the original amount and changes nothing |
| HoldLifecycle.FirstFinishWins | internal/budget/lua/settle_budget.lua:4-6 | under any interleaving only the first step that ends an id counts, unless the id is reserved again |
| HoldLifecycle.FirstFinishOnlyExactly | internal/budget/lua/settle_budget.lua:4-6 | what counts of a run is the first step that ends the id and all other steps in their order |
| HoldLifecycle.SharedHoldSettledOnce | internal/budget/lua/reserve_budget.lua:7-12 | requests that share an id, of whatever organisations, are settled at most once between them while no new hold is created, on the bucket of the first |
| HoldLifecycle.OneSettlementPerHold | internal/budget/lua/settle_budget.lua:4-19 | over every run an id is settled at most as often as a hold was created for it |
| HoldLifecycle.IndependentStepsCommute | internal/budget/lua/settle_budget.lua:11-19 | settle, release, expiry and topup steps for different requests commute |
| HoldLifecycle.FinishOrderIrrelevant | internal/budget/lua/release_budget.lua:12-13 | two orders of the same such steps over different requests end in the same ledger |
| LuaNumber.DoubleIsNearest | internal/budget/lua/reserve_budget.lua:3-3 | tonumber of an integer beyond 2^53 is a multiple of the spacing of doubles there, the nearest, and of two equally near the even one |
| LuaScripts.LuaStepExact | internal/budget/lua/settle_budget.lua:9-17 | on numbers below 2^53 a script step and its reply are the exact ones |
| LuaScripts.LuaMatchesLedger | internal/budget/lua/reserve_budget.lua:14-19 | if supply plus overruns of each bucket stay below 2^53 every run of the scripts on doubles has the exact states and replies |
| LuaScripts.LuaGrantsTooMuchAtLimit | internal/budget/lua/reserve_budget.lua:14-16 | at volume 2^53 the scripts grant a reserve that the exact ledger refuses |
| LuaScripts.VolumeLimitIsTight | internal/budget/lua/reserve_budget.lua:3-19 | all runs of volume below a limit are exact iff the limit is at most 2^53 |
| ScriptLimits.RefusedReserve | internal/budget/lua/reserve_budget.lua:14-16 | a reserve whose estimate rounds to -2^63 or below aborts or is answered by a hold, and changes nothing |
| ScriptLimits.AbortChangesNothing | internal/budget/lua/settle_budget.lua:13-19 | a script that aborts has changed nothing, and it aborts only where a stored value, argument or result is outside 64 bits, or on a topup that is not positive |
| ScriptLimits.NegativeEstimateInScripts | internal/budget/lua/reserve_budget.lua:14-19 | in the scripts every negative estimate that is not refused leaves the debt it rounds to, without a settlement |
| ScriptLimits.NegativeUsageInScripts | internal/budget/lua/settle_budget.lua:9-17 | in the scripts a settlement at a negative usage gives back more than was held unless INCRBY refuses it |
| ScriptLimits.ScriptDebtBoundExactly | internal/budget/lua/reserve_budget.lua:14-20 | below volume 2^53 the debt bound holds for all script runs drawing on a set of estimates iff every negative one is refused |
| Keys.ParseScopedBucket | internal/budget/client.go:118-125 | the scanning loop returns the split at the first colon |
| Keys.ParseInvertsScope | internal/budget/client.go:108-125 | parsing a scoped id gives back (organisation or default, bucket) iff the organisation has no colon |
| Keys.ScopeInvertsParse | internal/budget/client.go:118-125 | a stored id equals the scope of its parts iff a colon follows a non-empty part; the parts are those around the first colon, or "default" and the whole |
| Keys.ScopedRebuildsBudgetKey | internal/budget/client.go:99-113 | "budget:" before the stored id is the key the client computed |
| Keys.KeyNames | internal/budget/client.go:99-115 | the key names in full, with "default" for no organisation |
| Keys.BudgetKeyInjective | internal/budget/client.go:99-104 | pairs share a budget key only if they are the same, unless one organisation continues the other past a colon |
| Keys.BudgetKeyCollision | internal/budget/client.go:99-104 | two organisations have named buckets with the same key iff one continues the other past a colon, so never without a colon |
| Keys.KeyspacesDisjoint | internal/budget/client.go:115-115 | no budget key is a reservation key |
| Redis.Redis.ReserveBudget | internal/budget/lua/reserve_budget.lua:1-22 | the statements of the script on the string-keyed database refine the typed step, with a non-positive time to live deleting the hold |
| Redis.ReserveForExactly | internal/budget/lua/reserve_budget.lua:14-19 | with a positive time to live a reserve is exactly the script's step; with any other the reply and balances are the same and no new hold is left |
| Redis.ReserveForIsExact | internal/budget/lua/reserve_budget.lua:3-22 | on numbers below 2^53 it is the exact step of the ledger |
| Redis.Redis.SettleBudget | internal/budget/lua/settle_budget.lua:1-20 | likewise for settlement, including the abort when argument, stored value or result is outside 64 bits |
| Redis.Redis.ReleaseBudget | internal/budget/lua/release_budget.lua:1-14 | likewise for release |
| Redis.Redis.Set | internal/budget/lua/set_budget.lua:5-10 | likewise for op set |
| Redis.Redis.TopupBudget | internal/budget/lua/set_budget.lua:11-16 | likewise for op topup, refusing amounts that are not positive |
| Redis.BudgetChecker.Reserve | internal/budget/checker.go:21-62 | nothing is sent without bucket or request id; otherwise an error fails, a granted reply is passed on with its amount, a refused one with none, and the two are counted |
| Estimate.EstimateNonNegative | internal/budget/estimate.go:19-37 | for all settings, an estimate is non-negative iff max_tokens plus buffer is and fits int64, or the default is where it is used; an overflowing one is negative |
| Estimate.EstimateCases | internal/budget/estimate.go:19-37 | undecodable bodies and those that ask for no positive number get the default; others that number plus the buffer if it fits |
| ProtocolInvariant.ReachableInv | internal/proxy/handler.go:134-278 | in every reachable state the ledger is that of the steps sent, holds are those of open requests, and charged and logged sums are sums over requests |
| RequestCharges.ArrivalDecides | internal/proxy/enforcement.go:49-82 | over whole runs: a request is turned away iff enforce mode got a refusal in time; it fails open iff enforcement is on and no answer came in time or no bucket is named; it carries its estimate iff that is known to be reserved |
| RequestCharges.RepeatedIdSharesHold | internal/budget/client.go:115-115 | a request under an id whose hold is live takes nothing and is admitted on that hold, carrying its amount |
| RequestCharges.ResponseDecides | internal/proxy/handler.go:226-275 | over whole runs the first answer decides: 200 with a wrapper settles, an error releases, any other answer does neither |
| RequestCharges.FailOpenAccounting | internal/proxy/handler.go:167-207 | over whole runs a request is charged what its first applied settlement says if its reservation took effect and did not expire before, and otherwise 0, whatever the proxy learned |
| RequestCharges.AppliedAttemptSettles | internal/proxy/settle_retry.go:23-44 | an attempt applied before expiry counts, whether or not it is ever acknowledged |
| RequestCharges.NoAppliedAttempt | internal/proxy/settle_retry.go:23-44 | without an applied attempt a request that was not charged before is charged 0 |
| RequestCharges.StreamedRequestCharge | internal/proxy/stream_tap.go:39-96 | from bytes to ledger: a stream read in any chunks is charged, once an attempt is applied in time, the total of the event after which none carries usage, else the estimate, else 0 after failing open |
| RequestCharges.PassedHoldStays | internal/proxy/handler.go:241-277 | the hold of any other answer stays, uncharged, until it expires |
| RequestCharges.RunIsRetry | internal/proxy/settle_retry.go:23-51 | the steps of a run from the end of a body on are those of the retry loop with everybody else in between, at most three attempts, whose deliveries decide how the request ends, given up only after three |
| RequestCharges.RunSettlesOnce | internal/proxy/settle_retry.go:23-44 | so over every run the ledger ends as if that request was settled once or never |
| ProtocolNumbers.ScriptsRunTheProtocol | internal/budget/checker.go:37-45 | on request bodies whose estimate is not negative, non-negative usage and volume below 2^53 the scripts on doubles are in the state of the protocol's ledger after every run, with the same replies |
| ProtocolNumbers.ProtocolBounds | internal/budget/estimate.go:32-36 | on such inputs the debt and supply bounds hold for every run of requests |
| ProtocolNumbers.NegativeEstimateLeavesDebt | internal/budget/estimate.go:32-36 | for every body with a negative estimate the steps the proxy sends leave the debt it rounds to in the scripts, without a settlement, unless DECRBY refuses it |
| ProtocolNumbers.OverflowIsRefused | internal/budget/estimate.go:36-36 | every estimate that overflows int64 is refused by the script iff the buffer is at most 513 |
| ProtocolNumbers.OverflowAborts | internal/budget/lua/reserve_budget.lua:14-16 | so under such a buffer the reservation of a request whose max_tokens overflows aborts and takes nothing, on every ledger without a hold of its id |
| ProtocolTheorems.LogGap | internal/proxy/settle_retry.go:58-80 | in every run log and ledger differ by what requests were logged but not charged, or charged but not logged |
| ProtocolTheorems.ReliableLogGap | internal/proxy/enforcement.go:77-81 | without failures, in every mode, the log exceeds the ledger by the usage of requests whose reservation was refused |
| ProtocolTheorems.LogAgreesWithLedger | internal/proxy/settle_retry.go:58-80 | in enforce mode without failures logged usage equals charged usage on every bucket at every moment; requests without a bucket, and expiry of holds that nobody settles, are included |
| ProtocolTheorems.LogAgreesUnlessShadow | internal/proxy/enforcement.go:77-81 | without failures log and ledger agree in all runs of a mode iff it is not shadow |
| ProtocolTheorems.LogAgreesExactly | internal/proxy/enforcement.go:77-81 | in any mode they agree iff requests settled after a refusal used nothing |
| ProtocolTheorems.UnheldIsLoggedUncharged | internal/proxy/enforcement.go:59-81 | for every usage a request that went on without a hold, refused in shadow mode or its reservation lost in any, is logged at its usage and charged nothing |
| ProtocolTheorems.LogByPair | internal/proxy/settle_retry.go:66-74 | the scoped sum of the log is the sum over (organisation, bucket) unless organisations clash |
| ProtocolTheorems.BalanceAccount | internal/proxy/handler.go:134-278 | in every reachable state of every mode a balance with its holds is credits less charges less expired holds, request by request |
| ProtocolTheorems.BalancesAtRest | internal/proxy/handler.go:226-275 | at rest, without failures, in every mode, no hold is left and every balance is credits less settled usage that was covered, less the expired holds of requests answered with neither 200 nor an error |
| ProtocolTheorems.InterleavingIrrelevant | internal/proxy/handler.go:134-278 | two runs without sets, in any modes and with any failures, that saw the same requests, fates of holds and topups are in the same ledger |
| ProtocolTheorems.OutcomesDecide | internal/proxy/handler.go:226-275 | without failures and at rest the same outcomes and topups are enough, in every mode |
| ProtocolTheorems.AdminDecides | internal/admin/handler.go:167-197 | an admin balance is taken iff not negative and replaces the old one, an amount iff positive and is added; nothing else changes |
| LogEntries.OneEntryPerEndedRequest | internal/proxy/settle_retry.go:58-80 | in every run, whatever fails, the log holds exactly one entry for each request settled or released with acknowledgement, with its organisation, bucket, reserved and actual amounts, and nothing else |
| LogEntries.LoopLogsAsProtocol | internal/proxy/settle_retry.go:66-74 | the entry of the retry loop is that of the protocol, field by field |
| Proxy.Handler.ServeHTTP | internal/proxy/handler.go:134-216 | is the arrival step of the state machine for a new id; for any id forwards iff not denied, carries what is reserved, counts fail-open, and sends the reservation |
| Proxy.Handler.RunPreCheck | internal/proxy/enforcement.go:49-82 | sends the reservation iff enforcement is on and returns the pre-check decision |
| Proxy.Handler.ModifyResponse | internal/proxy/handler.go:218-278 | is the response step: release, read for settlement, or neither |
| Proxy.Handler.ErrorHandler | internal/proxy/handler.go:325-348 | is the response step for a transport error |
| Proxy.Handler.ReleaseHold | internal/proxy/handler.go:280-305 | one release, logged at no usage when acknowledged |
| Retry.RetryChargesOnce | internal/proxy/settle_retry.go:23-44 | however attempts are delivered and whatever others do between them, expiry included, unless the id is reserved again: the ledger ends as if settled once, at the first applied attempt, or as if never; charged iff that attempt found the hold |
| Retry.RetryChargesAllOrNothing | internal/proxy/settle_retry.go:23-44 | if nobody else settles the request it is charged its usage once or not at all |
| Retry.DeliveriesDecide | internal/proxy/settle_retry.go:23-44 | success is an acknowledgement among the attempts, failures are those before the first, applied includes lost replies |
| Retry.Settler.SettleWithRetry | internal/proxy/settle_retry.go:11-51 | the loop performs exactly the specified steps, counts success at most once, retries as failures of the first two attempts, logs the actual and reserved amounts iff acknowledged, and does nothing without a request id |
| Sse.FeedConcat | internal/usage/sse/parser.go:14-19 | feeding a then b gives the events and state of feeding a + b, for every split |
| Sse.FeedAnyChunking | internal/usage/sse/parser.go:14-53 | every chunking of a text gives the events and state of the whole text |
| Sse.EventsOfIsOneShot | internal/usage/sse/parser.go:14-53 | the events of a stream with its flushed tail are those of the line processor over the lines of the whole text |
| Text.JoinSplit | internal/usage/sse/parser.go:36-43 | splitting at line feeds loses no byte |
| Text.TrimCRExactly | internal/usage/sse/parser.go:40-40 | one trailing carriage return goes and nothing else |
| Text.TrimSpaceExactly | internal/usage/sse/parser.go:63-63 | only space is trimmed, on both sides, and all of it |
| SseParser.Parser.DrainLines | internal/usage/sse/parser.go:32-53 | the draining loop is the left fold of the line processor over the LF-split buffer and leaves an LF-free remainder |
| SseParser.Parser.Feed | internal/usage/sse/parser.go:14-19 | the object's state and events after a chunk |
| SseParser.Parser.Flush | internal/usage/sse/parser.go:21-30 | has the events and final state of feeding two line feeds |
| SseParser.Parser.ProcessLine | internal/usage/sse/parser.go:55-70 | blank, comment, data, end marker and other fields |
| SseRoundTrip.EventRoundTrip | internal/usage/sse/parser.go:55-79 | one event survives printing and parsing iff each line of its data is trimmed and not the end marker |
| SseRoundTrip.NoBlankNeeded | internal/usage/sse/parser.go:62-63 | a data line means the same with and without a blank after the colon |
| SseRoundTrip.RoundTrip | internal/usage/sse/parser.go:14-79 | such events, printed with noise lines anywhere, LF or CRLF, cut into any chunks, come back in order |
| SseRoundTrip.ParsedEventsRoundTrip | internal/usage/sse/parser.go:55-79 | whatever a stream holds, its parsed events survive printing and parsing |
| SseRoundTrip.DoneOvertakesPendingData | internal/usage/sse/parser.go:64-66 | the end marker, however padded, comes out ahead of any pending data |
| BodyTap.StreamTap.Read | internal/proxy/stream_tap.go:39-53 | forwards exactly the upstream bytes and takes the specified step |
| BodyTap.StreamTap.FinishAfterStream | internal/proxy/stream_tap.go:74-90 | fires once, flushing the parser and settling at the last usage or the reserved amount |
| BodyTap.TapSettlesOnce | internal/proxy/stream_tap.go:39-100 | for every series of calls: no settlement until a call ends the body, then exactly the one its bytes determine |
| BodyTap.LastUsageExactly | internal/proxy/stream_tap.go:61-71 | the usage kept is the total of an event after which none carries usage; there is none iff no event carries any |
| BodyTap.StreamAmountIgnoresChunking | internal/proxy/stream_tap.go:45-52 | an uncancelled stream settles once, whatever follows: at the total of its last usage-bearing event if there is one, else at the reserved amount, however it was cut |
| BodyTap.ClosedStreamSettles | internal/proxy/stream_tap.go:55-59 | a stream closed before its end settles likewise at what was read |
| BodyTap.MissingIsCountedByTap | internal/proxy/stream_tap.go:81-89 | missing usages are counted as often as bodies are settled for want of it |
| BodyTap.CancelForgetsUsage | internal/proxy/stream_tap.go:40-43 | a cancelled Read settles at reserved even after usage was seen |
| BodyTap.SettlingReader.Read | internal/proxy/settling_reader.go:44-58 | forwards the bytes, buffers them and takes the specified step |
| BodyTap.ReaderSettlesOnce | internal/proxy/settling_reader.go:44-92 | the JSON wrapper settles at most once, at the usage of the whole buffered body or the reserved amount |
| BodyTap.JsonAmountIgnoresChunking | internal/proxy/settling_reader.go:44-79 | however it is cut, a JSON body settles once at the usage of the whole, or at the reserved amount |
| RateLimiter.RateLimiter.Compact | internal/admin/handler.go:442-450 | in-place compaction equals filtering to times after the cutoff, in order |
| RateLimiter.AfterExactly | internal/admin/handler.go:444-449 | the filter keeps every occurrence of a time after the cutoff and none of any other |
| RateLimiter.RateLimiter.Allow | internal/admin/handler.go:435-458 | admits iff fewer than limit times are kept, records accordingly, leaves every other key alone |
| RateLimiter.StoredIsWindow | internal/admin/handler.go:442-457 | after a call the stored times are exactly the admitted times in the window |
| RateLimiter.RefusedExactlyWhenFull | internal/admin/handler.go:452-455 | refused iff at least limit admitted calls of the key lie in the window that ends with the call |
| RateLimiter.SlidingWindowBound | internal/admin/handler.go:435-458 | no window of any run, wherever it ends, holds more than limit admitted calls of a key |
| RateLimiter.StaleReadingBreaksBound | internal/admin/handler.go:436-440 | for every limit above one and every window a run with one stale reading that admits limit plus one calls in a window |
| RateLimiter.BoundWithoutClock | internal/admin/handler.go:427-458 | without anything known of the clock the bound holds in all runs iff the limit is at most one or the window empty |
| UsageStore.MemoryUsageStore.InsertUsage | internal/store/memory.go:20-34 | appends under the next id, on the default organisation if none is named, every other field as given |
| UsageStore.MemoryUsageStore.ListUsage | internal/store/memory.go:40-56 | the backward scan is the newest-first filtered log cut at the limit |
| UsageStore.MemoryUsageStore.ListUsageByOrg | internal/store/memory.go:58-74 | likewise by organisation |
| UsageStore.QueryNewestFirst | internal/store/memory.go:40-74 | answers match, fall strictly in id, keep the limit, and omit only older events, only when full |
| UsageStore.BucketAnswer | internal/store/memory.go:40-56 | an answer for a bucket holds only its events, at most the limit or 50, and short of that all |
| UsageStore.OrgAnswer | internal/store/memory.go:58-74 | likewise for an organisation |
| OrgStore.IndexesAgree | internal/store/memory_org.go:32-70 | in every run the email index maps e to id iff the organisation id has the non-empty email e, and every key belongs to an organisation |
| OrgStore.NormalizeExactly | internal/store/memory_org.go:36-36 | an email is trimmed, capital letters are made small, nothing else changes |
| OrgStore.FieldsAfter | internal/store/memory_org.go:89-142 | which operation writes which field of an organisation, and that nothing else does |
| OrgStore.OrgCreated | internal/store/memory_org.go:32-59 | an organisation appears only by being created, on trial, unless its email has one |
| OrgStore.KeysAndBucketsAfter | internal/store/memory_org.go:144-168 | a key appears only by being minted for an existing organisation and stays as it is; a bucket only by being registered |
| OrgStore.MintedExactly | internal/store/org.go:73-85 | a key keeps its first eleven characters readable and the rest as a hash |
| OrgStore.OneOrgPerEmail | internal/store/memory_org.go:36-41 | two organisations never share a non-empty email |
| OrgStore.LookupExactly | internal/store/memory_org.go:170-196 | a well-formed key is accepted iff its hash is stored, and for the organisation it was minted for |
| OrgStore.MalformedKeyIsInvalid | internal/store/memory_org.go:171-173 | a key without "tg_" or shorter than four is invalid |
| OrgStore.UnusableKeyIsRefused | internal/store/memory_org.go:181-187 | a revoked key is refused as such, one without its organisation as invalid |
| OrgStore.MemoryOrgStore.CreateOrgWithEmail | internal/store/memory_org.go:32-59 | returns the organisation of the email, created if there is none |
| OrgStore.MemoryOrgStore.FindOrgByEmail | internal/store/memory_org.go:61-70 | finds an organisation iff one has the non-empty normalised email |
| OrgStore.MemoryOrgStore.DowngradeBySubscription | internal/store/memory_org.go:130-142 | downgrades exactly one organisation with the subscription, whichever comes first, or none |
| OrgStore.MemoryOrgStore.CreateAPIKey | internal/store/memory_org.go:144-168 | mints a key iff the organisation exists, and the key is accepted for it |
| Provision.OneOrgHoweverInterleaved | internal/billing/provision.go:59-85 | however provisionings are replayed, interleaved or stopped midway, those of one email that have an organisation have the same one, and keys minted are accepted for it |
| Provision.UndisturbedIsProvisionSignup | internal/billing/provision.go:46-92 | a provisioning whose steps nobody disturbs makes the very store operations that ProvisionSignup is proved to make |
| Provision.SignupConfigures | internal/billing/provision.go:59-75 | after a signup the organisation of the email has its plan, customer, subscription and the default bucket, which is registered; every other organisation is as it was |
| Provision.SignupCanBeDowngraded | internal/store/memory_org.go:130-142 | cancelling the subscription of a signup finds the organisation and puts it back on trial |
| Provision.PlansAre | internal/billing/provision.go:95-103 | trial, indie or team in whatever case and padding |
| Provision.ReplayResolvesToSameOrg | internal/billing/provision.go:59-75 | a replay resolves to the first organisation, adds none and keeps the keys |
| Provision.Provisioner.ProvisionSignup | internal/billing/provision.go:46-92 | rejects exactly a missing email or session or an unknown plan, untouched; otherwise performs the named store operations, up to the point where seeding or keeping the secret fails |
| Provision.MintedKeyIsAccepted | internal/billing/provision.go:82-85 | the key minted at the end is accepted for the organisation resolved |

## Left out

- HTTP, reverse proxying, TLS, routing and header handling: an upstream is a status and a series of reads.
- JSON decoding and the provider extractors: a partial function from data to a token total; the prompt plus completion sum of `Usage.Total` is not modelled.
- go-redis, script loading, the admin listings over SCAN, and the Postgres store.
- How a Redis version prints a Lua number of 17 digits or more when it is passed to a command: the model passes all digits. It matters only beyond 2^53.
- Slack alerts, the 80% warning, latency metrics, log lines, HTML pages and configuration parsing.
- Real time: a hold expires by a step that may come at any moment, sleeps between attempts are whatever others do meanwhile, and the limiter's clock is an input.
- Failing log writes: an acknowledged settlement or release is taken to be logged.
- Stripe calls, hashing and random ids: inputs, with freshness where they are minted. The seeding of the trial balance is a success or a failure; that a replay sets the balance again is not followed into the ledger.
- Bucket registration by the request path, which no other modelled step reads.
- Retry.Settler.SettleWithRetry: runs on the exact ledger with what others do before each attempt as an input; goroutine scheduling is covered by that input, not by threads.
- Proxy.Handler.ServeHTTP: an answer after the deadline and a lost reply are one case, since both fail open with the step applied; a repeated id gets no entry of its own in the request table, so the theorems over runs of requests are about distinct ids.
