# Proxy group base: cache, weight filter and failure counter

A Dafny model of the sequential logic of `GroupBase`, the layer of a
multi-protocol proxy client that every outbound proxy group (selector,
fallback, load balancer) builds on. A group aggregates the proxies of one or
more providers, keeps one cached, name-filtered slot per provider that is
recomputed only when the provider's version changes, applies a weight filter
such as `>=15` to the concatenation, substitutes the reserved `COMPATIBLE`
proxy when there is nothing at all, and counts dial failures so that five
failures within five seconds trigger one health check of every provider.

Files:

- `types.dfy` (module `Types`): proxies (name and weight), what a call
  observes of a provider (version, whether its vehicle type is Compatible,
  its proxy list), `Option`, and `Outcome` (a value or a panic).
- `sequences.dfy` (module `Sequences`): order-preserving filtering and
  concatenation, with their lemmas (exact subsequence, membership,
  multiplicity, emptiness).
- `weight_filter.dfy` (module `WeightFilter`): the leftmost unanchored
  search for `(==|<=|!=|>=)([\d]+)`, `strconv.Atoi` with its 64-bit range,
  the specification `WeightFiltered` and the loop `FilterProxyByWeight`
  proved equal to it.
- `failure_counter.dfy` (module `FailureCounter`): the failure state
  machine as pure steps over `(failedTimes, failedTime, failedTesting)`,
  and lemmas over runs of failures.
- `group_base.dfy` (module `GroupBase`): the per-slot refresh rule, the
  assembly of the result, and the class `GroupBase` with the arrays
  `versions` and `proxies` updated in place, the failure fields, and ghost
  per-provider counters of the `Touch` and `HealthCheck` calls the group
  makes. `CacheScenario` runs the one-provider example below through the
  class.

Providers are external objects whose state changes on its own, so
`GetProxies` takes what each provider reports during that call (after its
`Touch`, when asked to touch) as a parameter, one entry per provider.
The compiled name pattern is a predicate on names supplied at construction.
The current time is a parameter of `OnDialFailed`, in milliseconds.

A worked example of the cache: one provider, pattern `^A|B$`, weight filter
`>=15`. At version 1 the provider lists A (weight 10) and B (20); the group
yields `[B]`. When the provider moves to version 2 with C (30) added, the
slot is recomputed, but C is dropped by the pattern (it neither starts with
A nor ends with B), so the group still yields `[B]`.

## Model

| member | source | states |
|---|---|---|
| `Sequences.Filter` | adapter/outboundgroup/groupbase.go:74-95 | the kept elements are no more than the input and each comes from the input and passes the test |
| `Sequences.KeptPositionsShape` | adapter/outboundgroup/groupbase.go:74-95 | there is one kept position per kept element, each inside the input, strictly increasing |
| `Sequences.KeptPositionsPick` | adapter/outboundgroup/groupbase.go:74-95 | the k-th kept element is the input element at the k-th kept position |
| `Sequences.KeptPositionsExact` | adapter/outboundgroup/groupbase.go:74-95 | a position is kept if and only if its element passes |
| `Sequences.FilterIsSubsequence` | adapter/outboundgroup/groupbase.go:74-95 | filtering yields the subsequence of the input at exactly the positions whose element passes, in increasing order |
| `Sequences.FilterMembership` | adapter/outboundgroup/groupbase.go:74-95 | an element is in the result if and only if it is in the input and passes |
| `Sequences.FilterMultiplicity` | adapter/outboundgroup/groupbase.go:74-95 | every copy of a passing element is kept and no copy of a failing one: no deduplication |
| `Sequences.FilterAllKept` | adapter/outboundgroup/groupbase.go:142-152 | when every element passes, filtering returns the input unchanged |
| `Sequences.Flatten` | adapter/outboundgroup/groupbase.go:158-161 | the concatenation begins with the first provider's list |
| `Sequences.FlattenAppend` | adapter/outboundgroup/groupbase.go:158-161 | concatenating two runs of lists concatenates their concatenations in that order: the result follows provider order |
| `Sequences.FlattenSingle` | adapter/outboundgroup/groupbase.go:158-161 | the concatenation of one list is that list |
| `Sequences.FlattenEmpty` | adapter/outboundgroup/groupbase.go:158-163 | the concatenation is empty if and only if every part is empty |
| `Sequences.FlattenMembership` | adapter/outboundgroup/groupbase.go:105-114 | a proxy is in the concatenation if and only if it is in some provider's list |
| `WeightFilter.OperatorAt` | adapter/outboundgroup/groupbase.go:65 | recognises exactly the four two-character operators `==`, `!=`, `>=`, `<=` |
| `WeightFilter.DigitRunEnd` | adapter/outboundgroup/groupbase.go:65 | the greedy digit group: every character up to the end is a digit and the next one is not |
| `WeightFilter.FindMatch` | adapter/outboundgroup/groupbase.go:65-68 | no match means the pattern matches nowhere; a match is the first position where it matches, with its operator and its whole digit run |
| `WeightFilter.FindMatchSound` | adapter/outboundgroup/groupbase.go:65-68 | what the search returns is the leftmost match in the sense of `LeftmostMatch` |
| `WeightFilter.LeftmostFromParts` | adapter/outboundgroup/groupbase.go:65-68 | a match at the first matching position, carrying its whole digit run, is the leftmost match |
| `WeightFilter.DigitRunIsGroup` | adapter/outboundgroup/groupbase.go:65 | the greedy digit run after an operator is a non-empty, maximal run of digits |
| `WeightFilter.FindMatchComplete` | adapter/outboundgroup/groupbase.go:65-68 | the leftmost match is what the search returns |
| `WeightFilter.FindMatchIsLeftmost` | adapter/outboundgroup/groupbase.go:65-68 | the search returns a match if and only if it is the leftmost one, so the captured operator and value are unique |
| `WeightFilter.Atoi` | adapter/outboundgroup/groupbase.go:69-72 | conversion succeeds with the digits' decimal value when it is at most 2^63-1 and fails only when it is larger; every literal of at most 18 digits converts, so only longer ones can panic |
| `WeightFilter.ShortLiteralInRange` | adapter/outboundgroup/groupbase.go:69-72 | a literal of at most 18 digits is within 2^63-1 |
| `WeightFilter.DecimalValueBelowPow10` | adapter/outboundgroup/groupbase.go:69 | a literal of n digits denotes a value below 10^n |
| `WeightFilter.LeadingZeroIgnored` | adapter/outboundgroup/groupbase.go:69 | a leading zero does not change a literal's value |
| `WeightFilter.AtoiIgnoresLeadingZero` | adapter/outboundgroup/groupbase.go:69-72 | a leading zero does not change what the conversion returns, error included |
| `WeightFilter.FilterProxyByWeight` | adapter/outboundgroup/groupbase.go:60-101 | the loop returns exactly `WeightFiltered`: empty text or no condition returns the input, an out-of-range value panics, otherwise the proxies whose weight satisfies the condition |
| `WeightFilter.EmptyFilterKeepsAll` | adapter/outboundgroup/groupbase.go:61-63 | an empty filter returns its input unchanged |
| `WeightFilter.NoConditionKeepsAll` | adapter/outboundgroup/groupbase.go:96-98 | a filter text containing no `<op><digits>` returns the input unchanged |
| `WeightFilter.ConditionSelects` | adapter/outboundgroup/groupbase.go:66-95 | with a leftmost condition whose value fits, the result is the subsequence of the input at exactly the positions whose weight satisfies `op val`, each copy kept, and never panics |
| `WeightFilter.PanicsOnlyOnOutOfRangeValue` | adapter/outboundgroup/groupbase.go:69-72 | the filter panics if and only if the text is non-empty and its leftmost condition's value exceeds 2^63-1; the operator switch's `default` panic is unreachable |
| `WeightFilter.ResultDrawnFromInput` | adapter/outboundgroup/groupbase.go:74-98 | every proxy in a successful result comes from the input |
| `FailureCounter.DialFailed` | adapter/outboundgroup/groupbase.go:197-236 | a failure step keeps the count in 0..4 and leaves `failedTesting` as it was; the first failure of a streak sets the count to 1 and records `now`; a later failure more than 5 s after the recorded time resets the count to 0 with no sweep; a sweep happens only when no sweep is in progress, the count reached 5 and `now` is within 5 s of the recorded time, and it resets the count |
| `FailureCounter.DialSucceeded` | adapter/outboundgroup/groupbase.go:242-246 | a success resets the count to 0 unless a sweep is in progress, and touches nothing else |
| `FailureCounter.TestingIgnoresFailures` | adapter/outboundgroup/groupbase.go:197-200 | while a sweep is in progress any number of failures change nothing and run no sweep, and a success does not reset the count |
| `FailureCounter.BurstWithinWindow` | adapter/outboundgroup/groupbase.go:206-233 | from an idle count, k < 5 failures within 5 s of the first leave count k and the first failure's time; the fifth runs exactly one sweep and resets the count to 0 |
| `FailureCounter.StaleStreakResets` | adapter/outboundgroup/groupbase.go:210-214 | four failures in the window then one more than 5 s after the first: no sweep, count reset to 0 |
| `FailureCounter.CountStaysBelowThreshold` | adapter/outboundgroup/groupbase.go:206-233 | over any run of failures the count stays within 0..4 between steps |
| `FailureCounter.SweepsBoundedByFailures` | adapter/outboundgroup/groupbase.go:217-233 | five times the number of sweeps plus the remaining count never exceeds the starting count plus the failures reported |
| `GroupBase.MatchingProxies` | adapter/outboundgroup/groupbase.go:139-147 | the name loop returns the provider's proxies whose names the pattern matches, in order |
| `GroupBase.RefreshedIsCurrent` | adapter/outboundgroup/groupbase.go:126-155 | after a lookup a slot carries the provider's current version, and holds that version's view whenever it was coherent before |
| `GroupBase.UnchangedVersionKeepsSlot` | adapter/outboundgroup/groupbase.go:132-133 | a non-Compatible provider whose version equals the cached one is not recomputed: both arrays' slot stays as it was |
| `GroupBase.RefreshedIdempotent` | adapter/outboundgroup/groupbase.go:121-156 | a second lookup of an unchanged provider changes nothing: at most one recomputation per version change |
| `GroupBase.CoherenceCarriesOver` | adapter/outboundgroup/groupbase.go:126-155 | if a provider's list is determined by its version, a coherent slot stays coherent across lookups |
| `GroupBase.FreshSlotCoherent` | adapter/outboundgroup/groupbase.go:54-55 | a fresh slot (version 0, empty) is coherent unless the provider reports version 0 with a non-empty view, and such a non-Compatible provider is not read into its slot |
| `GroupBase.CachedAgreesWithUncached` | adapter/outboundgroup/groupbase.go:104-156 | with a pattern that matches every name and coherent slots, one cached lookup concatenates to the same list as reading every provider afresh |
| `GroupBase.FallbackOnlyWhenAllEmpty` | adapter/outboundgroup/groupbase.go:115-118 | the fallback is returned when every list is empty; otherwise the result is the weight filter applied to the concatenation |
| `GroupBase.WeightFilterCanEmptyResult` | adapter/outboundgroup/groupbase.go:163-166 | the emptiness check precedes weight filtering, so a weight filter can leave an empty result with no fallback |
| `GroupBase.ResultFromProviders` | adapter/outboundgroup/groupbase.go:158-166 | every proxy in a successful lookup over non-empty lists comes from one of the providers' lists |
| `GroupBase.AtLeastFifteen` | adapter/outboundgroup/groupbase.go:84-87 | the filter `>=15` keeps weight 20 and drops weight 10 |
| `GroupBase.PatternKeepsAB` | adapter/outboundgroup/groupbase.go:142-147 | the pattern `^A|B$` keeps A and B and drops C |
| `GroupBase.AssembledScenario` | adapter/outboundgroup/groupbase.go:158-166 | a single slot holding A (10) and B (20) under `>=15` yields `[B]` |
| `GroupBase.GroupBase.constructor` | adapter/outboundgroup/groupbase.go:40-58 | the name filter is absent exactly when the pattern text is empty; every slot starts at version 0 with no proxies; the failure state starts idle |
| `GroupBase.GroupBase.GetProxies` | adapter/outboundgroup/groupbase.go:103-167 | without a name filter: slots untouched, result is the weight-filtered concatenation of the providers' lists, or the fallback when that is empty; with one: each slot becomes `Refreshed` of its old value (Compatible re-read, other recomputed only on a version change), result assembled from the slots; each provider touched once when asked |
| `GroupBase.GroupBase.OnDialFailed` | adapter/outboundgroup/groupbase.go:197-236 | the failure fields become `DialFailed` of their old values, and every provider's health check is invoked exactly once when that step sweeps, none otherwise |
| `GroupBase.GroupBase.OnDialSuccess` | adapter/outboundgroup/groupbase.go:242-246 | the failure fields become `DialSucceeded` of their old values; no provider is called |

## Left out

- `URLTest` (adapter/outboundgroup/groupbase.go:169-195): concurrent network probes under a shared mutex-guarded map; the probe is a network call.
- Concurrency: goroutines, `sync.Mutex`, `atomic.Bool`, and the compare-and-swap race on `versions` are modelled as sequential atomic steps. Run alone, the compare-and-swap at line 133 always succeeds when the versions differ. The unsynchronised write at line 244 is not modelled as a race.
- The body of the task spawned by `onDialFailed` runs as one atomic step, so `failedTesting` is false again after every step; the states where it is true are handled (every operation is a no-op or skips its reset there) but are reached only mid-sweep in the real system.
- The concurrent `HealthCheck` calls of a sweep, and `Touch`, are recorded only as per-provider invocation counts; what they do inside a provider is not part of this model.
- The regular-expression engine for the name pattern: the compiled pattern is an arbitrary predicate on names; a pattern that fails to compile (a panic in `MustCompile`) is not modelled.
- `WeightFilter.IsDigit`: the `\d` class is modelled as ASCII digits only; the regular-expression engine also matches other Unicode decimal digits, which `strconv.Atoi` then rejects with a panic.
- Time: `time.Now` and `time.Since` become an integer `now` in milliseconds; sub-millisecond differences around the 5-second window are not modelled.
- The fallback lookup `tunnel.Proxies()["COMPATIBLE"]` is a constant proxy given at construction; a registry missing that entry (which would add a nil proxy) is not modelled.
- Logging, the embedded `outbound.Base`, and the unused `failedIntervalTime` (lines 238-240).
- The branch at lines 148-152 is unreachable (it is inside the branch where a name filter exists), and so is the `default` panic at lines 92-93 (the captured operator is always one of the four); the model has neither.
- adapter/parser.go (`ParseProxy`): a dispatch over protocol constructors that are not part of this model.
