# Koshi runtime: a verified model of token accounting, enforcement, streaming settlement and injection

Koshi is a proxy that charges every LLM request against a rolling token budget, refuses requests that do not
fit, settles the charge when the upstream answers, and is put into pods by an admission webhook. This project
models that path in Dafny and proves what it does over every input, every run and every interleaving.
`dafny verify dfyconfig.toml` checks all of it.

## How it is laid out

| files | part of the system |
|---|---|
| `Ring.dfy`, `RollingWindow.dfy` | the per-second ring buffer: its value, the plain log it stands for, and the array code |
| `Account.dfy`, `AccountRuns.dfy`, `Polling.dfy`, `Tracker.dfy` | Reserve, Record and Status on one workload, whole sequential runs, and the tracker object |
| `Interleaving.dfy`, `BurstCounter.dfy`, `Admission.dfy`, `MovingClock.dfy` | Reserve and Record as steps that any number of goroutines interleave, within a second and while the clock moves |
| `SoloRuns.dfy`, `Crowding.dfy`, `Unreserved.dfy`, `Linearizability.dfy` | how the steps relate to whole operations: alone, in a crowd, in a crowd that slips through, and in every order |
| `Config.dfy`, `PolicyEngine.dfy`, `Startup.dfy` | validation, policy resolution and registration |
| `Enforce.dfy`, `Proxy.dfy`, `Handler.dfy`, `Settlement.dfy`, `Shadow.dfy` | guard, reserve, decide, forward, settle, in listener and enforcement mode, and the two side by side |
| `SseLines.dfy`, `SseUsage.dfy`, `SsePayloads.dfy`, `SseReader.dfy`, `StreamLedger.dfy` | the streaming usage extractor, and a streamed request from bytes to budget |
| `JsonPatch.dfy`, `JsonPlaces.dfy`, `Inject.dfy`, `Webhook.dfy`, `InjectEffect.dfy`, `PodRules.dfy` | the sidecar patch, what it does to a pod, and what the patched pod says |
| `Sums.dfy`, `Options.dfy` | shared helpers |

Objects that the Go code updates in place are classes (`RollingWindow`, `TrackerImpl`, `Handler`, `Config`,
`Accumulator`, `TokenExtractingReader`); each method is proved equal to a function on values, and the theorems are
about those functions. Clocks are parameters: every inner window call takes its own reading, in whole seconds, and
readings may run backwards unless a lemma says otherwise. Token counts are mathematical integers.

## Where the code and its design note part

The model follows the code. These statements of docs/design/koshi-v1-deterministic-accounting-invariants.md do not
hold of it:

- Line 62, "No upstream call occurs without successful reservation": after a denied Reserve the decider sees the
  usage with the reservation already undone, so it may still allow. For one uninterrupted Reserve `BlockingRule` says
  exactly when, and `OversizedIsForwardedUnreserved` is the family that always slips through. For interleaved Reserves,
  which can slip through although each would fit, `SomebodySlips` and `EverybodySlips` say exactly when.
- Lines 73 and 218, reservation is "a single atomic, linearizable operation": `LinearizableIffUncrowded` says exactly
  when it is, for admissions, for what the handler does, and for the totals told, `SpuriousDenial` exactly when somebody can be denied, `MutualDenial` exactly when everybody can, and
  `FittingAloneDeniedTogether` is the family where each would have been admitted alone.
- Lines 126-137, every reservation resolves to exactly one of reconciled and released, an execution failure included:
  `EndingsOfHeld` says exactly which endings make the one Record, `UnreachableIsNeverResolved` is a family of runs from
  start-up that end with none, and `SettledOnce` says exactly when the books come out right.
- Lines 81-83, the budget state never becomes negative. Read as the stored total: `TurnsNegativeExactly` says which
  call makes it negative, `NegativeExactly` when it is so after any run, and `RefundLeavesNegativeTotal` is a run that
  ends at -10 (a reader still sees 0). Read as what is left of the budget: `OverdrawsExactly` says which operation
  overdraws it, `OvershootBound` bounds by how much over any run, and `RefundOutlivesReservation` is a run without overruns that ends at twice the limit.
- Lines 174-182, degraded mode rejects: `Handler.ServeHTTP` passes requests through once a panic has latched it.
- Line 283, several `policy_refs` are rejected: `TwoRefsAccepted` accepts two, `ExtraRefAccepted` any further one that
  names a policy, and by `ResolutionIsUnique` the first is used.

## Model

| member | source | states |
|---|---|---|
| `Ring.RunRefines` | internal/budget/window.go:44-100 | Ring refinement: over every run of Add and Total, with backward clocks, full-window resets and clamps, the bucket k behind the head holds exactly what the append-only log stamped head minus k, and the cached total is the naive N-second sum plus a drift that is never negative, grows only by what a clamp lifts, and is cleared only by a full-window gap |
| `Ring.TotalMeetsNaiveSum` | internal/budget/window.go:83-100 | Total never reports less than the naive N-second sum, and exactly that sum floored at zero when nothing was clamped since the drift was last zero |
| `Ring.ExtraEvictionInvisible` | internal/budget/window.go:44-72 | an extra eviction on the way is invisible if and only if there is no drift, or it does not split a full-window gap into two partial shifts |
| `Ring.AdvanceDrift` | internal/budget/window.go:53-71 | eviction leaves the gap between cached total and buckets alone, except that a full-window reset closes it |
| `Ring.TurnsNegativeExactly` | internal/budget/window.go:64-86 | a call turns a non-negative stored total negative if and only if it is a reader's partial eviction and the buckets kept plus the drift are negative; no Add ever does |
| `Ring.NegativeExactly` | internal/budget/window.go:44-100 | after any run from a fresh window the stored total is negative if and only if the naive sum plus the drift is, which takes a negative bucket and a reader as the last caller |
| `RollingWindows.EvictedShifts` | internal/budget/window.go:64-69 | the loop of single-bucket evictions equals one shift that forgets the tail and its sum |
| `RollingWindows.RotateOne` | internal/budget/window.go:66-68 | moving the circular head and zeroing it drops the oldest bucket of the view and keeps the rest in order |
| `RollingWindows.RollingWindow.constructor` | internal/budget/window.go:31-40 | a new window is all zeros at the given second with full burst |
| `RollingWindows.RollingWindow.Advance` | internal/budget/window.go:44-72 | the in-place eviction computes the shift or reset on the view, wherever the head index is |
| `RollingWindows.RollingWindow.Add` | internal/budget/window.go:75-87 | adding in place advances, adds to the head bucket and to the total, and clamps the total at zero |
| `RollingWindows.RollingWindow.Total` | internal/budget/window.go:90-100 | advances and returns the stored total floored at zero |
| `RollingWindows.RollingWindow.ConsumeBurst` | internal/budget/window.go:108-118 | takes the tokens exactly when they are there |
| `RollingWindows.RollingWindow.ReplenishBurst` | internal/budget/window.go:121-132 | gives back up to the maximum |
| `Accounts.DenialIsNoOp` | internal/budget/tracker.go:94-128 | at one second, a reservation is denied exactly when the evicted total plus the estimate exceeds limit plus burst, and then buckets, burst and everything visible are as after eviction alone, the stored total only lifted from below zero |
| `Accounts.AdmissionTakesEstimate` | internal/budget/tracker.go:101-121 | an admitted reservation adds its estimate and takes from the burst exactly what lies above the limit |
| `Accounts.RefundUndoesReservation` | internal/budget/tracker.go:131-146 | recording minus the estimate at the same second leaves the window as if the request had not been made, and the whole account is given: the burst is made whole if and only if the overage taken is at most the room below the limit |
| `Accounts.ReserveHoldsLog` | internal/budget/tracker.go:100-127 | the additions a Reserve makes, as log entries, are what its window holds afterwards, at any clock readings |
| `AccountRuns.OvershootBound` | internal/budget/tracker.go:94-153 | over every sequential run, with any clock readings, total is at most limit plus burst in use plus positive deltas recorded plus negative bucket mass evicted, and burst stays within its bounds |
| `AccountRuns.OverdrawsExactly` | internal/budget/tracker.go:94-153 | an operation at one second takes the total above limit plus burst allowance if and only if what a Record adds, less what eviction takes out, exceeds the room left |
| `AccountRuns.NoOvershoot` | internal/budget/tracker.go:94-153 | with no overrun and no negative mass evicted, every visible total is at most limit plus burst in use |
| `AccountRuns.ReservesNeverOvershoot` | internal/budget/tracker.go:94-128 | the same for every run of reservations and polls, with no assumption about the buckets |
| `AccountRuns.RefundOutlivesReservation` | internal/budget/window.go:64-69 | the evicted mass cannot be left out: a run without overruns that ends at twice the limit |
| `AccountRuns.RefundLeavesNegativeTotal` | internal/budget/window.go:64-69 | reserve 10, refund it a second later, poll a second after that: the stored total is -10 |
| `Polling.PollsUnobservable` | internal/budget/window.go:44-72 | for a clock that does not run backwards and a run without clamps, dropping any of its polls changes no other answer |
| `Polling.AnswersAreTheTrackers` | internal/budget/tracker.go:94-185 | the answers compared are the tracker's: Reserve's reply, nothing from Record, Status's reading |
| `Polling.DroppedPollsInvisible` | internal/budget/tracker.go:174-185 | the same for one account run with and without the polls |
| `Polling.PollShowsAfterClamp` | internal/budget/window.go:83-86 | after a clamp a poll can change a later reading |
| `BurstCounter.BurstSafety` | internal/budget/window.go:108-132 | under every interleaving of the load and compare-and-swap steps, any estimates, deltas and clocks, the counter stays between zero and its maximum and equals its start less what swaps took plus what credits gave |
| `Admission.Conservation` | internal/budget/tracker.go:94-153 | within one second, under every interleaving of Reserve and Record, head bucket and total have grown by exactly what requests hold, the clamp never fired, and once quiet the denied have left no trace |
| `Admission.NoOverAdmission` | internal/budget/tracker.go:94-128 | within one second, for any number of threads and every interleaving, the starting total plus all admitted estimates is at most limit plus the burst really spent |
| `Admission.BoundedAdmission` | internal/budget/tracker.go:94-153 | with Records running too, what admitted requests hold is at most limit plus the burst allowance plus overruns |
| `Admission.LatestSawAll` | internal/budget/tracker.go:101-114 | everything admitted fits in the total that the latest admitted reader saw |
| `MovingClock.StepsRefineLog` | internal/budget/tracker.go:94-153 | under every interleaving and whatever the clock does between steps, each bucket is the sum of the threads' additions in that second, the total is their naive N-second sum plus a drift that is never negative, and what a thread added in all is what it holds |
| `MovingClock.ConcurrentOvershootBound` | internal/budget/tracker.go:94-153 | under every interleaving, any deltas and any clock, the total is at most the larger of its start and limit plus burst allowance, plus estimates in flight, overruns and negative mass evicted; once quiet nothing is in flight |
| `SoloRuns.SoloIsSequential` | internal/budget/tracker.go:94-128 | the interleaved steps, run without interruption, are the sequential Reserve at any clock readings |
| `SoloRuns.SoloRecordIsSequential` | internal/budget/tracker.go:131-153 | likewise for Record, with the credit it reports |
| `Crowding.MutualDenial` | internal/budget/tracker.go:101-127 | concurrent requests can all be denied if and only if together they exceed limit plus burst |
| `Crowding.FittingAloneDeniedTogether` | internal/budget/tracker.go:101-127 | so requests that each fit alone can all be denied |
| `Crowding.SpuriousDenial` | internal/budget/tracker.go:101-127 | some schedule denies somebody if and only if the requests together overshoot the limit and their number times that overshoot exceeds the burst allowance |
| `Crowding.CrowdedRun` | internal/budget/window.go:108-118 | a schedule that answers everyone and charges every admitted request the whole overshoot of the crowd |
| `Linearizability.LinearizableIffUncrowded` | internal/budget/tracker.go:94-128 | every complete schedule within a second gives the answers and the account of some order of whole Reserves if and only if there is at most one request, or: comparing admissions, all fit under the limit together or not even one fits under limit plus burst; comparing what the handler does with the answers, the same, the second only with the window above the limit; comparing the totals denied requests are told, all fit together; comparing every total told, never. And then every order agrees |
| `Linearizability.CrowdedIsNotSerial` | internal/budget/tracker.go:101-121 | when not all fit but one does, no order pays the burst that the crowded schedule pays |
| `Linearizability.ToldOfTheOther` | internal/budget/tracker.go:123-127 | when none fits, a schedule in which a denied request is told the total with another's estimate in it |
| `Unreserved.EverybodySlips` | internal/enforce/decider.go:29-35 | some schedule leaves every request denied with a status within the limit, so that all go upstream with nothing reserved, if and only if the window is within the limit and the requests together exceed limit plus burst |
| `Unreserved.SomebodySlips` | internal/enforce/decider.go:29-35 | some schedule lets somebody through like that if and only if the requests overshoot the limit, the burst does not pay that overshoot for all of them, and as many as it does pay for fit under the limit by themselves |
| `Unreserved.OthersSlip` | internal/budget/tracker.go:101-127 | in one such schedule those get in and all the others slip through |
| `Trackers.TrackerImpl.Register` | internal/budget/tracker.go:74-81 | a key gets a fresh account, unless it has one already |
| `Trackers.TrackerImpl.Reserve` | internal/budget/tracker.go:94-128 | one key's account becomes what the sequential Reserve makes of it, all others are untouched; an unknown key is an error and changes nothing |
| `Trackers.TrackerImpl.Record` | internal/budget/tracker.go:131-153 | likewise for Record, silently ignoring an unknown key |
| `Trackers.TrackerImpl.Status` | internal/budget/tracker.go:174-185 | reports the account after eviction, or an error for an unknown key |
| `Configs.Config.Validate` | internal/config/config.go:112-222 | returns the first failing check of a declarative list (mode, upstreams, unique valid policies, default, unique valid workloads with known references, one identity header) and none exactly when all hold; normalises the mode always and the listen address only on success |
| `Configs.CheckPolicies` | internal/config/config.go:136-149 | accepts exactly non-empty distinct IDs with positive windows and limits, and collects exactly those IDs |
| `Configs.CheckWorkloads` | internal/config/config.go:171-200 | accepts exactly distinct, identified workloads whose references all name policies |
| `Configs.CheckKeys` | internal/config/config.go:202-214 | accepts exactly when all header-mode workloads share one key, comparing with the first only |
| `Configs.ExtraRefAccepted` | internal/config/config.go:191-199 | adding a reference to a workload of an accepted configuration keeps it accepted if and only if it names a policy |
| `Configs.TwoRefsAccepted` | internal/config/config.go:112-222 | a configuration whose workload refers to two policies is accepted, in either mode |
| `PolicyEngines.ResolutionIsUnique` | internal/policy/engine.go:25-55 | an accepted configuration resolves each workload to the one policy its first reference names |
| `PolicyEngines.NewMapEngine` | internal/policy/engine.go:25-55 | the engine built by the loops assigns each workload the indexed policy of its first reference |
| `Startup.StartEnforcement` | cmd/koshi/main.go:245-270 | from an accepted configuration start-up never aborts, every window has size and limit at least one and non-negative burst, exactly the configured workloads and the default key are registered, and each has the untouched budget of its own policy: the window seconds, limit and burst of the policy its first reference names, of the default policy for `_default` |
| `Proxy.BlockingRule` | internal/proxy/proxy.go:284-342 | for one uninterrupted Reserve, with V the total visible before: blocked iff V is above the limit and burst is below V plus estimate minus limit, by kill iff tier 3 says kill_workload; forwarded without a reservation iff Reserve denies while V is within the limit |
| `Proxy.OversizedIsForwardedUnreserved` | internal/enforce/decider.go:29-35 | on an idle workload a request larger than the whole budget is forwarded with nothing reserved and nothing charged |
| `Proxy.GuardBeforeReservation` | internal/enforce/decider.go:64-77 | the guard refuses exactly when a positive guard is exceeded, and then the tracker is untouched |
| `Proxy.ReservesWhatIsAsked` | internal/proxy/proxy.go:247-284 | a request is forwarded with its max_tokens, or 4096, 8192, 2048 or 4096 by provider when it names none, never less than one unless it names a negative number; the guard stops it exactly when that exceeds a positive guard; when held, its own key's window has risen by exactly that and no other account moved |
| `Proxy.ServedUnder` | internal/proxy/proxy.go:178-234 | a request is handled under its own ID, or `_default` without one; with no policy it gets a 403 naming what was missing, and a listener lets it through and reports the same; under an override policy nobody misses one |
| `Proxy.ListenerEvents` | internal/proxy/proxy.go:262-347 | the exact events a listener reports, in order: guard, then would-kill or would-throttle by the tier 3 action, then allow |
| `Enforce.DecisionRule` | internal/enforce/decider.go:29-58 | allow exactly within the limit; kill is tier 3 exactly when configured; throttle is tier 1 and asks to come back after half the window |
| `Proxy.ShadowFidelity` | internal/proxy/proxy.go:178-367 | a listener never refuses, and its first event names the reason enforcement would refuse for if and only if the request is not one that fails on an unregistered key; past the guard both leave the same budgets |
| `Shadow.ShadowRun` | internal/proxy/proxy.go:236-552 | the same interleaved traffic, arrivals and settlements, in both modes, every key registered and no guard stepping in: the additions to the windows are the same if and only if no request that enforcement answered itself ended in a settlement in the listener, and then the budgets are the same and every prediction was right |
| `Shadow.SettlingParts` | internal/proxy/proxy.go:498-552 | settling a request that enforcement refused moves the listener's budget if and only if the delta is not zero |
| `Shadow.SettledRefusalParts` | internal/proxy/proxy.go:326-342 | the condition is needed: limit 10, 11 used, a refused request of 5 settled with a usage of 1 leaves the listener at 7, and the next request of 2 is predicted to pass and refused |
| `Shadow.PartedIsMispredicted` | internal/proxy/proxy.go:326-342 | so that run is not predicted throughout |
| `Proxy.UnregisteredExactly` | internal/proxy/proxy.go:283-296 | after start-up, a request that passes its guard fails on an unregistered key iff its ID is neither configured nor the default key |
| `Handlers.Handler.ServeHTTP` | internal/proxy/proxy.go:146-234 | the handler object does to the shared tracker, and answers, what the pipeline function says; degraded, it proxies and touches nothing; a panic in identity resolution or in proxying answers 500 and latches the degraded flag, leaving whatever was reserved |
| `Handlers.Handler.HandleWithPolicy` | internal/proxy/proxy.go:236-368 | the imperative guard, reserve, decide sequence equals the function of `ReservesWhatIsAsked`, `BlockingRule` and `ListenerEvents`, events in order |
| `Handlers.Handler.ModifyResponse` | internal/proxy/proxy.go:406-482 | the response callback records minus the estimate for a status of 500 or more, usage minus estimate for readable usage, and nothing otherwise; it wraps the stream exactly for a streaming request, extraction on, a provider it can read and no server error |
| `Settlement.ResponseRule` | internal/proxy/proxy.go:406-552 | one response turn of the run of many requests makes the same book as that callback, and the phase it leaves, from the response alone |
| `Settlement.SettledOnce` | internal/proxy/proxy.go:381-496 | over every interleaving of any number of requests: at most one Record each, none before the end, exactly one if and only if the ending is not "stands", and an ended request's additions sum to what is due iff it held its reservation (or asked for nothing); a bounced one is short by its estimate |
| `Settlement.EndingsOfHeld` | internal/proxy/proxy.go:406-552 | for a held reservation the sum is 0 after a status of 500 or more, the actual usage when parsed or extracted, and the estimate on every other ending; exactly the first two make a Record, one |
| `Settlement.UnreachableIsNeverResolved` | internal/proxy/proxy.go:381-496 | from start-up, every request that fits its budget and whose upstream cannot be reached ends with its estimate standing and no Record |
| `Settlement.WindowsAreTheLog` | internal/budget/window.go:75-87 | over every such run each bucket of each key's window is exactly the sum of the logged additions of that key and second |
| `Settlement.OpeningIsBalanced` | internal/budget/tracker.go:74-81 | the state after start-up, fresh windows and an empty log, is one these runs may start from |
| `SseLines.ChunkedLines` | internal/proxy/sse.go:81-101 | for every stream and every cut into reads: one processed line per newline, the k-th a suffix of the stream's k-th line and equal to it when at most 8192 bytes, and at most 8192 bytes kept |
| `SseLines.CutInvisibleIffLinesFit` | internal/proxy/sse.go:89-92 | the processed lines are the stream's for every cut if and only if every terminated line fits the buffer |
| `SseLines.LinesRoundTrip` | internal/proxy/sse.go:86-99 | the lines of a stream hold no newline and, with their newlines and the rest, are the stream |
| `SseUsage.GatheredDeserves` | internal/proxy/anthropic_sse.go:28-56 | the accumulated usage is the last delta added to the latest start before it, and nothing when no delta follows a start |
| `SseUsage.DeservesUnique` | internal/proxy/anthropic_sse.go:28-56 | that description fits only one report |
| `SseUsage.StreamSettlement` | internal/proxy/sse.go:81-140 | however a stream with fitting lines is cut, the usage held at Close is the one its own events deserve |
| `StreamLedger.StreamedRequestSettles` | internal/proxy/proxy.go:439-478 | end to end: whatever other requests do in between and however the stream of a request with a held reservation is cut, after Close its additions to the window sum to the usage its own events deserve, by one Record, or to its estimate, by none, when they deserve none |
| `StreamLedger.StreamedResponseSettles` | internal/proxy/proxy.go:439-478 | the same from the forwarded request on, through the response that gets wrapped |
| `StreamLedger.FollowsOwnTurns` | internal/proxy/proxy.go:451-474 | under every interleaving a forwarded request's phase is decided by its own turns |
| `StreamLedger.RelayStream` | internal/proxy/sse.go:43-78 | the objects together: any reads, then any number of Closes, move the tracker once, at the clock of the first Close, by deserved usage minus estimate, or not at all |
| `StreamLedger.RelayTwoEvents` | internal/proxy/sse.go:81-140 | from bytes to report: a line carrying a start of i tokens and one carrying a delta of o, in a stream cut anyhow, are reported as i + o |
| `SsePayloads.LineRule` | internal/proxy/sse.go:111-140 | what a line says, exactly: the decoding of p when it is `data: ` and p and any carriage returns, p is not `[DONE]` between blanks and holds one of the two sentinels; nothing otherwise |
| `SseReaders.Accumulator.Parse` | internal/proxy/anthropic_sse.go:28-56 | one event changes the accumulator and the final usage as the fold says |
| `SseReaders.TokenExtractingReader.Read` | internal/proxy/sse.go:43-58 | bytes pass unchanged; the reads so far determine lines, buffer and tally |
| `SseReaders.TokenExtractingReader.Scan` | internal/proxy/sse.go:81-101 | the loop processes exactly the complete lines of buffer plus data and keeps the bounded rest |
| `SseReaders.TokenExtractingReader.Close` | internal/proxy/sse.go:61-78 | the first Close reports the deserved usage if there is one; there is never a second report |
| `JsonPatch.EscapeJSONPointer` | internal/inject/webhook.go:247-262 | the loop's result unescapes, by section 3 of RFC 6901, to the key, and holds no slash |
| `JsonPatch.PointerRoundTrip` | internal/inject/webhook.go:229 | a rendered pointer parses back to its tokens, whatever characters they hold |
| `JsonPatch.WrittenApplies` | internal/inject/patch.go:6-15 | applying the patch from its pointer texts is applying the operations |
| `JsonPlaces.AddBelow` | internal/inject/webhook.go:190-203 | add, as section 4.1 of RFC 6902 defines it, below an existing place changes that place and nothing else |
| `Webhook.BuildPatches` | internal/inject/webhook.go:79-236 | the nested loops with the needs-init flag produce the specified operations, for every map iteration order |
| `Webhook.HandleMutate` | internal/inject/webhook.go:27-77 | an error exactly for an unreadable review or one without a request; otherwise the pod is allowed under the request's UID, with no patch when undecodable, opted out or already injected, and the built patch when not |
| `Webhook.FindEnvVar` | internal/inject/webhook.go:238-245 | finds a variable exactly when the list sets it |
| `InjectEffect.PatchApplies` | internal/inject/webhook.go:79-236 | for every pod with metadata and a container list and every iteration order, each operation in turn finds its parent, and together they make the specified pod |
| `InjectEffect.ContainerEffect` | internal/inject/webhook.go:184-206 | each container keeps all but its environment, keeps its entries as a prefix, gains exactly the base URLs it did not set, once each, and then sets both |
| `InjectEffect.PatchEffect` | internal/inject/webhook.go:147-176 | containers in order with the sidecar last, the config volume appended if asked for, every other field of pod, spec and metadata unchanged |
| `InjectEffect.AnnotationEffect` | internal/inject/webhook.go:208-233 | each annotation afterwards is the scrape value if it is a scrape key, else what it was |
| `InjectEffect.OneSidecar` | internal/inject/webhook.go:171-176 | the sidecar is the last container and the only one of its name |
| `PodRules.GainedUrlsAtPort` | internal/inject/webhook.go:178-206 | every variable a container gained is OPENAI_BASE_URL or ANTHROPIC_BASE_URL, set to localhost at the decimal text of the configured port |
| `PodRules.BothUrlsSet` | internal/inject/webhook.go:184-206 | afterwards every application container sets both |
| `PodRules.SidecarEnvExactly` | internal/inject/webhook.go:102-141 | the sidecar sets a variable to a value if and only if it is its listen address at that same port, one of the owner's four values, or one of the three an annotation asks for |
| `PodRules.ConfigMounted` | internal/inject/webhook.go:136-169 | the named ConfigMap is mounted read-only into the sidecar and added to the volumes, and nothing is when none is named |
| `PodRules.SidecarKeepsBase` | internal/inject/webhook.go:102-110 | image, pull policy, resources and ports reach the sidecar as configured |
| `PodRules.ScrapeAnnotated` | internal/inject/webhook.go:208-233 | each scrape annotation: true, /metrics, that same port, or as configured |
| `PodRules.NoPatchExactly` | internal/inject/webhook.go:38-66 | no patch if and only if the pod does not decode, is annotated out, or has a container named koshi-listener |
| `InjectEffect.InjectionIdempotent` | internal/inject/webhook.go:46-76 | the patched pod still decodes and gets no patch, under any later configuration and order |

## Left out

- HTTP transport, reverse proxying, upstream URL resolution and response bodies: upstream outcomes are a datatype.
- JSON and YAML decoding: parsed requests, configurations, pods and usage are inputs; the SSE event decoder is an arbitrary function parameter. A `null` list entry in a pod, which Go decodes as an empty struct, counts as undecodable.
- Webhook.HandleMutate: a pod counts as decodable when the fields the injector reads (metadata, annotations, containers, their names and environments, volumes and their names) have their types; Go's decoder also fails, and no patch is made, when a field nobody reads has a wrong type.
- The pointer texts of the patch are the RFC 6901 rendering of their token lists, not the literal format strings of webhook.go.
- OpenAI stream parsing and `bytes.TrimSpace` beyond ASCII white space: the first keeps the last usage seen, the second only affects the `[DONE]` line.
- Identity resolution, owner normalisation, provider detection and max_tokens extraction: their results are inputs.
- The fanout check always allows in this version and is dropped.
- Panics come from the code the handler calls (identity resolver, reverse proxy) as a parameter of `ServeHTTP`; a panic inside the tracker or in a response callback is not modelled.
- `StatusAll`, metrics, log and event texts, the event emitter: they do not feed back into accounting.
- `ValidateSidecarConfig`, the built-in policy catalog and the sidecar start-up paths: the same checks and registrations on fixed inputs.
- int64 overflow: counts are mathematical integers.
- RollingWindows.RollingWindow.ConsumeBurst: has no compare-and-swap retry, because an object called sequentially never needs one; the load, the swap and the retry are steps of `Interleaving.dfy`.
- RollingWindows.RollingWindow.ReplenishBurst: likewise.
- Settlement.SettledOnce: interleaves requests by whole Reserves and whole Records; how their inner steps interleave is the subject of `Interleaving.dfy`, whose `StepsRefineLog` states the same balance step by step.
- Settlement.WindowsAreTheLog: likewise moves by whole Reserves and Records; `StepsRefineLog` is the step-level form, for one key.
- Admission.NoOverAdmission: stays inside one clock second, as do conservation, the denial rules and linearizability; while the clock moves, `StepsRefineLog`, `ConcurrentOvershootBound` and `BurstSafety` hold instead.
- Linearizability.LinearizableIffUncrowded: is about Reserves alone, with positive estimates, which by `ReservesWhatIsAsked` is all the handler ever asks for unless a client sends a negative max_tokens; the burst allowance reported beside a total, which only telemetry reads, is not part of the answers compared.
