# krepis: a verified model

krepis is the shared library of a small fleet of jobs: it serialises writers through one S3 object,
starts spot instances that survive a dispatcher's death, records the cost of model calls, talks to
language models with bounded retries over streamed transports, and decides which alerts reach a
person. This project models the parts of it in which order, failure and repetition matter, and proves
what those parts are for.

How the source is read:

- A remote store, EC2, a provider or a store of markers is a value or an object whose answers an
  adversary chooses: a request may be granted, refused, or lost before or after it took effect.
- Concurrent code (the writer lock, the cost sink, the stream pump) is a step machine; a run is any
  sequence of enabled steps, and the theorems are about all runs. Sequential code that updates fields,
  arrays or local state is written as classes and methods with loops, each proved equal to a function
  of its inputs or old state; the theorems are then about that function, and the modules named
  Outcomes, Billing, RoundTrip and Partitions tell its result from the inputs alone.
- Hashes are injective (keys and tokens are the strings that are hashed), prices and clocks of the
  stream pump are reals, other times are integers in the unit named in the module.

One module per component:

| module | component |
|---|---|
| `WriterLock`, `WriterLockClient` | the lock protocol as interleaved steps; the same code as straight-line methods |
| `SpotLaunch`, `SpotOutcomes` | tokens, chunked probe, rotation, replay of killed invocations; what is launched, told from EC2's answers |
| `CostSinkKeys`, `CostSink`, `CostSinkRetries` | object keys; the sink as an object; one group of it over runs of uncertain PUTs |
| `CostSinkPartitions` | the partition of the deployed sink, told from a record's own fields |
| `CostSinkSteps`, `CostSinkNumbers` | the sink as interleaved steps; its sequence numbers along them |
| `Usage`, `RetryLadder`, `RetryClient` | token accounting; the retry ladder and the one escalation; the loops that run it |
| `RetryOutcomes`, `RetryBilling` | what a call returns, asks for and reports, told from its replies alone |
| `StreamPump`, `StreamAssembly`, `StreamRoundTrip` | deadlines on a streamed response; reassembly of its fragments; printing a message and reading it back |
| `PromptSources`, `PromptOverlap` | exact offsets of sources in a prompt; when a section is found once |
| `Citations`, `Occurrences` | the citation scanner; known elements in first-occurrence order |
| `Breakpoints`, `CustomId`, `Pricing` | cache breakpoints; the batch id codec; dated prices and cost |
| `StreakGate`, `DedupWindow`, `AlertPipeline` | the consecutive-detection gate; the dedup window; one publish, the first stage before the second |
| `Routing` | tier and destination of an alert |

## What turned out false, and exactly when it holds

- Mutual exclusion of the writer lock is not unconditional. A read that finds the object gone still
  leads to the delete (src/krepis/locks.py:283-295), which can remove a third writer's fresh object.
  It holds on every run whose removals of the object find no other holder
  (`WriterLock.HarmlessRunExcludes`), and any one removal that finds one lets the next PUT break it
  (`RemovalBreaksExclusionIff`). Releases that land before the ttl and recovery deletes that remove
  nothing or the version they judged are enough (`MutualExclusion`); runs that break one of these two,
  and only that one, put two writers inside.
- A retried PUT is documented never to overwrite a prior object (src/krepis/cost_sink.py:244-247). It
  does exactly when the earlier PUT landed and raised: `CostSinkRetries.OverwritesIff`. No acknowledged
  object is ever overwritten, and the replaced records are rewritten or were dropped and counted.
  Under any replies, appends that interleave included, no acknowledged object is overwritten as long as
  flushes do not overlap (`CostSinkNumbers.AcknowledgedStays`).
  Overlapping flushes can use a number twice and acknowledge a group out of order
  (`CostSinkNumbers.OverlapReusesNumber`, `CostSinkSteps.OverlapReorders`).
- A flush is documented never to raise and to put back what it could not write
  (src/krepis/cost_sink.py:158-171), but the rows are printed outside the `try` (lines 320-321). If only
  rows that can be printed are accepted, no flush raises and nothing is lost uncounted
  (`CostSinkSteps.NothingVanishes`); a flush that took any other row can end in no other way than by
  raising (`StuckUntilItRaises`), and takes with it whatever it had not written (`PrintableRowVanishes`).
- `publish_clear` resets the streak in the default bucket only, although its comment promises that the
  next occurrence is a fresh first detection (src/krepis/alerts.py:2062-2067): `StreakGate.ClearResetsIff`.
- The comment on the consecutive-detection gate promises that a condition that survives pages
  (src/krepis/alerts.py:1778-1782). The gate comes before the dedup check, and the silent delivery of a
  held detection writes the dedup marker too. So the n-th detection pages exactly when, besides, a full
  window has passed since the second of the key's last delivery, silent ones included
  (`AlertPipeline.SurvivorPagesIff`; with failing requests of the gate `PagesIff`). Two detections half an
  hour apart under a window of an hour are delivered silently and skipped (`QuietThenSkipped`), and a
  condition with no window never pages at all (`ForeverNeverPages`). Without a dedup key the promise holds
  (`WithoutKeyTheNthPages`).
- A dedup window of w minutes promises w minutes between deliveries. The stamp is cut to whole seconds,
  so it is kept exactly after deliveries written on a whole second (`DedupWindow.FullWindowIff`) and
  otherwise missed by less than a second (`DeliveriesFarApart`).
- `encode_custom_id` is documented as round-trippable (src/krepis/judge.py:519-521). It is so exactly
  under the condition of `CustomId.SegmentsComeBackIff` (a subject that ends in "_" is lost,
  `UnderscoreIsLost`); and its output fits the API exactly under that of `CustomId.EncodedFitsIff` (a "$"
  in the pattern lets a final newline through, `NewlineSlipsThrough`).
- The breakpoint pass promises a marker within every 20 blocks. A block that cannot carry one at the
  slot is passed over instead of the marker moving to the next block, as the documentation says
  (src/krepis/anthropic_payload.py:173-177): `Breakpoints.SpacedIff`, and `StringAtTheSlot` for the input.
- `bind_sources` promises that an embedded section occurs exactly once; its guard counts occurrences
  that do not overlap. It keeps the promise exactly for sections without a border
  (`PromptOverlap.GuardIsExactIff`), which a caller can make sure of (`CheckedSectionIsFoundOnce`). The
  offsets are exact all the same.
- The total deadline of a streamed response promises that nothing is handed over after it. The wait can
  end late: at most one message is late, the last one (`StreamPump.AtMostOneLate`, `InTimeIffLastIs`).
- `LLMUsage.attempts` is documented as the number of transport calls, a rung descent included
  (src/krepis/llm.py:1396-1397). It is so exactly if every call got a response
  (`RetryLadder.ReportedAttemptsIff`).
- `LLMUsage.budget_escalations` is documented as the number of escalations (src/krepis/llm.py:1383-1394).
  It is that number exactly unless the call escalated and failed, though that spend is absorbed
  (`RetryLadder.EscalationsCountedIff`); `FailedEscalationIsNotCounted` is the input.

## Model

| member | source | states |
|---|---|---|
| WriterLock.MutualExclusion | src/krepis/locks.py:280-336 | over every run of any number of writers, with crashes, lost replies, failed deletes and the lifecycle rule, that keeps the two conditions: at most one writer is inside and the stored object is its own version |
| WriterLock.MutualExclusionFromInit | src/krepis/locks.py:280-336 | the same from every initial state, whatever the key already holds |
| WriterLock.DisciplinedIsBoth | src/krepis/locks.py:280-336 | the run condition is the timely-release condition and the clean-recovery condition, each over the whole run |
| WriterLock.StepKeepsInv | src/krepis/locks.py:217-242 | every single step, conditional PUT included, keeps the invariant that a holder's object is the stored one |
| WriterLock.CleanRemovalFindsNobody | src/krepis/locks.py:286-302 | a recovery delete or purge that removes what was judged stale finds nobody inside |
| WriterLock.RecoveryBreaksExclusionIff | src/krepis/locks.py:294-303 | a recovery that deletes and PUTs puts two writers inside iff somebody holds the lock when the delete lands |
| WriterLock.HarmlessRunExcludes | src/krepis/locks.py:280-336 | mutual exclusion over every run in which each removal of the object (recovery delete, release, lifecycle rule) finds no other holder, with no assumption on clocks or ttls |
| WriterLock.DisciplinedIsHarmless | src/krepis/locks.py:280-336 | the two conditions make every removal harmless |
| WriterLock.RemovalBreaksExclusionIff | src/krepis/locks.py:294-330 | of all three kinds of removal, the unconditional release included: the next PUT puts two writers inside iff somebody else held the lock |
| WriterLock.ReachReadFindsNothing | src/krepis/locks.py:280-283 | a run within both conditions leads to a writer whose read found nothing and that is about to delete |
| WriterLock.TwoHoldersWithoutCleanRecovery | src/krepis/locks.py:283-303 | from there, timely releases alone do not exclude: that delete removes a third writer's object and both get in |
| WriterLock.TwoHoldersWithoutTimelyRelease | src/krepis/locks.py:284-303 | clean recovery alone does not exclude: a writer that overstays its ttl is recovered from |
| WriterLockClient.LockKey.Acquire | src/krepis/locks.py:280-312 | an undisturbed acquisition: who gets the key, what is stored, and whose holder the error names |
| WriterLockClient.LockKey.UniverseWriterLock | src/krepis/locks.py:280-336 | refused exactly on a live holder or an undeletable object; a refused caller leaves the key alone; the release never hides how the body ended |
| WriterLockClient.SoloRunAgrees | src/krepis/locks.py:280-336 | the straight-line code is a run of the step machine with the same object and answer |
| SpotLaunch.ClientTokenInjective | src/krepis/ec2_spot.py:290-308 | one token per key, market, type and subnet over all keys, for types and subnets without the separator |
| SpotLaunch.TokenIdentifiesIff | src/krepis/ec2_spot.py:290-308 | within one key a token tells its market, type and subnet from all others iff neither name contains the separator |
| SpotLaunch.AllTokensExact | src/krepis/ec2_spot.py:311-322 | the probe looks for exactly the tokens an attempt of the key can carry |
| SpotLaunch.AllTokensMarket | src/krepis/ec2_spot.py:311-322 | and reads each token's market off it, whatever the names contain |
| SpotLaunch.ProbeExact | src/krepis/ec2_spot.py:325-378 | with an accurate listing the chunked, paginated search finds an instance iff one carries a token of the key, and names such an instance |
| SpotLaunch.FindByIdempotencyKey | src/krepis/ec2_spot.py:350-378 | the chunk, page and entry loops compute that search |
| SpotLaunch.RotateCreatesAtMostOne | src/krepis/ec2_spot.py:708-807 | one rotation, killed anywhere, creates at most one instance, and none when it ends in a fallback |
| SpotLaunch.RotateSkipsCapacityOnly | src/krepis/ec2_spot.py:708-807 | row-major rotation goes on past capacity errors and past nothing else |
| SpotLaunch.InvocationKeepsOne | src/krepis/ec2_spot.py:453-543 | one invocation, killed anywhere, keeps at most one instance of the key and returns that one |
| SpotLaunch.ReplayIdempotent | src/krepis/ec2_spot.py:397-543 | so does any sequence of invocations of the key, and every normal return names the instance |
| SpotLaunch.ReturnsAgree | src/krepis/ec2_spot.py:397-543 | any two returns of the sequence name the same instance |
| SpotLaunch.ReplayMakesFor | src/krepis/ec2_spot.py:397-543 | with failing or lying probes: every instance added carries the token of one of the keys for its own market, type and subnet |
| SpotLaunch.OnePerCombinationWhateverTheProbe | src/krepis/ec2_spot.py:397-543 | and two instances of one key with the same market, type and subnet are the same instance |
| SpotLaunch.TwoBoxesWithoutTheProbe | src/krepis/ec2_spot.py:453-480 | and two in all can happen: the accurate probe is needed |
| SpotLaunch.Ec2.Launch | src/krepis/ec2_spot.py:708-807 | the nested loops over types and subnets, on a mutable cloud, are that rotation |
| SpotLaunch.Ec2.LaunchSelfStarting | src/krepis/ec2_spot.py:453-543 | probe, spot, fallback and the second probe on a token conflict, on a mutable cloud, are the invocation that the rows above and below are about |
| SpotOutcomes.SpotGranted | src/krepis/ec2_spot.py:453-512 | the first combination not refused for capacity, types outermost, is returned as a spot instance if EC2 grants it |
| SpotOutcomes.OnDemandAfterCapacity | src/krepis/ec2_spot.py:512-521 | when every spot combination was refused for capacity the first one on-demand that is granted is returned, launched for that reason |
| SpotOutcomes.OnDemandAfterQuota | src/krepis/ec2_spot.py:522-530 | the same after one quota refusal, under its own reason, unless the operator page raises |
| SpotOutcomes.QuotaPageRaises | src/krepis/ec2_spot.py:522-530 | a page that raises keeps the call from going on-demand |
| SpotOutcomes.ForcedGranted | src/krepis/ec2_spot.py:505-509 | a forced call goes on-demand at once |
| SpotOutcomes.RaisesOnlyWhenFull | src/krepis/ec2_spot.py:504-530 | when only capacity can fail, the call raises iff every combination of both markets was refused, and returns an instance otherwise |
| SpotOutcomes.OtherErrorRaises | src/krepis/ec2_spot.py:708-807 | any other refusal ends the call and nothing else is tried |
| SpotOutcomes.ConflictIsLookedUp | src/krepis/ec2_spot.py:531-543 | a token in use with other parameters makes the call look the key up again and return what it finds |
| SpotOutcomes.ReplayReturnsIt | src/krepis/ec2_spot.py:453-480 | when the key has an instance and the probe is accurate, a call launches nothing and returns one of the key's |
| SpotOutcomes.ReplayNamesItsMarket | src/krepis/ec2_spot.py:453-480 | a replay launches nothing and returns the key's instance with the market of its token |
| SpotOutcomes.SaysTheProbeFailed | src/krepis/ec2_spot.py:470-512 | the return tells whether the probe in front of it failed |
| CostSinkKeys.ObjectKeyInjective | src/krepis/cost_sink.py:316-319 | for one sink the object key is injective in date, call site and number, dots and slashes included |
| CostSink.S3JsonlCostSink.Call | src/krepis/cost_sink.py:217-231 | a record is accepted and buffered within ten times the threshold, and a full group triggers a flush; Valid bounds every buffer and accounts for every record |
| CostSink.S3JsonlCostSink.Flush | src/krepis/cost_sink.py:241-265 | every buffered group is PUT whole under its next number; what is not acknowledged is requeued, whether or not it landed; counters say which |
| CostSink.S3JsonlCostSink.RequeueFailed | src/krepis/cost_sink.py:267-289 | failed batches go in front, the oldest past the cap are dropped and counted |
| CostSink.S3JsonlCostSink.Close | src/krepis/cost_sink.py:291-314 | after close accepted = written + dropped and nothing is buffered |
| CostSinkPartitions.PartitionLaw | src/krepis/cost_sink.py:217-231 | in a deployed sink, which call, flush and close keep so, every buffered and stored record is under its own call site and, if its timestamp starts like a date, those ten characters, else "unknown-date" |
| CostSinkPartitions.StoredUnderItsOwnKey | src/krepis/cost_sink.py:316-321 | the key of the object that holds a stored record spells out the record's own date and call site |
| CostSink.FlushPerGroup | src/krepis/cost_sink.py:241-289 | per group: an acknowledged one gains exactly one object and leaves the buffer, any other keeps its newest records and drops the ones before; its number moves only when acknowledged |
| CostSinkRetries.AcknowledgedIsNeverOverwritten | src/krepis/cost_sink.py:253-260 | over every run with any replies, a PUT that lands and raises included, the acknowledged objects of a group stay as they are |
| CostSinkRetries.OverwritesIff | src/krepis/cost_sink.py:244-260 | a PUT that lands replaces a stored object iff an earlier PUT of the group under the same number landed unacknowledged |
| CostSinkRetries.ReplacedRecords | src/krepis/cost_sink.py:267-289 | the replaced object is a row of records dropped and counted, followed by the first records of the buffer, which the replacing PUT writes |
| CostSinkRetries.LandedObjectIsReplaced | src/krepis/cost_sink.py:253-265 | the run in which [1] is replaced by [1, 2] |
| CostSinkRetries.CallPerGroup | src/krepis/cost_sink.py:227-231 | a call that fills a group is, for every group, a flush of its run above, and for the record's own group an append and then a flush |
| CostSink.AppendPerGroup | src/krepis/cost_sink.py:227-231 | a call below the threshold is an append to the record's own group and nothing to any other |
| CostSink.RequeueAllTotals | src/krepis/cost_sink.py:267-289 | a requeue loses count of no record |
| CostSink.RequeueInFront | src/krepis/cost_sink.py:267-289 | per failed group its batch goes in front of what is buffered, the newest up to the cap stay and the ones before are dropped; other groups do not change |
| CostSink.NextObjectIsNewKey | src/krepis/cost_sink.py:316-319 | an object past those stored of a partition has a key that no stored object of any partition has |
| CostSink.PutWritesOneKey | src/krepis/cost_sink.py:316-330 | a PUT under any number writes that one object and no other of any partition |
| CostSink.SentAndFailed | src/krepis/cost_sink.py:253-265 | the groups of a flush are split into sent and failed without loss |
| CostSinkSteps.Conservation | src/krepis/cost_sink.py:227-289 | under every interleaving, overlapping flushes and raising ones included, each accepted record is acknowledged, dropped, buffered, in flight or lost with a flush that raised, exactly as often as accepted |
| CostSinkSteps.HistoryIs | src/krepis/cost_sink.py:217-265 | what counts as accepted is what the run appended, in order, and what counts as acknowledged the batches whose PUTs were answered |
| CostSinkSteps.NothingVanishes | src/krepis/cost_sink.py:249-321 | if only rows that can be printed are accepted, no flush of any run raises, so that nothing is lost uncounted |
| CostSinkSteps.StuckUntilItRaises | src/krepis/cost_sink.py:253-321 | a flush that took a row that cannot be printed can only end by raising, whatever else runs |
| CostSinkSteps.PrintableRowVanishes | src/krepis/cost_sink.py:253-321 | the input: such a row takes another group's row with it |
| CostSinkSteps.OrderPreserved | src/krepis/cost_sink.py:249-289 | when flushes do not overlap, acknowledged, in flight and buffered in a row are a subsequence of what was accepted |
| CostSinkSteps.TrimDropsOldest | src/krepis/cost_sink.py:275-289 | a requeue drops the oldest retained records and no more than needed |
| CostSinkSteps.OverlapReorders | src/krepis/cost_sink.py:249-261 | overlapping flushes can acknowledge a group out of order |
| CostSinkNumbers.NumbersAreFresh | src/krepis/cost_sink.py:249-260 | when flushes do not overlap, no two acknowledged PUTs of a group share a number, however appends interleave |
| CostSinkNumbers.AcknowledgedStays | src/krepis/cost_sink.py:249-260 | nor is an acknowledged object overwritten, whichever PUTs are acknowledged, fail, or land and raise |
| CostSinkNumbers.OverlapReusesNumber | src/krepis/cost_sink.py:249-260 | overlapping flushes can use a number twice |
| Usage.SumCounters | src/krepis/llm.py:670-695 | each additive counter, and the reported cost, of a sum of tallies is the sum of theirs |
| Usage.SumMeaning | src/krepis/llm.py:684-703 | the maximum is attained and bounds all, the unknown flag is set iff one is |
| Usage.LLMUsage.AddOpenAi | src/krepis/llm.py:2793-2865 | an OpenAI usage block adds its own fields to the counters, each to its own, and one attempt; without a block only the attempt |
| Usage.LLMUsage.AddAnthropic | src/krepis/llm.py:2735-2791 | the same of an Anthropic block; the 5-minute and 1-hour cache writes together grow by the larger of the total and the 1-hour slice |
| Usage.LLMUsage.Absorb | src/krepis/llm.py:659-703 | absorbing another tally is adding it |
| RetryLadder.LadderBounds | src/krepis/llm.py:3488-3651 | a dispatch makes 1 to attempts + 1 calls with at most one descent, exhaustion is exactly attempts retryable failures, and nothing is asked again after an exhausted budget |
| RetryLadder.RequestsMeaning | src/krepis/llm.py:3441-3482 | every request of a dispatch has its ceiling, and is on the native rung exactly until the first refusal |
| RetryClient.StructuredOpenAi | src/krepis/llm.py:3488-3651 | the loop that raises its own bound once terminates and is that ladder; the requests it sends (ceiling, rung, corrective turns) and its usage are those of its replies |
| RetryClient.StructuredAnthropic | src/krepis/llm.py:3331-3419 | the other wire's loop is the ladder without a descent |
| RetryLadder.EscalatedBudget | src/krepis/llm.py:2867-2877 | the second ceiling, if there is one, is strictly larger; there is one iff the product gains at least one |
| RetryLadder.EscalatedBudgetIs | src/krepis/llm.py:2867-2877 | it is the product rounded down |
| RetryLadder.StructuredCalls | src/krepis/llm.py:3254-3290 | a whole call makes 1 to 2(attempts + 1) transport calls |
| RetryLadder.ExhaustedIsNeverRepeated | src/krepis/llm.py:3257-3281 | after a reply that exhausted the budget every later request has a strictly larger ceiling |
| RetryLadder.StructuredAccounting | src/krepis/llm.py:3254-3290 | the usage returned or carried by an error is the sum over all responses of both dispatches |
| RetryLadder.EscalationsCountedIff | src/krepis/llm.py:3254-3290 | `budget_escalations` is 1 exactly on an escalation that succeeded; it is the number of escalations iff the call did not escalate and fail |
| RetryLadder.FailedEscalationIsNotCounted | src/krepis/llm.py:3270-3290 | the input: two exhausted budgets, one escalation, none reported |
| RetryLadder.UsageMeaning | src/krepis/llm.py:3254-3290 | in that usage attempts is the number of responses, the per-attempt maximum is that of a response, and usage is unknown iff some response reported none |
| RetryLadder.AttemptsAreCallsIff | src/krepis/llm.py:1396-1405 | attempts is the number of transport calls iff every call got a response |
| RetryLadder.ReportedAttemptsIff | src/krepis/llm.py:3254-3290 | the same of the usage a whole call returns or carries on an error |
| RetryLadder.DescentIsNotCounted | src/krepis/llm.py:3578-3612 | a refused native request and a valid second response: two calls, one attempt |
| RetryClient.StructuredCall | src/krepis/llm.py:3254-3290 | a result iff the last reply is a validated answer, a budget error iff that one is out of budget, another failure iff it is a failed attempt; nothing is asked after an answer; requests and usage are those of the two dispatches |
| RetryOutcomes.CallEnds | src/krepis/llm.py:3254-3290 | over all replies: the last one decides how a call ends; the ones before it in a dispatch are unreadable or invalid, fewer than attempts, or the one refusal of the native rung; attempts are used up by exactly that many failures; one exhausted budget at most comes before the last, with a raised ceiling after it |
| RetryOutcomes.FirstAnswerReturns | src/krepis/llm.py:3612-3644 | a call returns iff its last reply is an answer, and no earlier reply is one |
| RetryOutcomes.DispatchEnds | src/krepis/llm.py:3488-3651 | the same of one dispatch |
| RetryOutcomes.RequestOfCall | src/krepis/llm.py:3441-3644 | each request has the ceiling of its dispatch, is native until a refusal, and carries one corrective turn for each validation that failed since the last descent |
| RetryBilling.CallReports | src/krepis/llm.py:2735-2865 | input, output, cache reads and misses, cache writes of both kinds, reasoning, searches, fetches and cost of the reported usage are the sums of what the responses' own usage blocks say |
| StreamPump.PumpSafety | src/krepis/llm.py:880-944 | over every interleaving of producer, consumer and clock: the caller sees a prefix in order, all of it on a normal end, everything earlier before a forwarded error; idle means a full idle_timeout of silence; no wait begins after the total deadline and the total signal never comes before it |
| StreamPump.CallerSeesTheStream | src/krepis/llm.py:896-944 | the caller sees a prefix of what the provider delivered; a normal return means that the stream ended by itself, a forwarded error that it broke, either after everything delivered |
| StreamPump.AtMostOneLate | src/krepis/llm.py:922-944 | on every run at most one message is handed over past the total deadline, and it is the last one |
| StreamPump.InTimeIffLastIs | src/krepis/llm.py:922-944 | nothing is taken past the deadline iff the last message was not |
| StreamPump.LateItemEndsIt | src/krepis/llm.py:925-930 | after a late item the next look at the clock ends the loop with the total signal |
| StreamPump.NothingTakenLate | src/krepis/llm.py:922-937 | if the queue's wait keeps its deadline, nothing is dequeued after start + total_timeout |
| StreamPump.LateHandOver | src/krepis/llm.py:922-937 | the input: a wait that began in time and a hand-over that came late |
| StreamPump.NeverStuck | src/krepis/llm.py:922-944 | a consumer whose wait is up always has a next step |
| StreamAssembly.Accumulate | src/krepis/llm.py:1203-1323 | the loop over events, and the partial text of an aborted stream, are what the events say per block index |
| StreamRoundTrip.PrintedComesBack | src/krepis/llm.py:1203-1323 | blocks printed as any well-formed stream, in text or JSON fragments, interleaved or not, come back in start order with their headers, all their characters, the parse of those for a tool call, and the message's own fields as sent |
| StreamRoundTrip.BrokenOffLeavesText | src/krepis/llm.py:1203-1260 | a stream that breaks off leaves the text its text blocks had sent |
| StreamAssembly.FragmentationInvariance | src/krepis/llm.py:1203-1323 | two streams that start the same blocks once in the same order with the same text per block give the same message, however the text is split and the blocks interleave |
| StreamAssembly.WellFormedMeaning | src/krepis/llm.py:1219-1246 | when blocks start once before their deltas, blocks come in start order and no delta is forgotten |
| StreamAssembly.KeptIff | src/krepis/llm.py:1219-1246 | a block keeps all its deltas' text iff those before its latest start said nothing |
| StreamAssembly.EarlyDeltaIsForgotten | src/krepis/llm.py:1219-1230 | the input: a delta before its block's start is forgotten |
| PromptSources.RenderSources | src/krepis/llm_trace.py:410-435 | fails exactly on a repeated cid; otherwise slicing at each span gives that source's text, with its opening tag right before and the closing one right after, spans in order |
| PromptSources.SectionRenders | src/krepis/llm_trace.py:396-435 | the recorded offsets are exact for every list of sources, separator and tags |
| PromptSources.EscapedReadsBack | src/krepis/llm_trace.py:385-392 | a cid in an opening tag reads back through the five entities and holds nothing that would end the attribute |
| PromptSources.TagsSpelledOut | src/krepis/llm_trace.py:389-393 | the tags around every text, character by character |
| PromptSources.BindSources | src/krepis/llm_trace.py:438-485 | prepended or located, the returned spans slice the returned content to the same texts; a located section is shifted to where it occurs; which inputs are refused |
| PromptSources.CountIsOne | src/krepis/llm_trace.py:460-468 | the guard holds iff there is an occurrence and none starts past the end of the first |
| PromptOverlap.GuardIsExactIff | src/krepis/llm_trace.py:459-468 | in every content the guard means "exactly once" iff the section has no border, a proper stretch that both starts and ends it |
| PromptOverlap.CheckedSectionIsFoundOnce | src/krepis/llm_trace.py:459-468 | so it does for sources with distinct cids none of whose texts, nor the separator, holds the first source's opening tag |
| PromptOverlap.OverlapIsCountedOnce | src/krepis/llm_trace.py:459-468 | the input: a section that occurs twice in a content that passes |
| Citations.MatchesAreMarkers | src/krepis/llm_trace.py:129-131 | the pattern matches at a position exactly the bracketed list of stripped cids that starts there, and no match can hide another |
| Citations.CitedCids | src/krepis/llm_trace.py:488-502 | the scan returns the known cids of all markers in order of first citation |
| Citations.CitedMeaning | src/krepis/llm_trace.py:488-502 | a cid is returned iff it is known and some marker of the text names it |
| Occurrences.FirstKnownMeaning | src/krepis/llm_trace.py:496-502 | what the loop collects: exactly the known cids cited, without duplicates, in the order of first occurrence |
| Citations.GroupFields | src/krepis/llm_trace.py:498-499 | splitting the captured group and stripping gives the fields of the whole marker |
| Citations.PrintedIsCited | src/krepis/llm_trace.py:488-502 | bracket-free prose with printed markers is cited exactly as printed |
| StreakGate.StoredCounts | src/krepis/alert_tiers.py:461-513 | over any run with any faults the stored count is the number of emissions recorded since the last successful clear of that slot |
| StreakGate.HeldIff | src/krepis/alerts.py:1784-1807 | an emission is held iff the gate saw it, its read answered, and that count plus one is below the threshold |
| StreakGate.FirstAreHeld | src/krepis/alerts.py:1778-1807 | without faults the gate holds the first n - 1 detections since the last clear and lets the n-th onward through as pages; whether those reach a channel is `AlertPipeline` |
| StreakGate.ClearResetsIff | src/krepis/alerts.py:2062-2067 | a clear resets a slot exactly in the default bucket, or if nothing was recorded |
| StreakGate.FreshDetectionPages | src/krepis/alerts.py:2066-2067 | in another bucket the first detection after a clear is not held |
| AlertPipeline.PagesIff | src/krepis/alerts.py:1784-1945 | over any run and any failing requests of the gate, a page-tier detection pages iff a channel takes it, the gate does not hold it (short count that could be read), and a full window has passed since the second of the key's last delivery, silent ones included |
| AlertPipeline.SurvivorPagesIff | src/krepis/alerts.py:1778-1827 | without faults: iff at least n detections stand since the last clear and that window has passed |
| AlertPipeline.WithoutKeyTheNthPages | src/krepis/alerts.py:1784-1811 | without a dedup key: iff at least n detections stand |
| AlertPipeline.ForeverNeverPages | src/krepis/alerts.py:1812-1945 | under one key with no window and n of two or more, no publish of any run pages |
| AlertPipeline.QuietThenSkipped | src/krepis/alerts.py:1784-1945 | the input: n = 2, an hour's window, detections half an hour apart: delivered silently, then skipped |
| AlertPipeline.Publish | src/krepis/alerts.py:1784-1945 | the gate, the dedup check, the delivery and the marker in the code's order are one step of that run, and its answer is the outcome |
| StreakGate.MarkerStore.Gate | src/krepis/alerts.py:1784-1807 | the gate's read, write and verdict, fault by fault |
| StreakGate.MarkerStore.PublishClear | src/krepis/alerts.py:2057-2084 | refuses an empty identity, otherwise one delete in the default bucket and an ungated publish |
| DedupWindow.DeliveriesFarApart | src/krepis/_dedup.py:108-129 | any two deliveries of a key lie more than 60 w - 1 seconds apart, first write to second check |
| DedupWindow.DeliversIff | src/krepis/_dedup.py:117-129 | a message a channel takes is delivered iff a full window has passed since the second in which the last delivery was written |
| DedupWindow.FullWindowIff | src/krepis/_dedup.py:155-178 | whatever comes next lies a full window after a delivery iff that delivery was written on a whole second |
| DedupWindow.AtMostOneForever | src/krepis/_dedup.py:108-109 | with no window the first message a channel takes is the only delivery |
| DedupWindow.MarkerRecords | src/krepis/_dedup.py:155-178 | the marker holds the number of deliveries, the first one's time and the last one's |
| DedupWindow.FirstNeverChanges | src/krepis/_dedup.py:155-178 | first_published_at never changes |
| DedupWindow.SkippedOnEvidence | src/krepis/_dedup.py:76-107 | under any faults, what is skipped was delivered within its window |
| DedupWindow.CloserThanTheWindow | src/krepis/_dedup.py:155-178 | deliveries can be closer than the window |
| DedupWindow.MarkerStore.CheckMarker | src/krepis/_dedup.py:65-129 | within the window iff the read answers and the marker says so |
| DedupWindow.MarkerStore.WriteMarker | src/krepis/_dedup.py:132-190 | the read-modify-write, and what each failing request leaves |
| DedupWindow.MarkerStore.PublishOnce | src/krepis/alerts.py:1812-1945 | check, deliver, and write only after a delivery |
| Routing.MatchIsWinners | src/krepis/alert_tiers.py:314-332 | the rows returned are exactly the winners: exact matches, else the claims of the longest prefix |
| Routing.WinnersAgree | src/krepis/alert_tiers.py:314-332 | all winners name one and the same source |
| Routing.ResolveTier | src/krepis/alert_tiers.py:370-440 | drift iff no row names or covers the source, and then it pages; otherwise the first of the strictest winning rows decides class, threshold and tier, the tier being that of its first matching override or its own: only the three quiet tiers keep from paging, dynamic only for routine severities; a source goes quiet only if every winning row declares it so |
| Routing.Secrets.Route | src/krepis/alerts.py:1855-1911 | where the message goes in every case of tier, severity, request, artifact and log chat; skipping the log-chat lookup changes nothing, and an incident costs none |
| Routing.ResolveDestination | src/krepis/alerts.py:1024-1103 | console_only only with an artifact, log_chat only when configured |
| Breakpoints.EnsureSpacing | src/krepis/anthropic_payload.py:193-224 | the in-place pass over all messages is the pass over their blocks in a row |
| Breakpoints.SpacedIff | src/krepis/anthropic_payload.py:196-224 | after it every 20 consecutive blocks contain a marker iff no unmarkable block stands at a slot that matters; in particular when all are dicts |
| Breakpoints.StringAtTheSlot | src/krepis/anthropic_payload.py:211-222 | the input: 19 dict blocks and a string message are left without any marker |
| Breakpoints.SecondPassIsIdle | src/krepis/anthropic_payload.py:196-224 | on dict blocks a second pass changes nothing |
| Breakpoints.NothingIsLost | src/krepis/anthropic_payload.py:211-222 | order, kind and existing markers of blocks are kept |
| Breakpoints.RunsAreIndependent | src/krepis/anthropic_payload.py:216-218 | a marker separates what the pass does before it from what it does after |
| Breakpoints.RunGains | src/krepis/anthropic_payload.py:219-222 | an unmarked run of n gains 0 below 20 and 1 + floor((n - 20) / 15) from there |
| Breakpoints.EveryRunGains | src/krepis/anthropic_payload.py:211-222 | so does every maximal unmarked run inside any content, and the content around it what it gains alone |
| Breakpoints.OneRunFits | src/krepis/anthropic_payload.py:264-271 | with one system marker and one run the ceiling check passes iff n < 65 |
| Breakpoints.CountBreakpoints | src/krepis/anthropic_payload.py:129-155 | counts the markers of system and messages |
| Breakpoints.ValidatePayload | src/krepis/anthropic_payload.py:227-271 | accepts exactly requests with at most 4 markers and no prefill under a server tool |
| CustomId.EncodedFitsIff | src/krepis/judge.py:523-542 | the id fits the API's alphabet and length, for all subjects and runs, exactly unless the tag ends in an overlooked newline |
| CustomId.EncodedFits | src/krepis/judge.py:523-542 | so for every tag over the alphabet |
| CustomId.NewlineSlipsThrough | src/krepis/judge.py:523-542 | the input: the tag "t" with a newline after it gives an id outside the alphabet |
| CustomId.SegmentsComeBackIff | src/krepis/judge.py:523-566 | the three segments survive packing and splitting iff the id was not cut, none contains "__" and the first two do not end in "_" |
| CustomId.RoundTripIff | src/krepis/judge.py:506-569 | decoding gives back truncated subject, run and judge model iff that holds |
| CustomId.UnderscoreIsLost | src/krepis/judge.py:536-566 | the input: the subject "a_" does not come back |
| CustomId.ShortRunsFit | src/krepis/judge.py:533-536 | when run and tag leave room, nothing is cut and only the subject is truncated |
| CustomId.TruncatesAsNeeded | src/krepis/judge.py:533-536 | a cut subject fills the id or keeps eight characters |
| CustomId.PackedAs | src/krepis/judge.py:523-542 | an id with room for everything is subject, run and tag in this order with "__" between, other characters replaced by "-" |
| CustomId.TagsReadBack | src/krepis/judge.py:559-568 | distinct tags are mapped back to their models |
| CustomId.IdsAreDistinct | src/krepis/judge.py:536-566 | ids of clean segments are told apart |
| Pricing.ValidateOrdering | src/krepis/cost.py:188-204 | accepts exactly the tables whose dates strictly ascend per model |
| Pricing.GetIsLastActive | src/krepis/cost.py:224-246 | the lookup returns the last active card in list order of the first name form that has one, and fails iff none has |
| Pricing.GetIsMonotone | src/krepis/cost.py:224-246 | later dates never lose the card nor go back to an earlier one, across name forms |
| Pricing.GetIsStep | src/krepis/cost.py:224-246 | between the dates of its cards the answer does not change |
| Pricing.ComputeCost | src/krepis/cost.py:524-550 | the loop over tool requests: tokens plus fees, or an error when a requested tool has no fee |
| Pricing.CostIsAdditive | src/krepis/cost.py:524-550 | pricing the summed counts of any number of attempts gives the sum of their costs |
| Pricing.PerMillion | src/krepis/cost.py:524-536 | a million tokens of a class cost the card's rate for that class, 1-hour cache writes the 5-minute rate when the card has no other |
| Pricing.PerThousand | src/krepis/cost.py:537-550 | a thousand requests of one tool cost its fee, and have no price without one |
| Pricing.NegativeCountsDoNotAdd | src/krepis/cost.py:538-541 | counts below zero would break that |

## Left out

- Lock objects as S3 stores them: JSON of a holder, its ISO stamps, client retries; each S3 request is one step that lands once or not at all.
- Spot launch details: the user-data check, request building, quota paging text, `classify_termination` and `relaunch_decision`; a kill during the second probe only loses that answer; overlapping invocations of one key.
- SpotLaunch.ClientTokenInjective: requires types and subnets without "|", as EC2 names are, because it is false of others (`TokenIdentifiesIff`); keys may contain it.
- CostSink.S3JsonlCostSink.Flush: single-threaded, and rows are taken to be printable; interleaved appends and flushes, and a flush that raises on a row that cannot be printed, are in `CostSinkSteps` and `CostSinkNumbers`.
- CostSinkSteps.OrderPreserved: for flushes that do not overlap, as stated in its requires; for others see `OverlapReorders`.
- Cost sink details: `_closed` is set and never read, `records_written` is updated outside the lock, `run_id` is defaulted onto the row, rows are abstract.
- LLM call details: prompt texts, schemas, parsing, routing, logging, cost records, backoff sleeps; whether an error text refuses the response format is one bit of the reply. An exception that carries no usage (a stream timeout, a transport error) loses the spend before it in the code and ends as `OtherError` here.
- StreamPump.NothingTakenLate: assumes that `queue.get` returns by its own deadline; without it see `AtMostOneLate`.
- Stream details: closing the stream after a timeout, the daemon thread's exit, the OpenAI accumulator.
- PromptSources.BindSources: an embedded section is assumed to carry the spans `render_sources` gave it; the type errors for other arguments are not modelled.
- Prompt details: content hashes, source kinds, `SourceBlock` validation, citation records, capture modes.
- StreakGate.StoredCounts: markers are absent or well formed; concurrent publishes of one condition are not modelled.
- DedupWindow.DeliveriesFarApart: sequential callers, a working store and a clock that does not go back, as stated in its requires; malformed markers are not modelled.
- Routing details: reading, caching and checking the published registry, muted topics, mutes, digests, SNS, the error for an unknown destination name, the text of reasons.
- Breakpoints.EnsureSpacing: no two messages share a content list and no two places share a block; content that is not a list is one block that cannot be marked, or none.
- Batch ids: the hash of an unregistered model is a parameter; the model for a tag given twice is the last one.
- Pricing.GetIsLastActive: the two suffix patterns are not modelled; the stripped names are parameters and may be anything.
- Pricing.CostIsAdditive: in exact arithmetic, for request counts that are not negative and one card; rounding of floats is not modelled.
- Easy parts: configuration, secrets caches, metrics, HTTP retries, `diff_conditions`, `recompute_cost`, message formatting, command lines.
