# A verified model of tsa-bench

tsa-bench sends timestamp requests to a timestamping authority at a planned
rate, within a budget that cannot be refunded, and reports latencies. This
project models the parts of it on which the measurements and the budget rest,
and proves what they promise:

- the **run engine**: one issuing goroutine walking the stages, any number of
  workers, a cancel signal, a circuit breaker, a lock-free budget, a collector
  and a final drain (`RunEngine`, `RunAccounting`, `RunOutcome`, `RunBreaker`,
  `RunEnding`, `RunGuard`, `RunQuota`, `RunAccepted`, `RunPaths`, `RunSlots`,
  `RunExamples`, `Quota`, `Breaker`, `Profile`, `Collector`);
- the **arrival scheduler** against an adversarial clock (`Scheduler`);
- the **latency histogram**: its layout, its percentiles against sorted
  samples, and a lock-free `Record` racing a snapshot (`HistogramLayout`,
  `Histogram`, `HistogramRace`);
- **digest authentication** (RFC 7616, sections 3.3 and 3.4, with the
  quoted-string of RFC 7230, section 3.2.6): header text, shared state, the
  client, and the mock server it is exercised against (`DigestText`,
  `DigestParams`, `DigestHeader`, `DigestExchange`, `DigestWire`,
  `DigestState`, `MockServer`, `Authenticator`, `Traffic`, `SingleUse`).

`Fold` and `Common` hold what these share. `dafny verify dfyconfig.toml` checks
everything.

## How things are modelled

Code that changes state step by step is a class or a method with the same
fields and loops, proved against a specification on values; the properties are
then proved about the specification. Where several goroutines meet, the code is
a transition system: one step for each atomic operation or locked section, any
number of participants, and theorems over every finite run
(`Executes(s, events, t)`). Atomics are sequentially consistent.

Times are integer nanoseconds, rates and error rates exact fractions.
Percentiles are compared in integers (`100 * count >= q * total`). Hash
functions are arbitrary functions from text to text; where a result needs one
to be free of collisions, it says so. Random nonces and session identifiers are
the values of a `Source` that never repeats and is never empty. What the network
answers, how long things take, and whether an attempt succeeds are chosen freely
by the environment.

## Where the code gives less than its documentation

Each of these has a lemma with a concrete case and one that says exactly what
does hold.

- The histogram documents a precision of 1/2048 of the value
  (`internal/metrics/histogram.go:16-20`). It is 1/1024: `WidthIsOneIn1024`,
  `UpperBoundErrorExample`.
- A reported percentile can exceed the exact maximum: `PercentileAtMostMax` has
  the condition, `PercentileAboveMaxExample` the case.
- "No issue after the budget closes" (`internal/load/quota.go:13-16`) fails for a
  call that was past the check when it closed: `GrantAfterCloseExample`. Once
  closed, a unit can still be granted if and only if such a call remains and a
  unit is left: `LateGrantPossible`. Calls that begin later always fail:
  `CloseStopsIssuance`. In a whole run there is at most one late unit:
  `AtMostOneLate`.
- In-flight requests can exceed `MaxConcurrency`, by one and never more. An
  accepted profile can do so if and only if one of its sequential stages comes
  after rate stages that together plan at least `MaxConcurrency` requests:
  `InFlightExceedsSlotsExactly`, with the case in `InFlightExceedsSlots`.
- A nonce count is not unique per nonce (`internal/config/digest.go:47-49`), for
  two reasons. A worker may read a challenge before another is installed and
  count after it: `RepeatedPairExample`. And two workers told of the same stale
  nonce install its successor one after the other, each starting the count over:
  `ReinstalledPairExample`. In any run, two requests repeat a nonce and count
  exactly when they stand at the same place after different resets of the
  counter: `PairRepeats`. In a run without the first cause, none repeat if and
  only if no nonce is drawn from under two installations: `PairsUnique`.
- "A profile validate accepts cannot be rejected by run"
  (`internal/config/config.go:314-318`) needs the requested number to cover the
  plan: `ValidatedProfileRuns` (if and only if), `ValidatedButRejectedExample`.
- The mean is wrong once the 64-bit sum wraps, and exact until then:
  `MeanExactUntilWrap`. 2 562 048 samples of an hour, which the configurable cap
  allows, are the fewest to do it, and their mean is reported as negative:
  `MeanWrapsExample`.
- A run can be reported as out of quota with budget left: `QuotaBlamedExample`. It
  is if and only if its last stage was cut down to the budget and then
  interrupted; otherwise the budget is used up: `QuotaExhaustedMeans`.

## Model

| member | source | states |
|---|---|---|
| HistogramLayout.MagnitudeCoversFigures | internal/metrics/histogram.go:49-73 | the sub-bucket magnitude is the smallest that resolves three significant figures |
| HistogramLayout.ClampExact | internal/metrics/histogram.go:80-88 | values from 0 to an hour are recorded as they are, smaller ones as 0, larger ones as an hour |
| HistogramLayout.BucketIndexRange | internal/metrics/histogram.go:122-124 | bucket 0 is everything below 2048 and every later bucket b lies within 1024·2^b and 2048·2^b |
| HistogramLayout.CountsIndexInBounds | internal/metrics/histogram.go:114-120 | every clamped value has a counter: the array access cannot fail |
| HistogramLayout.CountsIndexMonotone | internal/metrics/histogram.go:114-120 | a larger value never lands in an earlier counter |
| HistogramLayout.CountsIndexOfValueAt | internal/metrics/histogram.go:127-135 | valueAt is inverted by countsIndex at every index |
| HistogramLayout.BucketsTile | internal/metrics/histogram.go:139-145 | where one counter's range ends the next begins: no gap, no overlap |
| HistogramLayout.ValueInItsBucket | internal/metrics/histogram.go:126-145 | every value lies between the bounds its counter stands for |
| HistogramLayout.WidthIsOneIn1024 | internal/metrics/histogram.go:16-24 | the documented width of 1/2048 holds for no value; 1/1024 holds exactly from 1024 on, below 2048 counters are exact |
| HistogramLayout.UpperBoundError | internal/metrics/histogram.go:137-145 | the reported upper bound overshoots the value by at most 1/1024 of it |
| HistogramLayout.UpperBoundErrorExample | README.md:290-294 | at 4096 the reported bound is 4099, more than the documented 1/2048 off |
| HistogramSpec.FirstReachingIsRankedSample | internal/metrics/histogram.go:161-204 | the scan stops at a bucket for q percent if and only if it is the bucket of the sample of rank ceil(qn/100) in sorted order |
| HistogramSpec.RankIsLeast | internal/metrics/histogram.go:161-204 | the rank is the least number of samples that makes up q percent |
| HistogramSpec.PercentileBounds | internal/metrics/histogram.go:161-204 | a reported percentile is at or above the ranked sample and at most 1/1024 of it above |
| HistogramSpec.PercentilesOrdered | internal/metrics/histogram.go:161-204 | higher percentiles are never reported lower |
| HistogramSpec.PercentileAtMostMax | internal/metrics/histogram.go:161-204 | a percentile stays within the exact maximum if and only if its sample has an earlier bucket or the maximum tops its bucket |
| HistogramSpec.PercentileAboveMaxExample | examples/sample-run/summary.json:79-80 | one sample of 4096 ns is reported with a percentile above the maximum |
| HistogramSpec.MeanExactUntilWrap | internal/metrics/histogram.go:161-204 | the mean reported of a recorded sequence is the exact truncated quotient if and only if the sum of its clamped values fits 64 bits |
| HistogramSpec.MeanWrapsExample | internal/config/config.go:156-159 | 2 562 048 samples of an hour, within the configurable cap, are reported with a negative mean; one fewer with the exact one |
| Histogram.Histogram.constructor | internal/metrics/histogram.go:49-73 | the doubling loop allocates exactly the counters an hour needs, and the result stands for no samples |
| Histogram.Histogram.Record | internal/metrics/histogram.go:80-106 | the fields stand for the recorded values with one more: counts, total, wrapped sum, exact minimum and maximum, overflows |
| Histogram.Histogram.TakeSnapshot | internal/metrics/histogram.go:161-204 | the four percentiles are those of every sorted permutation of the clamped samples, the other fields are exact; with every value in range the snapshot describes the recorded values themselves |
| Histogram.SnapshotDescribes | internal/metrics/histogram.go:161-204 | of values in range: minimum and maximum are the least and greatest recorded, the mean is their exact mean unless the sum wraps, and each percentile is at or above the recorded value of its rank by at most 1/1024 of it |
| Histogram.ScanSettles | internal/metrics/histogram.go:175-203 | a scan that ends, or breaks off early, has settled all four percentiles on the samples the sorted reference ranks |
| Histogram.RecordRepresents | internal/metrics/histogram.go:80-106 | the separate updates of Record together add exactly one value to what the fields stand for |
| HistogramRace.RacingSnapshotSettles | internal/metrics/histogram.go:161-203 | for any number of Record calls racing a scan, the scan settles all four percentiles itself and the fallback never runs; each lies between what the counts before and after give |
| HistogramRace.TotalBehindBuckets | internal/metrics/histogram.go:89-91 | at every moment the total is at most the sum of the buckets |
| HistogramRace.BetweenAtRest | internal/metrics/histogram.go:161-203 | without a race the bounds of a racing scan meet in the bucket of a scan at rest |
| HistogramRace.QuiescentRepresents | internal/metrics/histogram.go:80-106 | when all calls have returned no update is lost in any interleaving, the compare-and-swap minimum and maximum included |
| QuotaSpec.ClampMakesCapRedundant | internal/load/quota.go:31-36 | with the constructor's clamp, the hard-cap test of Acquire never decides anything |
| Quota.Quota.constructor | internal/load/quota.go:31-36 | a fresh quota is open, unused, and never larger than the hard cap |
| Quota.Quota.Remaining | internal/load/quota.go:48-54 | used plus remaining is the budget |
| Quota.Quota.Acquire | internal/load/quota.go:67-83 | under any interference a grant is the next unit within the budget; a call on a closed quota takes nothing; retries are at most what others were granted meanwhile |
| QuotaRace.NeverOverIssues | internal/load/quota.go:56-83 | for any number of callers, used never exceeds budget or cap and the numbers granted are exactly 1..used, each to one caller |
| QuotaRace.RetriesBounded | internal/load/quota.go:67-83 | a caller's failed swaps never outnumber the units granted to others since it entered the loop: for one granted unit n, the units between |
| QuotaRace.CloseStopsIssuance | internal/load/quota.go:56-83 | an Acquire that begins after Close fails; later grants are at most the calls already past the check when it closed |
| QuotaRace.ClosedGivesNoMore | internal/load/quota.go:56-83 | from any moment at which the quota is closed, calls that begin later take nothing, and at most as many units are granted as calls are past the check |
| QuotaRace.LateGrantPossible | internal/load/quota.go:67-83 | on a closed quota a further unit can be granted if and only if some call is past the check and a unit is left |
| QuotaRace.GrantAfterCloseExample | internal/load/quota.go:13-16 | a run in which a unit is granted after Close |
| BreakerSpec.TrippedLatches | internal/load/breaker.go:57-94 | no later outcomes undo a trip |
| BreakerSpec.WindowSlides | internal/load/breaker.go:57-94 | the window after one more outcome is the old one without its oldest outcome |
| BreakerSpec.TripsExactly | internal/load/breaker.go:57-94 | the breaker trips if and only if the history has somewhere the configured number of failures in a row, or a full window with at least the configured share of failures |
| BreakerSpec.DisabledNeverTrips | internal/load/breaker.go:52-54 | a breaker with both thresholds off never trips on any history |
| Breaker.Breaker.constructor | internal/load/breaker.go:34-44 | a window below one outcome is raised to one; nothing has happened yet |
| Breaker.Breaker.Record | internal/load/breaker.go:57-94 | it reports a trip exactly when some prefix of the whole history met a threshold, the rate only on a full window |
| Breaker.Breaker.Slide | internal/load/breaker.go:57-94 | the ring holds the last outcomes, and both counters are exact for it |
| Breaker.RingSlides | internal/load/breaker.go:57-94 | overwriting one slot of the ring drops the oldest outcome and appends the newest |
| Profile.PlannedExactly | internal/load/profile.go:47-52 | a sequential stage plans its count; a rate stage plans n with n <= rate x duration < n + 1 |
| Profile.TotalPlanned | internal/load/profile.go:55-61 | the total is what the stages ask for, short of it by less than one request a stage and never above it |
| Profile.PlanMeetsDemand | internal/load/profile.go:55-61 | counts and rates times durations, summed over the stages, exceed the plan by less than one request a stage |
| Profile.Validate | internal/load/profile.go:82-133 | it accepts exactly the valid profiles |
| Profile.PlanCoversStages | internal/load/profile.go:82-133 | a valid profile plans at least one request for every stage |
| Profile.BudgetWithinLimits | internal/config/config.go:319-337 | a valid configuration refuses exactly the requests above either limit; what it yields is what was requested, or the largest that could have been |
| Profile.ValidatedProfileRuns | internal/config/config.go:310-337 | what validate accepts, run accepts if and only if the requested number covers the plan and stays within the ceiling |
| Profile.ValidateIsRunByDefault | internal/config/config.go:310-337 | without a requested number the two commands decide alike |
| Profile.ValidatedButRejectedExample | internal/config/config.go:314-318 | a profile validate accepts and run rejects |
| Profile.AcceptedFits | internal/load/profile.go:137-152 | an accepted plan is within budget and cap with the reserve to spare |
| Profile.CheckedExactly | internal/load/profile.go:137-152 | a profile is accepted if and only if its plan is within the limit, and within the cap together with its reserve |
| Profile.EngagementFitsExactly | profiles/50k.yaml:19-52 | the 50k profile plans 48 600 and fits a cap if and only if it is at least 50 000 |
| SchedulerSpec.ScheduleExact | internal/load/scheduler.go:67-128 | the n-th ideal time is within a nanosecond of exact, for every n: rounding does not accumulate |
| SchedulerSpec.ScheduleStep | internal/load/scheduler.go:49-52 | consecutive ideal times are one interval apart, rounded up at most once |
| SchedulerSpec.ReleasesSpaced | internal/load/scheduler.go:80-126 | releases j and k are at least (k-j) gaps apart under any clock stalls and any blocking in emit |
| SchedulerSpec.HandOffsSpaced | internal/load/runner.go:300-343 | after waiting for a worker slot, hand-offs are still at least (k-j-1) gaps apart |
| SchedulerSpec.FloorIsHalf | internal/load/scheduler.go:31-37 | twice the floor is the interval or a nanosecond less |
| SchedulerSpec.FollowsIsPaced | internal/load/scheduler.go:67-128 | in terms of the rate alone: every scheduled time is exact to a nanosecond, no release is early, and any two releases are at least half the time apart that the rate gives the arrivals between them, less a nanosecond an arrival |
| SchedulerSpec.WindowBounded | internal/load/scheduler.go:80-126 | any window of length W sees at most W/gap + 2 hand-offs |
| SchedulerSpec.WindowByTheRate | internal/load/scheduler.go:80-126 | a window of length W sees at most two hand-offs more than twice the rate times W, give or take a nanosecond an arrival |
| SchedulerSpec.NeverEarly | internal/load/scheduler.go:67-128 | no release precedes its ideal time, so the clamp on lag hides nothing |
| SchedulerSpec.LagRecovers | internal/load/scheduler.go:23-37 | k timely ticks after a lag of L the lag is at most max(d, L - k(interval - gap - d)) |
| SchedulerSpec.TimelyFromTheStart | internal/load/scheduler.go:75-126 | a timely run is never more than d late |
| SchedulerSpec.CatchUpFactorRecovers | internal/load/scheduler.go:23-37 | with the scheduler's constant, any lag is recovered for wake-ups up to half an interval late |
| SchedulerSpec.FullIntervalNeverRecovers | internal/load/scheduler.go:23-37 | with a gap of a whole interval, at any rate, lag falls by at most a nanosecond a tick in any run, and never when the period is a whole number of nanoseconds |
| SchedulerSpec.FullIntervalRatchets | internal/load/scheduler.go:23-37 | at any rate such a scheduler has timely runs, each wake-up any fixed time late, whose lag passes every bound |
| Scheduler.Run | internal/load/scheduler.go:67-128 | whatever the environment does, the releases follow the absolute schedule and are paced by the rate, all of them unless cancelled or refused, refused exactly when emit failed, and the sleeps are those of the slots not yet due |
| RunAccounting.AccountingAlways | internal/load/runner.go:276-371 | in every interleaving used - sent is 0 or 1, workers hold at most the configured slots, at most one more request is in flight, and nothing is filed that was not sent |
| RunAccounting.AccountedAfterDrain | internal/load/runner.go:524-568 | after a drain that succeeded used, sent, completed, success + failure, error classes and histogram samples agree, successes and failures are the attempts that succeeded and failed, and rows written plus rows the sink lost are that number, with at most one guard row |
| RunAccounting.RunKeepsInv | internal/load/runner.go:253-371 | the accounting invariant survives every step of every run |
| RunGuard.GuardRowExactly | internal/load/runner.go:347-355 | a finished run has one quota-guard row if a unit was refused or a stage cut down stopped it, and none otherwise |
| RunOutcome.OutcomeMeans | internal/load/runner.go:215-248 | completed means every planned request was issued, signal that the run was cancelled, auto_abort that the breaker tripped, and not partial means completed and drained |
| RunQuota.QuotaExhaustedMeans | internal/load/runner.go:134-203 | quota_exhausted means the plan exceeds the budget, and completed that it does not; a unit is left over if and only if the last stage was cut down and then interrupted |
| RunExamples.QuotaBlamedExample | internal/load/runner.go:185-194 | a run interrupted in a stage that was cut down is reported as out of quota although it sent nothing |
| RunOutcome.AtMostOneLate | internal/load/runner.go:276-355 | after a stop or a cancellation the issuer takes at most one further unit |
| RunEnding.AtMostOneMore | internal/load/runner.go:276-355 | from any moment at which the run is stopped or cancelled, at most one further unit is taken |
| RunEnding.CancelledNeverComplete | internal/load/runner.go:215-248 | a run cancelled before it is over is reported partial, never as completed |
| RunEnding.FailedPrimeEndsRun | internal/load/runner.go:122-131 | without a first challenge the run ends with an error, partial, nothing taken and nothing sent |
| RunOutcome.AbortIsTheBreakers | internal/load/runner.go:361-371 | an abort is reported only when the breaker tripped on the outcomes filed, and a trip always stops the run |
| RunBreaker.BreakerSeesOutcomes | internal/load/runner.go:361-375 | in every reachable state the breaker has seen the outcome of each attempt past it, failures as failures, and none that the run cancelled itself |
| RunBreaker.FailuresAbort | internal/load/runner.go:361-371 | once the outcomes filed have the configured failures in a row, or a window with the configured share of them, and the attempts have returned, the run is stopped; and only such outcomes abort one |
| RunBreaker.DeadProviderStopsRun | internal/load/runner.go:361-371 | when every attempt fails, a run is stopped as soon as the configured number of them have returned, and is never reported complete |
| RunBreaker.StopIsReported | internal/load/runner.go:215-248 | a run that was stopped is reported partial, and neither as completed nor as interrupted unless the drain was cut off |
| RunOutcome.FirstStopIsReported | internal/load/runner.go:570-584 | the reason of the first stop is never replaced and is the one reported |
| RunOutcome.FirstStopOfARun | internal/load/runner.go:570-584 | from the start of any run, the reason in force at any moment before the outcome is read is the one reported |
| RunAccepted.AcceptedSetupFits | internal/load/profile.go:137-152 | the setup run builds from an accepted profile leaves room for every stage |
| RunAccepted.AcceptedNeverShort | internal/load/runner.go:134-248 | no stage of an accepted profile is truncated, the only stop is the breaker's, and a unit is refused only after it |
| RunAccepted.AcceptedOutcome | internal/load/runner.go:101-249 | an accepted run that is not partial issued, filed and wrote exactly its plan; it never ends for lack of quota |
| RunSlots.InFlightExceedsSlotsExactly | internal/load/runner.go:276-343 | with a breaker as NewBreaker leaves it, an accepted profile can have more requests in flight than slots, by one, if and only if a sequential stage follows rate stages that plan at least as many requests as there are slots |
| RunSlots.OverflowNeeded | internal/load/runner.go:276-343 | in every run within the budget, more in flight than slots needs such a stage |
| RunSlots.ReachesStage | internal/load/runner.go:253-343 | every stage can be reached with as many rate requests in flight as the stages before it plan and the slots allow |
| RunExamples.InFlightExceedsSlots | internal/load/runner.go:276-297 | a valid, accepted profile with one slot that can have two requests in flight |
| Collector.SeriesOnlyGrows | internal/metrics/collector.go:302-322 | concurrent growth never loses or moves a per-second bucket |
| Collector.SecondsSumToOverall | internal/metrics/collector.go:325-345 | with no call in progress the per-second rows add up to the totals of the run |
| Collector.StagesSumToOverall | internal/metrics/collector.go:228-298 | with no call in progress the stages add up to the totals of the run, in every field |
| Collector.VerdictsAddUp | internal/metrics/collector.go:268-298 | completed is success plus failure and the number of samples; timeouts are failures |
| Collector.FinishedPerformed | internal/metrics/collector.go:252-298 | a finished call counted once in its stage, once in the run and once in its second |
| Collector.EveryFilingCounted | internal/metrics/collector.go:252-298 | with no call in progress every counter of every stage, of the run and of every second reads the number of filings of its kind, in every interleaving |
| DigestText.UnescapeEscape | internal/config/digest.go:233-245 | unquoting undoes quoting for every text |
| DigestText.UnescapeKeeps | internal/config/digest.go:233-245 | a backslash that stands before neither a quote nor a backslash means nothing |
| DigestText.TrimExact | internal/config/digest.go:263-291 | trimming drops the space at both ends, all of it, and nothing else |
| DigestText.IndexOfTextExact | internal/config/digest.go:263-291 | the scheme is found at its first occurrence, and missed only where there is none |
| DigestText.SplitDigestParams | internal/config/digest.go:296-322 | the flag-driven loop computes the specified pieces |
| DigestText.SplitExact | internal/config/digest.go:296-322 | the pieces give the text back, no cut falls inside a quoted value, and no separating comma is left uncut |
| DigestParams.ParseDigestChallenge | internal/config/digest.go:263-291 | the loop computes the specified parameters or error |
| DigestParams.ParsePrinted | internal/config/digest.go:263-291 | any list of well-formed parameters, whatever their values, parses back to itself |
| DigestParams.ParseWritten | internal/config/digest.go:263-291 | parameters with keys in any case parse to those parameters under their keys in lower case |
| DigestParams.ParseAmongSchemes | internal/config/digest.go:263-291 | so they do with the scheme in any case and other schemes in front of it |
| DigestParams.ParseNeedsScheme | internal/config/digest.go:263-291 | a header that nowhere spells the scheme is refused |
| DigestHeader.NonceCountInjective | internal/config/digest.go:151-165 | two nonce counts print alike if and only if they are equal |
| DigestHeader.NonceCountExact | internal/config/digest.go:151-165 | a count is printed as itself in lower-case hexadecimal, padded with zeros to eight digits and no further |
| DigestHeader.FirstNonceCount | internal/config/digest.go:329-339 | the literal of the per-request mode is the count 1 as the shared mode prints it |
| DigestHeader.HeaderIsPrinted | internal/config/digest.go:170-210 | the header built piece by piece is the printed list of its parameters |
| DigestExchange.HeaderRoundTrip | internal/config/digest.go:170-210 | parsing the printed header gives back every parameter, for all texts with any commas, quotes and backslashes |
| DigestExchange.AnswerReadsBack | internal/config/digest.go:96-133 | the answer to any challenge text the client accepts reads back as meant |
| DigestWire.ResponseOnTheWire | internal/config/digest.go:170-210 | to any challenge the client accepts it answers with H(H(user:realm:password):nonce:nc:cnonce:auth:H(method:uri)), H being SHA-256 if the challenge names it and MD5 otherwise; without qop with H(H(user:realm:password):nonce:H(method:uri)); and the header carries all the server needs to check it |
| DigestExchange.ChallengeReads | internal/config/digest.go:96-133 | of all challenges a server may write, the client accepts exactly those it can answer, and reads them as meant |
| DigestWire.ChallengeReadsExactly | internal/config/digest.go:96-133 | a challenge of any content is accepted if and only if it has a realm and a nonce, names no algorithm but MD5 and SHA-256 in any case, and has the entry auth in its qop list if it has one |
| DigestWire.OffersAuthExactly | internal/config/digest.go:120-127 | a list offers auth if and only if that word, with nothing but space around it, stands between commas or ends |
| DigestWire.QopExamples | internal/config/digest_test.go:120-141 | auth among others is offered, auth-int alone is not |
| DigestWire.SupportedExactly | internal/config/digest.go:103-112 | no algorithm, MD5 and SHA-256 are supported, in any letter case, and nothing else |
| DigestExchange.AcceptedChallengeIsAnswerable | internal/config/digest.go:212-221 | an accepted challenge has a printable algorithm, and the hash used is the one it names |
| DigestExchange.SessionIsUnsupported | internal/config/digest.go:103-110 | the separate test for session variants changes the message, not what is accepted |
| DigestExchange.SplitOnExact | internal/config/digest.go:122-127 | splitting a qop list loses nothing and leaves no comma |
| DigestExchange.ChallengeRoundTrip | internal/mock/digest.go:196-217 | the client reads back what the mock server writes, for every nonce, and calls it stale exactly when it was marked so |
| DigestWire.StaleExactly | internal/config/digest.go:135-147 | a challenge is stale if and only if it comes with a 401 and its last stale parameter, quoted or bare, says true in any letter case |
| DigestWire.UnmarkedIsNotStale | internal/config/digest.go:135-147 | a challenge with no such parameter is not stale |
| DigestWire.ServerChecksExactly | internal/mock/digest.go:178-188 | the server asks for its own user and the MD5 response of RFC 7616 for its own password and what the header says |
| DigestExchange.AnswerAccepted | internal/mock/digest.go:178-188 | the server's check matches the client's answer for equal credentials and, if MD5 has no collisions, only for them |
| DigestExchange.LegacyAnswerMatches | internal/mock/digest.go:178-188 | without qop the older form is sent, with neither count nor client nonce, and matches too |
| DigestExchange.ExchangeSucceeds | internal/config/digest.go:329-339 | challenge, answer and check succeed from end to end |
| DigestState.DigestState.constructor | internal/config/digest.go:30-48 | no challenge, nothing cached |
| DigestState.DigestState.SetChallenge | internal/config/digest.go:64-81 | a header that cannot be answered changes nothing; one that can is installed with its own hash and a new count |
| DigestState.DigestState.ApplyDigest | internal/config/digest.go:151-165 | nothing is sent without a challenge; with one the next count is spent, and the header is the one the password itself would give |
| DigestState.DigestState.Ha1For | internal/config/digest.go:345-364 | cached or not, the result is the hash for this challenge |
| DigestState.DigestState.AuthorizeOnce | internal/config/digest.go:329-339 | the header depends on the challenge alone; the shared challenge and count stay as they are |
| DigestRace.CacheNeverMisleads | internal/config/digest.go:345-364 | in every interleaving of lock sections the cache holds the hash for its realm and algorithm, and each result is the hash for its own challenge |
| DigestRace.CountsHaveNoGapOrRepeat | internal/config/digest.go:64-81 | the counts drawn between two resets are 1..k in order |
| DigestRace.PairRepeats | internal/config/digest.go:151-165 | in any run two draws repeat a nonce and count if and only if they answer one nonce at the same place after different resets |
| DigestRace.PairsUnique | internal/config/digest.go:151-165 | with no straddling draw, no nonce and count repeat if and only if no nonce is drawn from under two installations |
| DigestRace.DrawsCarryTheirHash | internal/config/digest.go:151-165 | a draw carries the hash of its challenge unless the cache was used for another realm or algorithm |
| DigestRace.RepeatedPairExample | internal/config/digest.go:47-49 | a straddling draw repeats a nonce and count already sent |
| DigestRace.ReinstalledPairExample | internal/config/digest.go:61-81 | two workers racing on one stale nonce install the same challenge and repeat a nonce and count with no draw straddling anything |
| MockServer.Server.Consume | internal/mock/digest.go:83-92 | a nonce is spent exactly when its session holds it |
| MockServer.Server.IssueSession | internal/mock/digest.go:70-79 | a new session with a nonce of its own |
| MockServer.Server.Authorised | internal/mock/digest.go:104-144 | reply and new state are the specified ones, in both modes and on every refusal |
| MockServer.Server.AuthorisedSingleUse | internal/mock/digest.go:149-176 | the same for the single-use checks |
| MockSpec.SharedAnswerMeets | internal/mock/digest.go:104-144 | the right account is served on the current nonce, and on any other told that it is stale |
| MockSpec.SingleUseAnswerMeets | internal/mock/digest.go:149-176 | a first use of a session's nonce is served and spends it; anything later is challenged anew |
| MockSpec.WrongAccountSpendsNothing | internal/mock/digest.go:104-194 | a wrong account is challenged with the current nonce, never told that its own is stale, and spends no nonce, no session and no part of a lifetime |
| MockSpec.ServesExactly | internal/mock/digest.go:104-188 | a request is served if and only if it names the scheme and the user, proves the password on its nonce, and that nonce is the current one or, in the single-use mode, the one its only session holds |
| MockSpec.ReplacedExactly | internal/mock/digest.go:104-144 | the shared nonce is replaced if and only if a request is served that completes its lifetime |
| LifetimeSpec.WhereItStands | internal/mock/digest.go:104-144 | after k timestamps the server has served k mod n on its nonce, and the client is behind exactly after every n-th |
| LifetimeSpec.LifetimeCost | internal/transport/auth.go:171-216 | k timestamps on a nonce good for n cost 1 + (k-1)/n authentication requests |
| Authenticator.Authenticator.constructor | internal/transport/auth.go:62-70 | nothing sent, nothing counted |
| Authenticator.Authenticator.Prime | internal/transport/auth.go:83-95 | one request is spent exactly when the shared mode has no challenge yet, and its answer is installed |
| Authenticator.Authenticator.DrawChallenge | internal/transport/challenge.go:22-59 | one request for a well-formed endpoint, and a result only from a 401 with a challenge |
| Authenticator.Authenticator.Authorize | internal/transport/auth.go:103-120 | the shared mode never fails and sends nothing; the per-request mode spends one counted request |
| Authenticator.Authenticator.RetryStale | internal/transport/auth.go:129-140 | only a stale 401 in the shared mode is answered, and only a successful answer is counted |
| Authenticator.Authenticator.PostTimestamp | internal/transport/auth.go:171-216 | on every path requests sent equal requests counted plus first builds that succeeded; at most one request is sent twice; against the mock server it is accepted |
| Authenticator.SendAll | internal/transport/auth.go:171-216 | k timestamps of a sequential client are all accepted, at a cost of 1 + (k-1)/n authentication requests |
| Traffic.TrafficConserved | internal/transport/auth.go:83-147 | for any number of workers on one authenticator, at every moment requests sent differ from those counted plus first builds by at most the calls under way, and agree when none is; a malformed endpoint is sent nothing |
| Traffic.CostOfCall | internal/transport/auth.go:171-216 | a finished call sent one request for its timestamp if it was built, and at most one more, which it counted |
| SingleUse.EveryExchangeAccepted | internal/transport/auth.go:103-120 | in every interleaving of any number of clients each exchange is accepted, and no client, resending or intruder spends another's nonce |
| SingleUse.NeverAcceptedTwice | internal/mock/digest.go:149-176 | no session and nonce are accepted twice, and acceptances are exactly the exchanges that ended |

## Left out

- Floating point: rates, percentiles, planned counts and error rates are exact, so rounding of the original is not modelled.
- 64-bit wrap-around of counters other than the histogram's sum, and of the nonce counter.
- Unicode: letter case and white space beyond U+00FF, and headers that are not valid UTF-8.
- Request building and response verification (`internal/tsp`), HTTP, TLS, DNS and cookies other than the session cookie: an attempt is a step with a freely chosen verdict, a request to the network one with a freely chosen answer.
- The mock server's session-bound mode and its injected faults.
- Reports, configuration parsing, redaction, resource sampling and the command line.
- Which second of a run a time falls in, and which stage object belongs to a stage: the collector's calls are given both.
- How long a stage pauses, what is logged, and the send window of a stage (`markSent`).
- Histogram.Histogram.Record: its compare-and-swap loops run uncontended here; contention is in HistogramRace.
- HistogramRace.RacingSnapshotSettles: one snapshot per run; minimum, maximum and mean of a snapshot taken during recording are not claimed, because the code does not give them.
- Quota.Quota.Acquire: other callers are an interference step that may grant units and close the quota between any two operations; the callers themselves are in QuotaRace.
- DigestRace.CacheNeverMisleads: an empty hash is treated as nothing cached, as the code does.
- Authenticator.Authenticator.PostTimestamp: one caller at a time, against a server or a network; concurrent callers are in Traffic, DigestRace and SingleUse.
- SingleUse.EveryExchangeAccepted: a resent request is a copy of one already accepted; a copy that overtakes its original is not modelled.
- RunAccounting.AccountedAfterDrain: rows the sink failed to write are counted as lost, since the code only logs them.
