# A verified model of syslogc's counting, paging, forwarding and session logic

syslogc receives logs, stores them in a log store, counts them per service for
trend charts, mirrors them to remote targets and answers queries. This project
models the parts of it whose correctness depends on order, failure and
concurrency, and proves what holds over every run of them. The clock, the
network, the stores, timers and scheduling appear as parameters, as methods
whose contracts leave every allowed answer open, or as events that may come in
any order.

- `RollupModel`, `Recorder`, `RollupRuns`, `RollupFractions`, `Catalog`,
  `ServiceCounts`: the service-trend rollup. A restartable scheduler cuts history
  into aligned windows, counts every service in two scopes, halves its queries when
  the log store refuses them, and saves how far it got. The log store may refuse any
  query, a write may store part of its samples before it fails, saving may fail,
  and the logs change between runs. Every such fault is counted, so that the
  contracts say both what a fault leaves and that nothing fails without one. The
  main results are `Recorder.Recorder.Run`, `RollupRuns.RecordedForGood`, `RollupFractions.FrozenIffWholeSeconds` and
  `ServiceCounts.StoredMainBelowFull`.
- `Pagination`: pages of logs cut at groups of equal timestamps.
  `Pagination.WalkIsTheSelection` says when following cursors gives the whole
  selection, and `Pagination.SearchService.ReadAll` that they lead to the end.
- `LogEntry`, `Forwarder`, `ForwarderSafety`, `ForwarderTheorems`,
  `ForwarderDelivery`, `ForwarderLimits`, `ForwarderOvershoot`: one forwarder as a
  step machine. `Forward` is split into entering, two limit checks, the channel
  send and two counter updates; the sender into receiving, filling, writing and
  taking off; `Stop` into closing, cancelling and returning. The theorems hold for
  any number of producers and any interleaving: what is accounted for, which
  messages are taken, when none is lost, and that calls, the sender and Stop always
  come to an end.
- `Registry`, `RegistryRuns`: the set of forwarders under Start, Reconcile and
  Stop.
- `Sessions`, `SessionRaces`, `SessionOverlap`: login sessions, first with calls
  one after another, then with overlapping calls whose reads and writes
  interleave.
- `Slots`, `Cache`, `Charts`, `Histogram`, `Coverage`, `Rates`, `Tally`: query
  slots, the TTL cache, chart grids, histogram merging and interval unions.
- `Utf8`, `Normalization`, `Text`, `Sizes`, `Base64Url`, `UrlText`: UTF-8 safe
  limits (sections 3 and 4 of RFC 3629), printers and parsers that undo each
  other, and base64url (section 5 of RFC 4648).
- `Clock`, `Sorting`, `Picking` and `Wrappers` hold time arithmetic, the sorts,
  what it means to leave out some items of a list, and the option type.

Instants are integer nanoseconds since Go's zero time, so truncating to a step
is rounding down to a multiple.

## Where the code and its documentation differ

The model follows the code.

- A service's main counts are documented as a part of its full ones
  (`catalog.go:289-300`). A main domain whose normal form is empty passes
  validation and leaves no phrase, and a category without phrases matches
  everything (`storage.go:145-147`). `ServiceCounts.MainNeverExceedsFull` and
  `ServiceCounts.SamplesBelowIffComparable` give the exact condition;
  `ServiceCounts.OddStaysValid` makes a counterexample of any valid service whose
  domains leave a phrase and that has room for one more domain.
- Progress of the rollup is stored without fractions of a second
  (`store.go:87-98`), while the configuration accepts a base of 112.5 seconds
  (`validate.go:76-83`, `RollupFractions.AcceptedWithFraction`). A recorded window
  can then be counted again and overwritten (`RollupFractions.WindowIsCountedTwice`).
  For every base of at least a second `RollupFractions.FrozenIffWholeSeconds`,
  `AlignedIffWholeSeconds` and `ExactIffWholeSeconds` say that recorded history,
  window boundaries and stored progress are safe if and only if every resolution
  is a whole number of seconds.
- `recorder.go:416-426` says that logs older than the retention period are never
  counted. A negative backfill switches that bound off
  (`RollupModel.RetentionIffNoNegativeBackfill`); the configuration refuses one
  (`validate.go:87-89`).
- `registry.go:76-79` says that Reconcile replaces targets whose settings
  changed. The name of a rebuilt target counts as kept, so the forwarder it
  replaces is neither current nor stopped, then or later
  (`RegistryRuns.ReplacedIsNotStopped`, `EveryForwarderEndsOneWay`,
  `ChangedTargetLeavesOneRunning`).
- A second `Start` on a live registry starts its forwarders again
  (`RegistryRuns.StartedOnceUnlessRestarted`).
- `timerange.go:126` promises at most maxBuckets buckets. An unaligned range can
  get one more; `Charts.GridSizeAtMost` is the exact condition and
  `Charts.OneBucketTooMany` an example.
- The queue limits of a forwarder are exceeded when producers check together.
  `ForwarderLimits.LimitsHoldUpToTheCrowd` bounds by how much,
  `ForwarderOvershoot.OvershootIsReached` reaches that bound wherever earlier calls
  can leave room for exactly one of the heaviest groups, and there
  `ForwarderOvershoot.LimitKeptIffNoOverlap` says that the limit is kept if and
  only if calls do not overlap.
- Charts count weeks from Go's zero time. A log store that counts its buckets from
  the Unix epoch would put weeks elsewhere, and a chart of any one week would lose
  the row that holds its start (`Charts.WeekRowIsLost`); for every other step of
  the ladder both agree (`Charts.EpochBucketsAgree`).
- "Last seen within a minute of the last use" and "once expired never accepted
  again" hold for calls one after another. With overlapping calls the stored time
  can fall behind by a minute and the longest delay between reading the clock and
  writing, and no more (`SessionOverlap.StoredTimeTrails`, `LateTouchMovesBack`,
  `MinuteIffNoDelay`). A session reported expired can be accepted later
  (`SessionOverlap.ExpiredThenAccepted`); `SessionOverlap.NeverAgainIffOver` says
  exactly when it cannot. What holds for every interleaving without a condition is
  `SessionRaces.NoUseAfterIdleOrExpiry` and `SessionRaces.DeletedIsNeverLoaded`.
- A limit of zero means "none" to queries and "nothing" to exports
  (`Slots.NoLimitRefusesExports`).
- The Stop that finds a forwarder already closed returns at once and promises
  nothing; `ForwarderTheorems.StopAccountsForEverything` is about the Stop that
  closed it, and needs the sender to have been started.

## Model

| member | source | states |
|---|---|---|
| `RollupModel.AnswerRowsJoin` | backend/internal/servicetrends/recorder.go:552-576 | asking for two groups of services separately gives the rows of asking for both |
| `RollupModel.AnswerRowsSplit` | backend/internal/servicetrends/recorder.go:439-510 | asking for two adjoining aligned spans gives, as a multiset, the rows of the whole span, and as many |
| `RollupModel.ExpectedIsWindowSample` | backend/internal/servicetrends/recorder.go:511-527 | the expected sample of a key is the one an unsplit query for its own window yields |
| `RollupModel.OverwriteExpected` | backend/internal/metricstore/metricstore.go:124-127 | rewriting expected samples replaces, never accumulates, and changes nothing outside their windows |
| `RollupModel.ShrunkBounds` | backend/internal/servicetrends/recorder.go:477-508 | sizes stay at least one and within a factor of two of the start divided by the power of two |
| `RollupModel.ShrinkBudgetReachesFloor` | backend/internal/servicetrends/recorder.go:441-510 | twelve joint halvings reach one bucket with one service if and only if the start is below 8192 buckets and at most 4096 services |
| `RollupModel.WindowNamesOneStep` | backend/internal/servicetrends/recorder.go:629-638 | no two resolutions of a recorder share a window label |
| `RollupModel.StartOf` | backend/internal/servicetrends/recorder.go:406-434 | where counting starts is aligned and never before aligned saved progress |
| `RollupModel.RetentionIffNoNegativeBackfill` | backend/internal/servicetrends/recorder.go:697-706 | with a retention period, a run never counts from before it, whatever was recorded and whenever it comes, if and only if the backfill is not negative |
| `RollupModel.ResolutionsAre` | backend/internal/servicetrends/recorder.go:231-247 | without a choice of windows the base, the hour and the day are recorded, in this order; with one, exactly those chosen of the three |
| `RollupModel.StoredIsWhole` | backend/internal/servicetrends/store.go:87-98 | stored progress has no fractions of a second, and storing changes nothing if and only if there were none |
| `Recorder.Querier.CategoryCounts` | backend/internal/storage/storage.go:76-77 | any answer the log store's contract allows: the rows of an unsplit count inside the range, or a refusal, which is recorded, or a cancelled context |
| `Recorder.MetricStore.Write` | backend/internal/metricstore/metricstore.go:124-127 | a write replaces by key; a failed one may have stored any of its samples; what was accepted and what failed within the size limit is counted |
| `Recorder.BuildSamples` | backend/internal/servicetrends/recorder.go:511-527 | the samples of an answer, two for each row inside the range |
| `Recorder.AnswersMakeExpectedSamples` | backend/internal/servicetrends/recorder.go:511-527 | samples built from any answer are exactly the expected ones of the queried windows |
| `Recorder.Recorder.constructor` | backend/internal/servicetrends/recorder.go:204-228 | a base resolution that is not positive becomes five minutes |
| `Recorder.Recorder.BucketsPerQuery` | backend/internal/servicetrends/recorder.go:598-609 | a query asks for a learned number of buckets or else for the most that both the span and the bucket limit allow, and at least for one |
| `Recorder.Recorder.CategoriesPerQuery` | backend/internal/servicetrends/recorder.go:580-585 | a query asks for a learned number of services up to all of them, or else for all, and for at least one when there is one |
| `Recorder.Recorder.CountInChunks` | backend/internal/servicetrends/recorder.go:552-576 | for every chunk size and every failure, the rows are those of one query for all services, or the one query that was refused is reported |
| `Recorder.Recorder.WriteAll` | backend/internal/servicetrends/recorder.go:528-538 | writing in limited batches stores all samples or, on failure, only some of them and nothing else; it fails if and only if a write within the limit failed, and counts exactly the samples of the accepted writes |
| `Recorder.Recorder.Shrink` | backend/internal/servicetrends/recorder.go:477-508 | both sizes are halved, stay positive and are remembered for the window |
| `Recorder.Recorder.RecordRange` | backend/internal/servicetrends/recorder.go:439-543 | the loop terminates; for every pattern of failures the samples left are exactly those of one unsplit query per recorded window, nothing else changed, and a query given up while the context lives was for one window of one service; it ends early if and only if a write failed, or with a query refused last, and else records everything |
| `Recorder.Recorder.Record` | backend/internal/servicetrends/recorder.go:402-543 | as RecordRange, for the range that saved progress, backfill and retention leave; no query reaches outside it; success means everything up to the last complete window, and only a refused query or a failed write prevents it; no query asks for more at once than the sizes the recorder began with |
| `Recorder.BothReached` | backend/internal/servicetrends/recorder.go:297-310 | a window counts as recorded only when both scopes cover it |
| `Recorder.Recorder.RecordBoth` | backend/internal/servicetrends/recorder.go:295-316 | one resolution in both scopes: it fails only after a refused query or a failed write, always after the latter, and exactly then the window is held back for a quarter of its length |
| `Recorder.LoadCatalog` | backend/internal/servicetrends/store.go:26-45 | a run uses the built-in catalog when none is stored and the stored one if it is valid; it has none if and only if the stored one is unreadable or not valid |
| `Recorder.Recorder.Run` | backend/internal/servicetrends/recorder.go:255-359 | whatever fails, a run is a RunStep: progress moves only past covered windows and is saved without fractions of a second or not at all; it fails if a write, load or save failed, and with a catalog only if one of these did or a query was refused; without such a fault every resolution not held back has caught up, progress is saved and nothing more is held back; every query is within reach and retention and not for a window held back; the count returned is that of the accepted samples |
| `RollupRuns.RunExtends` | backend/internal/servicetrends/recorder.go:287-325 | recording one more resolution keeps everything the run did for the others |
| `RollupRuns.SavingLosesNothing` | backend/internal/servicetrends/store.go:87-98 | with resolutions of whole seconds, from progress in whole seconds, what is stored is exactly the progress the run made |
| `RollupRuns.ProgressIsAligned` | backend/internal/servicetrends/recorder.go:255-359 | over any sequence of runs at whole-second resolutions saved progress stays on window boundaries and every run picks it up as it was made |
| `RollupRuns.ProgressOnlyMovesForward` | backend/internal/servicetrends/recorder.go:255-359 | over any sequence of runs at whole-second resolutions saved progress is never lost and never goes back, even when the clock does |
| `RollupRuns.ProgressNeverGoesBack` | backend/internal/servicetrends/store.go:87-98 | at every resolution, with fractions too, stored progress after the zero time is never lost and never goes back |
| `RollupRuns.RecordedHistoryIsFrozen` | backend/internal/servicetrends/recorder.go:255-359 | at whole-second resolutions no later run changes, adds or removes a sample before saved progress |
| `RollupFractions.FrozenIffWholeSeconds` | backend/internal/servicetrends/store.go:87-98 | for every base of at least a second, recorded history is never overwritten in any sequence of runs if and only if every resolution is whole seconds |
| `RollupFractions.AlignedIffWholeSeconds` | backend/internal/servicetrends/store.go:87-98 | and saved progress stays on window boundaries under the same condition |
| `RollupFractions.ExactIffWholeSeconds` | backend/internal/servicetrends/store.go:87-98 | and storing changes no run's progress under the same condition |
| `RollupFractions.WindowIsCountedTwice` | backend/internal/servicetrends/recorder.go:415-434 | for every base of more than a second with a fraction, two runs: the first saves progress off the window boundary, the second counts the window again and, when the counts differ, overwrites it |
| `RollupFractions.AcceptedWithFraction` | backend/internal/config/validate.go:76-83 | the configuration accepts such a base: 112.5 seconds |
| `RollupRuns.RecordedForGood` | backend/internal/servicetrends/recorder.go:255-359 | at whole-second resolutions the windows a run moved past hold, after it and after every later run, exactly what one unsplit query per window gave it in both scopes, whatever happens to the logs afterwards |
| `RollupRuns.EveryWindowWasRecorded` | backend/internal/servicetrends/recorder.go:390-437 | at whole-second resolutions and without skipping forward, every window between where progress began and where it is was recorded by some run, under any catalogs and logs |
| `RollupRuns.CoverageHasNoGap` | backend/internal/servicetrends/recorder.go:390-437 | at whole-second resolutions, when every run counts what is true of the windows it records and none skips forward, the covered range grows without a gap |
| `Catalog.ComputePhrases` | backend/internal/servicetrends/catalog.go:275-287 | the loop computes the phrases of a list of domains |
| `Catalog.PhrasesAreNormalDomains` | backend/internal/servicetrends/catalog.go:275-287 | phrases are exactly the non-empty normal forms of the domains, each once |
| `Catalog.NormalDomainIs` | backend/internal/servicetrends/catalog.go:359-363 | the normal form is the domain in lower case without what is around it, which is only spaces and dots, and has no dot at its ends |
| `Catalog.CaseDoesNotMatter` | backend/internal/servicetrends/catalog.go:359-363 | a domain written in capitals has the same normal form |
| `Catalog.ValidDomainMeans` | backend/internal/servicetrends/catalog.go:365-377 | a domain is accepted if and only if it is at most 253 bytes long, has none of the refused characters, and has a dot with something else on both sides |
| `Catalog.ValidNameMeans` | backend/internal/servicetrends/catalog.go:340-357 | a name is accepted if and only if it has one to 64 characters, all small letters, digits, underscores or hyphens |
| `Catalog.ValidCountryMeans` | backend/internal/servicetrends/catalog.go:214-232 | a country is accepted if and only if it is empty or two letters |
| `Catalog.Validate` | backend/internal/servicetrends/catalog.go:163-212 | exactly the problems there are, all at once; none if and only if the catalog is valid |
| `Catalog.NoProblemMeansValid` | backend/internal/servicetrends/catalog.go:163-212 | a catalog is valid if and only if no rule is broken |
| `Catalog.ComputeEnabled` | backend/internal/servicetrends/catalog.go:249-258 | the enabled services with domains, ordered by name |
| `Catalog.ComputeCategories` | backend/internal/servicetrends/catalog.go:262-269 | one category for each enabled service, in order |
| `Catalog.ComputeMainCategories` | backend/internal/servicetrends/catalog.go:291-300 | one category for each enabled service that has main domains |
| `Catalog.CategoriesAreTheEnabledServices` | backend/internal/servicetrends/catalog.go:249-300 | the categories are exactly those of the enabled services with domains, and the main ones exactly those of them with main domains |
| `Catalog.ValidCatalogHasDistinctCategories` | backend/internal/servicetrends/catalog.go:163-212 | a valid catalog gives every category of a scope its own name |
| `Catalog.MainPhrasesAreFullPhrases` | backend/internal/servicetrends/catalog.go:163-212 | every main-scope phrase of a valid service is also a full-scope phrase |
| `ServiceCounts.MainNeverExceedsFull` | backend/internal/servicetrends/catalog.go:262-300 | for every valid service, main messages and distinct clients stay within the full ones for all rows and match predicates if and only if its main domains leave a phrase or its domains leave none |
| `ServiceCounts.OddStaysValid` | backend/internal/servicetrends/catalog.go:361-377 | any valid service whose domains leave a phrase and that has room for one more stays valid with a domain that leaves none as its only main one, and then breaks the condition |
| `ServiceCounts.SamplesBelowIffComparable` | backend/internal/servicetrends/catalog.go:262-300 | for every valid catalog no main sample exceeds its full sample, for any rows, if and only if every service with a main category meets the condition |
| `ServiceCounts.StoredMainBelowFull` | backend/internal/servicetrends/recorder.go:287-325 | in the metrics store, after every run, each recorded main sample of a catalog that meets the condition is at most its full sample, each run counting the same log rows in both scopes |
| `Pagination.SearchService.Collect` | backend/internal/query/service.go:358-372 | any answer the storage contract allows: newest first, at most the limit, half-open range, ties in any order; or a failure, which is counted |
| `Pagination.CutTrailing` | backend/internal/query/service.go:331-334 | finds where the rows with the last timestamp begin |
| `Pagination.SearchService.CompletePage` | backend/internal/query/service.go:319-341 | a full page becomes all newer rows and the whole group at its last timestamp, or as much of it as the cap allows; it fails only if the log store does |
| `Pagination.SearchService.Search` | backend/internal/query/service.go:264-351 | which requests are refused; any other is answered with a page of the rows before the cursor if and only if the log store does not fail |
| `Pagination.CursorsAreAccepted` | backend/internal/query/service.go:307-313 | every cursor issued is accepted for the same range and is earlier than the one before |
| `Pagination.WalkCoversWhatItPassed` | backend/internal/query/service.go:307-341 | at every point of a walk the rows so far are all of the range passed exactly when no group was cut, and each page but the last passed at least a limit of rows |
| `Pagination.WalkIsTheSelection` | backend/internal/query/service.go:303-351 | following cursors to the end gives the selection as a multiset, newest first, if and only if no page reported a cut group; the number of pages is bounded |
| `Pagination.SearchService.ReadAll` | docs/querying.md:95-104 | reading from cursor to cursor ends, and gets to a page without a cursor if and only if the limit is allowed and the log store never failed; the rows are then the selection if and only if no group was cut |
| `Pagination.SmallGroupsAreNotCut` | docs/querying.md:101-102 | when no timestamp has more rows than the cap, no walk cuts a group |
| `LogEntry.EstimateSize` | backend/internal/logentry/logentry.go:126-136 | the loops add up the estimated size |
| `LogEntry.SizeCoversContent` | backend/internal/logentry/logentry.go:126-136 | the size is all texts but the tenant, a fixed part for the entry, each label and each field, and at most a tenth of the texts more |
| `LogEntry.SizeIgnoresTenant` | backend/internal/logentry/logentry.go:126-136 | rewriting the tenant does not change the size |
| `Forwarder.WithDefaults` | backend/internal/forwarding/forwarding.go:79-93 | the row and message limits of a built forwarder are positive; options that have them so are kept as they are, and nothing else is changed |
| `Forwarder.Capacity` | backend/internal/forwarding/forwarding.go:94-100 | the channel has at least eight slots |
| `Forwarder.CapacityFitsTheLimit` | backend/internal/forwarding/forwarding.go:94-100 | above eight, the slots are exactly as many as batch-sized groups fit into the message limit |
| `Forwarder.CopyKept` | backend/internal/forwarding/forwarding.go:139-157 | the kept entries, copied with the tenant, and their summed size; which are kept is the next row |
| `ForwarderDelivery.KeptAreTheWanted` | backend/internal/forwarding/forwarding.go:141-148 | kept are, in order and as often as given, exactly the entries from a listed source, if sources are listed, whose severity number is at most the one asked for, if one is |
| `ForwarderDelivery.AcceptedAreTheWanted` | backend/internal/forwarding/forwarding.go:131-157 | after any run the accepted messages are, in order, exactly those entries of all that calls were given, each under the tenant of its call; without filters all of them |
| `ForwarderSafety.StepBooks` | backend/internal/forwarding/forwarding.go:131-301 | every step of every producer, the sender and Stop keeps conservation and both gauges, for any additive weight of messages |
| `ForwarderSafety.RunKeepsInvariants` | backend/internal/forwarding/forwarding.go:131-301 | every interleaving keeps the books, the batch order and the shape of the state |
| `ForwarderTheorems.EveryMessageIsAccountedFor` | backend/internal/forwarding/forwarding.go:131-301 | after any run each accepted message is as often accepted as it is sent, dropped or held, and the counters count exactly those |
| `ForwarderTheorems.NoSendAfterClose` | backend/internal/forwarding/forwarding.go:166-190 | no producer is ever about to send on the closed channel |
| `ForwarderTheorems.StopAccountsForEverything` | backend/internal/forwarding/forwarding.go:176-197 | when the closing Stop returns, accepted equals sent plus dropped if and only if the sender was started or nothing was queued |
| `ForwarderTheorems.GaugesLagOnlyByUncounted` | backend/internal/forwarding/forwarding.go:161-172 | the two gauges are what the channel and the sender hold, less what producers sent and did not count yet |
| `ForwarderTheorems.GaugesAreExactWhenQuiet` | backend/internal/forwarding/forwarding.go:248-258 | with no producer in a call the gauges are exact, and zero once drained |
| `ForwarderTheorems.BatchesAreWhatWasTaken` | backend/internal/forwarding/forwarding.go:199-243 | the batches joined in order are what was taken off the channel in order; each is non-empty, within the row limit, for one tenant, and over the byte limit at most by its last message |
| `ForwarderDelivery.NothingIsLostWithinLimits` | backend/internal/forwarding/forwarding.go:161-172 | a run that gives no write up and whose messages, bytes and calls would all have fit at once drops nothing, whatever the interleaving and the delays |
| `ForwarderDelivery.ShortBatchesHaveAReason` | backend/internal/forwarding/forwarding.go:199-243 | in any run no more batches are short of both limits than there were timer expiries, the close, and changes of tenant |
| `ForwarderDelivery.ForwardNeverBlocks` | backend/internal/forwarding/forwarding.go:129-173 | wherever a run is, a call returns after at most five steps of its own with no step of the sender or another call |
| `ForwarderDelivery.EverythingGetsSent` | backend/internal/forwarding/forwarding.go:199-243 | from every reachable state of a started, open forwarder whose remote answers, the sender and the timer alone empty the channel and the pending batch without losing anything |
| `ForwarderDelivery.StopCanAlwaysReturn` | backend/internal/forwarding/forwarding.go:175-197 | from every reachable state of a started, closed forwarder the sender alone leads to the return of Stop with gauges at zero: with everything sent if the remote answers, and, if it never does, with the rest dropped and counted once waiting is over |
| `ForwarderDelivery.StopFromAnywhere` | backend/internal/forwarding/forwarding.go:122-197 | from every reachable state of an open forwarder the run can go on so that calls return, it is closed and Stop returns, with everything accepted sent or counted as dropped, also if the remote never answers again |
| `ForwarderLimits.LimitsHoldUpToTheCrowd` | backend/internal/forwarding/forwarding.go:149-172 | with at most k calls at once the load and the gauge exceed the limit by at most k - 1 of the largest groups; one call at a time never exceeds it |
| `ForwarderOvershoot.OvershootIsReached` | backend/internal/forwarding/forwarding.go:161-172 | for every crowd the channel has room for, every group and every earlier calls with no heavier group that leave room for one: a run whose gauge shows all of it with a group from each of the crowd, which is the bound when the room left was exactly one group |
| `ForwarderOvershoot.MessageLimitIsExceeded` | backend/internal/forwarding/forwarding.go:161-169 | for every message limit, every size of group up to it and every crowd of two or more that the channel has room for, if the byte limit lets the message limit be filled: a run that exceeds the message limit by all but one of their groups |
| `ForwarderOvershoot.LimitKeptIffNoOverlap` | backend/internal/forwarding/forwarding.go:161-172 | where calls can fill the limit to within one group of the heaviest, it is kept in every run if and only if calls do not overlap |
| `Registry.Registry.Start` | backend/internal/forwarding/registry.go:67-74 | the registry goes live and every current forwarder is started |
| `Registry.Registry.Reconcile` | backend/internal/forwarding/registry.go:84-132 | the new list, definitions, starts and stops are those of the specification, whose meaning the next rows state |
| `Registry.Registry.Stop` | backend/internal/forwarding/registry.go:135-149 | every current forwarder is stopped and the list is empty |
| `RegistryRuns.ReconcileSelects` | backend/internal/forwarding/registry.go:96-118 | the current list is, in order, the enabled targets that were unchanged or could be built; an unchanged one keeps its very forwarder |
| `RegistryRuns.StaysIffAskedForAgain` | backend/internal/forwarding/registry.go:102-107 | a running forwarder stays if and only if its target is asked for again, enabled and exactly as before, live or not and whatever can be built |
| `RegistryRuns.ServedIffBuildable` | backend/internal/forwarding/registry.go:96-118 | a target has a forwarder if and only if it is enabled and can be built or runs as asked for before |
| `RegistryRuns.ReconcileAgainChangesNothing` | backend/internal/forwarding/registry.go:84-132 | reconciling again with the same targets changes nothing, neither what runs nor what was built, started or stopped, if and only if no target that went without a forwarder can be built now |
| `RegistryRuns.ReconcileStops` | backend/internal/forwarding/registry.go:123-131 | exactly the old forwarders whose name is not kept are stopped, once each |
| `RegistryRuns.RunIsSound` | backend/internal/forwarding/registry.go:67-149 | over any sequence of operations no current forwarder is stopped, identities and names stay distinct, current forwarders of a live registry were started, none is stopped twice |
| `RegistryRuns.StartedOnceUnlessRestarted` | backend/internal/forwarding/registry.go:67-118 | throughout a run current forwarders were started exactly once if and only if Start was never called on a live registry that has some |
| `RegistryRuns.EveryForwarderEndsOneWay` | backend/internal/forwarding/registry.go:84-149 | every forwarder ever built is exactly one of current, stopped once, or superseded and never stopped |
| `RegistryRuns.StopStopsAllButReplaced` | backend/internal/forwarding/registry.go:134-149 | after Stop none is current, and a forwarder ever built was stopped, once, if and only if it was never replaced |
| `RegistryRuns.ReplacedIsNotStopped` | backend/internal/forwarding/registry.go:108-131 | a forwarder taken out of use is stopped if and only if no target of its name is enabled and can be built |
| `RegistryRuns.ChangedTargetLeavesOneRunning` | backend/internal/forwarding/registry.go:108-131 | a run in which a changed target leaves its first forwarder started and not stopped |
| `Sessions.Service.AuthenticateSession` | backend/internal/auth/service.go:153-180 | the answer and the store afterwards, for every failure of the store |
| `Sessions.RunTracks` | backend/internal/auth/service.go:129-217 | every run keeps what is known of stored and ended sessions: an ended one is gone or stale, and one that did not end is stored under its user |
| `Sessions.AcceptedOnlyWhileAlive` | backend/internal/auth/service.go:165-180 | in every run an accepted session is its user's, within the idle timeout of its last use, within its time to live, and was not reported expired, used while disabled, logged out or revoked |
| `Sessions.AcceptedWhileInUse` | backend/internal/auth/service.go:165-180 | with successful touches a session that did not end is stored at most a minute behind its last use, so use within the idle timeout less a minute and before expiry is accepted |
| `Sessions.ChangedPasswordRevokesTheOthers` | backend/internal/metadata/postgres/users.go:97-100 | after any run a changed password ends and removes every session of the user but the one it came from, and leaves every other session exactly as it was |
| `SessionRaces.RunKeepsInv` | backend/internal/auth/service.go:153-180 | every interleaving of loads, checks, lookups, writes, logins and removals keeps what each call may have read |
| `SessionRaces.NoUseAfterIdleOrExpiry` | backend/internal/auth/service.go:153-180 | in every interleaving accepted uses leave no gap longer than the idle timeout and none is past creation plus the time to live |
| `SessionRaces.DeletedIsNeverLoaded` | backend/internal/metadata/postgres/users.go:87-100 | a deleted session is never loaded again however the run goes on; a late touch does not bring it back |
| `SessionRaces.AloneIsAtomic` | backend/internal/auth/service.go:153-180 | the steps of a call without others in between do what the whole call does |
| `SessionOverlap.StoredTimeTrails` | backend/internal/auth/service.go:165-178 | in every interleaving whose touches succeed within d of reading the clock, no use is more than a minute and d above the stored time, so a session used recently enough is not turned down |
| `SessionOverlap.LateTouchMovesBack` | backend/internal/auth/service.go:175-178 | for every d, a run that reaches that bound |
| `SessionOverlap.MinuteIffNoDelay` | backend/internal/auth/service.go:175-178 | the promised minute holds in every run if and only if no write is delayed |
| `SessionOverlap.NeverAgainIffOver` | backend/internal/auth/service.go:165-178 | after any run a session is accepted in no continuation if and only if the stored session and every loaded copy are stale and no call has passed its check |
| `SessionOverlap.ExpiredThenAccepted` | backend/internal/auth/service.go:165-178 | a run in which a call finds the session stale, its delete fails, and a later load at the same instant is accepted |
| `Slots.ReleaseUndoesTake` | backend/internal/query/service.go:173-191 | giving back a slot just taken leaves the counters as they were |
| `Slots.Service.Acquire` | backend/internal/query/service.go:173-182 | when a query gets a slot, and the counters afterwards |
| `Slots.Service.Release` | backend/internal/query/service.go:183-190 | a released slot is taken off, and an entry that is not positive removed |
| `Slots.Service.OpenExport` | backend/internal/query/service.go:903-925 | when an export opens, and that a failed one gives its slot back |
| `Slots.Service.OpenTail` | backend/internal/query/service.go:964-993 | when a tail opens under both limits, and that a failed one gives its slot back |
| `Slots.CountersAreExact` | backend/internal/query/service.go:173-191 | in every interleaving counts equal unreleased slots, the tail total is the sum of the callers' tails, and no zero entry remains |
| `Slots.LimitsHold` | backend/internal/query/service.go:173-182 | in every interleaving a caller never holds more slots than the largest limit it was given |
| `Slots.OpenSucceedsIffBelowLimit` | backend/internal/query/service.go:173-182 | after any interleaving an open takes a slot if and only if the caller holds fewer than its limit and, for a tail, all callers fewer than the total, or it is a query without a limit; a refused one changes nothing |
| `Slots.GlobalLimitHolds` | backend/internal/query/service.go:964-984 | in every interleaving all tails together stay within the global limit |
| `Cache.TtlCache.Set` | backend/internal/query/rows.go:133-144 | for every order of eviction: the new value is in, size stays bounded, expired entries go when full, at most one unexpired entry is lost |
| `Cache.CacheFollowsMap` | backend/internal/query/rows.go:107-144 | after any sets the cache holds only last values, is bounded, and equals the unbounded map while few keys were set |
| `Cache.FoundIsLastAndFresh` | backend/internal/query/rows.go:123-131 | a value found is the last one set for its key and has not expired; until it expires it is found if it was set last of all or if fewer keys than the bound were ever set |
| `Coverage.SortByStart` | backend/internal/query/dashboard.go:301-301 | the intervals are permuted in place into order of start |
| `Coverage.UnionSeconds` | backend/internal/query/dashboard.go:299-319 | the sweep's total is the number of instants that some interval covers |
| `Coverage.CoveredBySome` | backend/internal/query/dashboard.go:299-319 | an instant is covered if and only if some interval contains it |
| `Coverage.CoveredInAnyOrder` | backend/internal/query/dashboard.go:299-319 | the order of the intervals does not matter |
| `Coverage.UnionAtMostSum` | backend/internal/query/dashboard.go:299-319 | the union is no longer than the intervals together |
| `Rates.Bucketed` | backend/internal/query/dashboard.go:252-279 | the loops gather every eligible pair of snapshots of every node |
| `Rates.BucketsConserve` | backend/internal/query/dashboard.go:257-279 | the buckets together hold every eligible increase once, for each of the four counters |
| `Rates.PairsThatCount` | backend/internal/query/dashboard.go:257-266 | of all consecutive snapshots of all nodes, in order, exactly those count whose later one is in the range and whose received counter did not fall |
| `Rates.BucketIsWhatEndsInIt` | backend/internal/query/dashboard.go:267-278 | there is a bucket for exactly the times at which some pair ends, and it holds the intervals of those pairs, each once and in order, and their increases |
| `Rates.BucketsAreSweepable` | backend/internal/query/dashboard.go:273-288 | snapshots in time order give the sweep well-ordered intervals |
| `Charts.ChooseStep` | backend/internal/query/timerange.go:127-135 | the least ladder step whose quotient is below the target, or the last one |
| `Charts.GridSizeAtMost` | backend/internal/query/timerange.go:126-135 | the grid keeps to n buckets if and only if the range, with what precedes it in its first bucket, is at most n steps |
| `Charts.GridIsBounded` | backend/internal/query/timerange.go:126-135 | with a step that fits, the grid has at most one bucket more than asked for |
| `Charts.OneBucketTooMany` | backend/internal/query/timerange.go:126-135 | a range asked for in 10 buckets that gets 11 |
| `Charts.Grid` | backend/internal/query/analytics.go:252-256 | consecutive aligned buckets, each found at its own position; an instant truncates to a bucket if and only if it lies in their span |
| `Charts.HasBucket` | backend/internal/query/analytics.go:252-262 | an instant has a bucket if and only if it lies from the start of the first to the end of the last |
| `Charts.Series` | backend/internal/query/analytics.go:257-269 | each point is the sum of its group's rows in its bucket, and a group's points hold every row that has a bucket |
| `Charts.RowsInSpanAreAdded` | backend/internal/query/analytics.go:258-269 | whichever rows there are, exactly those in the span of the buckets are added |
| `Charts.NoRowIsLost` | backend/internal/query/analytics.go:248-269 | a group's points add up to all of its rows from the start of the first bucket, which may lie before the range, to the end of the range |
| `Charts.AlignedRowIsInBuckets` | backend/internal/query/analytics.go:248-262 | a row whose time is a multiple of the step and whose bucket holds an instant of the range is never lost |
| `Charts.EpochBucketsAgree` | backend/internal/query/timerange.go:120-124 | buckets counted from the Unix epoch are those counted from the zero time for every ladder step but the week, and for the week none is |
| `Charts.EpochRowIsInBuckets` | backend/internal/query/analytics.go:258-262 | for every ladder step but the week, a row counted from the epoch whose bucket holds an instant of the range is never lost |
| `Charts.WeekRowIsLost` | backend/internal/query/analytics.go:258-262 | for every week of the chart, the range of that week loses the row counted from the epoch that holds its start |
| `Histogram.AddSeries` | backend/internal/query/service.go:478-509 | one series merged into the buckets, skipping what is outside the range |
| `Histogram.PointsThatAreShown` | backend/internal/query/service.go:478-492 | of all counts of all series, in order, exactly those are shown whose bucket has an instant in common with the range |
| `Histogram.Response` | backend/internal/query/service.go:466-513 | buckets in strictly increasing time order, one for each time with a point, each with its own total and parts; the response total is theirs; parts add up when no count is negative |
| `Histogram.MergeIsSound` | backend/internal/query/service.go:471-509 | merging keeps totals, parts and the order list consistent for any series |
| `Histogram.SplitValues` | backend/internal/query/service.go:478-522 | the split values are the names of the series, larger totals first, equal ones in order, "other" last; the flag says whether one is merged |
| `Utf8.CutsAtRuneStarts` | backend/internal/normalization/normalization.go:197-206 | valid text can be cut exactly where a sequence starts |
| `Utf8.TruncateUtf8` | backend/internal/normalization/normalization.go:197-206 | the longest valid prefix within the limit |
| `Utf8.ToValidRepairs` | backend/internal/normalization/normalization.go:188-195 | the result is valid, is the input if and only if that was valid, and drops no well-formed sequence |
| `Normalization.FieldNameIsUsable` | backend/internal/normalization/normalization.go:152-167 | names are valid, non-empty, never reserved, and the exact condition under which they are at most seven bytes over the limit |
| `Normalization.NoNameIsReserved` | backend/internal/normalization/normalization.go:155-186 | no key ends up with a reserved name |
| `Normalization.FreeKeysKeepTheirName` | backend/internal/normalization/normalization.go:155-186 | no name begins with an underscore or "labels." or is a core field's; a valid key within the limit keeps its name if that is so already, and else moves below "fields." |
| `Normalization.LimitedValue` | backend/internal/normalization/normalization.go:144-148 | a value is repaired and cut to the longest valid prefix that fits |
| `Normalization.MarkedIffCut` | backend/internal/normalization/normalization.go:144-148 | an entry is marked for a value exactly if that does not appear in full |
| `Normalization.ApplyFields` | backend/internal/normalization/normalization.go:136-150 | kept plus newly dropped fields is the original count, at most the limit is kept and nothing is dropped within it; each kept field is renamed and limited, and the entry is marked exactly when a value was cut |
| `Text.ValueOfPrint` | backend/internal/config/types.go:472-482 | printed decimal numbers have their value |
| `Sizes.ParseByteSize` | backend/internal/config/types.go:496-526 | the loop parser computes the specified size |
| `Sizes.UnitIsLargest` | backend/internal/config/types.go:472-482 | a size is printed in the largest binary unit that divides it, and zero without one |
| `Sizes.SizeRoundTrip` | backend/internal/config/types.go:472-526 | a printed size parses back to itself if and only if it is from zero to 2^62, and is refused otherwise |
| `Sizes.StepRoundTrip` | backend/internal/query/timerange.go:104-148 | a printed step parses back to itself if and only if it is not negative, whole seconds, and at most 100000 of its unit |
| `Base64Url.SextetsRoundTrip` | frontend/src/lib/base64url.ts:2-14 | six-bit groups give back the bytes they were made from |
| `Base64Url.BytesRoundTrip` | frontend/src/lib/base64url.ts:2-14 | decoding restores exactly the padding that encoding stripped, and the bytes |
| `UrlText.EncodeBase64Url` | frontend/src/lib/base64url.ts:2-7 | the loop encodes the UTF-8 bytes of the text |
| `UrlText.TextRoundTrip` | frontend/src/lib/base64url.ts:2-14 | encoded text decodes to itself if and only if it has no lone surrogate and no byte order mark at the start |

## Left out

- Query timeouts, log levels, metrics, status reports and the tenant label of the rollup: they do not change what is counted.
- Loading and saving learned query sizes: the starting sizes of a recorder are arbitrary instead.
- Recorder.LoadCatalog: the services of the built-in catalog are not written out; it is a parameter that must be valid, which backend/internal/servicetrends/servicetrends_test.go:17-21 demands of it.
- RollupRuns.ProgressOnlyMovesForward: speaks of sequences of Run. Resetting the rollup, and a saved state that cannot be read and is taken as empty, both discard progress; a new sequence of runs with empty progress begins there.
- Recorder.Settings.LoadState: does not return an empty state for a stored one that cannot be read.
- RollupRuns.Runs: logs may change between runs but not during one, and runs come one after another. Nodes that run the rollup at the same time save the whole progress over each other's, which can move it back.
- ServiceCounts.StoredMainBelowFull: both scopes of a run count the same rows; a log that arrives between the two queries can make a main sample exceed its full one.
- Catalog.Validate: lower case is exact where the result is ASCII, other letters are compared as they are; the texts of the messages are not modelled, only which problem is reported.
- Integer overflow of 64-bit durations, counters and nanosecond timestamps is not modelled, except where a bound such as 2^62 is part of the code.
- Pagination: row shaping, truncation notes and cursor encryption; a cursor is the time it carries. A storage failure ends a request with an error.
- Forwarder.Enabled: a forwarder is started at most once. A registry that is started twice gives it two senders, and the forwarder theorems are not about that.
- Forwarder: retry back-off times, health flags and metrics; the remote's answer to each write is an arbitrary event.
- Registry.Registry.Reconcile: whether a target can be built is given by position; the remote client that building opens is not modelled. Forwarders are identities with a name; their queues are those of the Forwarder module.
- Registry.Registry.Stop: the parallel waits of Stop are taken in order.
- Sessions: password verification, rate limiting and rehashing before a session is created; tokens stand for their hashes and are never drawn twice.
- Slots: role time-outs and what a query, export or tail does while it holds its slot.
- Histogram.Response: the time-zone offset passed to the log store.
- Rates: the final division by the covered seconds, which is floating point.
- Charts.Series: values are counts, so they are integers here.
- Utf8.ToValidRepairs: the repaired text is specified for the replacement U+FFFD only.
- Normalization: Apply's network identity and timestamp policy, which are plain case distinctions.
- UrlText.TextRoundTrip: decoding of bytes that are not valid UTF-8 is not specified beyond being no round trip.
- HTTP handlers, streaming, the storage backends, parsers, the ingestion pipeline, the directory and SQL analyses and the user interface.
