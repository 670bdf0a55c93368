# Verified model of the blue/green load balancer

This project models the parts of the load balancer whose correctness does not show in
any single function, and proves what they promise:

* **Drain/switch protocol** (`DrainProtocol`, `DrainInvariant`, `DrainRuns`, `DrainCalls`,
  `DrainProgress`, `Reachability`, `Timeouts`, `SerialSwitch`, `OverlapWitness`,
  `Drainer`). Requests, `Drain`, `Reset`, `Switch` and the waiter goroutine are processes
  with program counters, one atomic statement per step, with both mutexes, the WaitGroup
  and every channel explicit. Any number of processes may be running, and any context may
  end at any time. The invariant is proved for every interleaving and lifted to whole runs.
  `Drainer` is the same machine as an object whose methods update its fields in place.
* **Metrics store** (`EventLog`, `Ring`, `History`, `Aggregation`, `AggregatedHistory`,
  `HistoryWindows`, `OrderStatistics`, `Sorting`, `Store`). The circular array, the
  rotation over an arbitrary clock and the latency window are proved to say exactly what a
  plain append-only log of events says; history, percentiles and aggregation are then
  properties of that log.
* **Git watcher and switcher** (`GitWatcher`, `Switching`). Poll after poll, tag changes
  become Switch calls behind a health gate, with a bounded history.
* **SSE broker** (`Broker`, `BrokerProgress`, `SSEBroker`). The event loop, the request handlers and the
  senders as a step machine over client channels, and the same as an object.

Times are integer nanoseconds since the zero time, averages are real numbers, and the
clock readings, the health answers and the fetched references are parameters.

Three places where the code does something other than its documentation suggests are
modelled as the code does them.

* Overlapping Switches can leave a request on the old target
  (`OverlapLeavesRequestBehind`): a store at an open gate is all it takes
  (`OpenStoreLeavesRequest`). `OneTargetIffSpared` says exactly when requests are safe, in
  any run; runs in which no Switch overlaps another Switch or a Reset are. Everything else
  about the Drainer holds in all runs.
* The `deploy/active` tag never drives a switch, although lines 177 to 184 of the load
  balancer's own README say it does (`ActiveTagIsIgnored`).
* A history asked for at some resolution is grouped at twice that resolution
  (`HistoryDoubleWindows`, with the input `FiveMinutesBecomeTen`), although line 92 of
  `internal/admin/api.go` calls it the resolution of the data points. The width is kept if
  and only if the oldest and the newest slot share a window (`HistoryWidth`).

Aggregated history does not conserve counts either: a group none of whose slots totals a
positive whole millisecond is dropped, errors and all (`AggregationLosesAnError`).
`AggregateCountsEvents` and `GetHistory` state exactly what is lost and when nothing is. A
group's percentiles are maxima that start at zero, which shows only for negative latencies
(`NegativeMedianIsHidden`); `PercentilesAreMaxima` has the exact condition.

## Model

| member | source | states |
|---|---|---|
| Drainer.Drainer.constructor | internal/proxy/drainer.go:23-27 | a new Drainer is the initial state of the protocol, gate open and blue active |
| Drainer.Drainer.Track | internal/proxy/drainer.go:66-74 | each statement of the entering half of Track, TrackRequest and ConnectionTracker.Track is exactly the protocol's step |
| Drainer.Drainer.Release | internal/proxy/drainer.go:76-79 | each statement of routing, releasing and reporting is exactly the protocol's step; the Done that reaches zero wakes the waiter |
| Drainer.Drainer.Drain | internal/proxy/drainer.go:85-127 | each statement of Drain is exactly the protocol's step |
| Drainer.Drainer.CancelDrain | internal/proxy/drainer.go:97-98 | a context that ends in either select of Drain makes it return an error and touches nothing else |
| Drainer.Drainer.Reset | internal/proxy/drainer.go:134-159 | each statement of Reset is exactly the protocol's step |
| Drainer.Drainer.Switch | internal/proxy/proxy.go:168-200 | reading the target, and storing the new one between Drain and Reset, are exactly the protocol's steps |
| Drainer.Drainer.Wait | internal/proxy/drainer.go:113-116 | each statement of the waiter goroutine is exactly the protocol's step |
| Drainer.Drainer.Perform | internal/proxy/drainer.go:31-159 | whatever process moves next, the object takes the protocol's step and its own history stays a run of the protocol, so every result about runs holds of it |
| DrainInvariant.StepKeepsInv | internal/proxy/drainer.go:66-159 | every action of every process keeps the global invariant, with any number of overlapping calls |
| DrainInvariant.StatementSparesOthers | internal/proxy/drainer.go:31-159 | no statement of one process breaks what another process relies on |
| DrainInvariant.StatementMatchesWeights | internal/proxy/drainer.go:40-47 | a statement changes each counter exactly as it changes whether its process is counted |
| DrainRuns.OneWaiterAtATime | internal/proxy/drainer.go:90-116 | in every run at most one wg.Wait goroutine is live, the gate is shut for its whole life, and neither counter is ever negative |
| DrainRuns.AddNeverMeetsWait | internal/proxy/drainer.go:66-80 | wg.Add(1) only happens while no Wait is running, wg.Done never takes the counter below zero, Wait only returns at zero |
| DrainRuns.ChannelsCloseOnce | internal/proxy/drainer.go:107-116 | close(drainCh) and close(done) never hit a closed channel, even after a Reset has swapped drainCh under a timed-out drain |
| DrainRuns.GateBetweenCalls | internal/proxy/drainer.go:134-159 | while drainMu is free, draining holds exactly if prevDone is set, and an open gate has an open drainCh |
| DrainRuns.DrainChSignals | internal/proxy/drainer.go:161-164 | drainCh is closed while Drain waits for its connections and open again when a Reset returns |
| DrainRuns.CountersCountTracks | internal/proxy/drainer.go:182-205 | each counter is the unreleased tracks plus the processes between the two updates of a track or a release; the onTrack deltas of all trackers together, and of each tracker on its own, sum to its sections reported and not released |
| DrainRuns.DeltasCountSections | internal/proxy/drainer.go:187-204 | in every run the deltas one ConnectionTracker has reported sum to exactly its own open sections |
| DrainRuns.OnlyResetReopens | internal/proxy/drainer.go:150-155 | a shut gate is opened only by Reset, and only with no request inside and no Wait running |
| DrainRuns.ShutUntilReset | internal/proxy/drainer.go:129-133 | after a drain has begun, timed out or not, every request is turned away and none is added until a reopening Reset |
| DrainRuns.DrainedStaysEmpty | internal/proxy/drainer.go:82-127 | when Drain returns nil, on either path, no tracked request is left, and none enters before the next reopening Reset |
| DrainRuns.FailedDrainStaysShut | internal/proxy/drainer.go:93-126 | Drain returns an error only after its context ended inside one of its selects, and the gate is then still shut |
| DrainCalls.CallsDoTheirWork | internal/proxy/proxy.go:166-200 | a call that has returned has done its work: a Drain has come to its result, a Reset has looked at the last drain, a Switch has drained, stored and reset unless it found its target active |
| DrainCalls.GateDecides | internal/proxy/drainer.go:66-74 | in every run a request of any kind is turned away only if the gate was shut when it looked, and gets in only if it was open |
| Timeouts.TimedOutDrainReturns | internal/proxy/drainer.go:93-127 | from every reachable state in which a Drain waits in either select, it can return the error with the gate shut although no request has left |
| Timeouts.TimedOutSwitchReturns | internal/proxy/proxy.go:181-199 | from every reachable state in which a Switch waits in its Drain, it can return on its target although no request has left; the gate is then open only if the waiter had finished |
| Timeouts.StuckRequestDoesNotHoldSwitch | internal/proxy/proxy.go:181-199 | with a request in flight that never leaves, a Switch can still return on the new target behind a shut gate |
| DrainProgress.SomebodyRuns | internal/proxy/drainer.go:85-159 | no deadlock: while a call is unfinished or a waiter is live, somebody can move without any timeout or cancellation |
| DrainProgress.StepWorks | internal/proxy/drainer.go:31-159 | every step except a new arrival or call uses up work, measured over all program counters and waiters |
| DrainProgress.RunsEnd | internal/proxy/drainer.go:31-159 | a run to which no calls are added is no longer than the work at its start |
| DrainProgress.EndedRunsAreClean | internal/proxy/drainer.go:31-159 | where such a run cannot continue every call has returned, the locks are free, the counters zero, and no waiter is left |
| SerialSwitch.StepKeepsSerialInv | internal/proxy/proxy.go:166-200 | as long as no Switch overlaps another Switch or a Reset, every step keeps each Switch consistent with the gate and the target |
| SerialSwitch.StoreBehindShutGate | internal/proxy/proxy.go:180-192 | in such runs the target is stored only while the gate is shut |
| SerialSwitch.OneTargetIffSpared | internal/proxy/proxy.go:121-192 | in any run, overlapping or not, every request being routed is on the active target whenever the gate is open if and only if no Switch stores its target at an open gate with a request routed to another |
| SerialSwitch.ShutStoresMeanOneTarget | internal/proxy/proxy.go:180-192 | so it suffices that targets are stored only behind a shut gate |
| SerialSwitch.OpenGateMeansOneTarget | internal/proxy/proxy.go:125-149 | in non-overlapping runs, whenever the gate is open, every request being routed is on the current active target |
| SerialSwitch.SwitchEndsOnTarget | internal/proxy/proxy.go:166-200 | in such runs a Switch returns with its target active, and with the gate open if its Drain returned nil |
| SerialSwitch.TargetIsLastSwitched | internal/proxy/proxy.go:166-200 | in such runs, whenever no Switch is between its store and its return, the active target is that of the last Switch that returned, blue if none |
| SerialSwitch.ResetOpensIffWaiterFinished | internal/proxy/drainer.go:138-158 | in any run a Reset ends with the gate open exactly if the waiter had finished when it looked |
| OverlapWitness.OpenStoreLeavesRequest | internal/proxy/proxy.go:121-192 | from every reachable state in which a Switch is about to store another target at an open gate, with mu free, some request can slip in and be left on the old target |
| OverlapWitness.OverlapLeavesRequestBehind | internal/switcher/switcher.go:106-115 | overlapping Switches reach such a state: the gate is open and a request is routed to a target that is no longer active |
| EventLog.LatestIsMaximum | internal/metrics/store.go:81-102 | the current slot is the latest of the starting slot and the slots of all clock readings |
| EventLog.SlotsAfterEvent | internal/metrics/store.go:86-128 | an event opens the slots up to its own, empty, and is counted in the newest |
| EventLog.WindowConserves | internal/metrics/store.go:38-50 | the newest n slots together count every request and error of those slots exactly once |
| Ring.TurnedAt | internal/metrics/store.go:91-97 | after any number of rotations, longer than the ring or not, the newest buckets are empty with consecutive stamps and the others have moved back |
| Ring.RecordMirrors | internal/metrics/store.go:105-128 | rotating and counting keeps the ring equal to the log's newest slots |
| Ring.CutAt | internal/metrics/store.go:92 | k slots back in time is k steps back in the array, modulo its length |
| Store.Store.constructor | internal/metrics/store.go:53-78 | a new store mirrors an empty log; fewer than one bucket becomes 1440 |
| Store.Store.GetCurrentBucket | internal/metrics/store.go:81-102 | the ring turns exactly to the slot of the clock reading, and not at all if the clock is not ahead |
| Store.Store.RecordRequest | internal/metrics/store.go:105-119 | the store mirrors the log with this request appended, in every bucket and in the window of latencies |
| Store.Store.RecordError | internal/metrics/store.go:122-128 | the store mirrors the log with this error appended |
| Store.Store.Reset | internal/metrics/store.go:274-287 | the store mirrors an empty log, stamped back from the clock reading |
| Store.Store.BucketBack | internal/metrics/store.go:53-102 | bucket (current - k) mod maxBuckets is stamped k resolutions before the current one and holds exactly the events of that slot |
| Store.Store.GetLatencyPercentiles | internal/metrics/store.go:131-158 | over the last 10000 latencies of the log, P50, P90 and P99 are the whole milliseconds of samples of ranks 50, 90 and 99 percent, and Avg is the total's whole milliseconds over the number of samples |
| Store.LastNIsSuffix | internal/metrics/store.go:114-118 | the window is a suffix of all latencies, so it ends with the newest |
| Store.Store.GetHistory | internal/metrics/store.go:161-214 | the answer is the log's recent slots oldest first, aggregated exactly if a coarser resolution is asked for; its times ascend strictly; it counts all events of the slots it covers exactly if it is not aggregated or its silent groups are empty; unaggregated points stand for their slots |
| Store.PercentilesSound | internal/metrics/store.go:146-157 | P50, P90 and P99 are ordered on any samples; for non-negative samples the average lies between the extremes in whole milliseconds |
| OrderStatistics.PercentileRank | internal/metrics/store.go:139-156 | the p-th percentile is a sample with at most ⌊n·p/100⌋ samples strictly below it and at least one more at or below it |
| OrderStatistics.AverageBounds | internal/metrics/store.go:147-156 | for non-negative samples the average is at least the least and less than one more than the greatest, in whole milliseconds |
| OrderStatistics.MillisecondsCutOff | internal/metrics/store.go:152-155 | whole milliseconds are nanoseconds over a million, cut off toward zero |
| Sorting.SortIsTheOnly | internal/metrics/store.go:142-144 | any ascending rearrangement of distinguishable elements is the sorted sequence, so the sorting algorithm does not matter |
| History.SortedArrayIsHistory | internal/metrics/store.go:171-206 | filtering the array in index order and sorting by timestamp gives the log's recent slots, oldest first |
| History.HistoryIsSuffix | internal/metrics/store.go:165-206 | the history is the suffix of the window stamped no earlier than now - duration, strictly ascending, one resolution apart |
| History.HistoryStands | internal/metrics/store.go:176-200 | every point of a history carries the requests, errors and average of the events logged in its slot, and as p50, p90 and p99 the whole milliseconds of latencies of those ranks, in ascending order |
| History.HistoryCountsEvents | internal/metrics/store.go:176-200 | the requests and errors of a history are exactly the events logged in the slots it covers |
| Aggregation.AggregatePoints | internal/metrics/store.go:217-271 | the one-pass loop over running variables computes the summaries of the kept groups |
| Aggregation.GroupsPartition | internal/metrics/store.go:228-248 | the groups hold all points in order |
| Aggregation.GroupIsSlice | internal/metrics/store.go:228-243 | each group is a run of consecutive points |
| Aggregation.SummariesInOrder | internal/metrics/store.go:231-267 | the result sums up the groups that carry latency, each exactly once and in order |
| Aggregation.AggregateAscends | internal/metrics/store.go:228-270 | the points of the result come oldest first, on any input |
| Aggregation.GroupsSpaced | internal/metrics/store.go:229-240 | on any input successive groups start at least two resolutions apart |
| Aggregation.GroupsWithin | internal/metrics/store.go:229-240 | on sorted points every point lies at or after its group's start and less than two resolutions after |
| HistoryWindows.GroupsTiled | internal/metrics/store.go:229-240 | on points one storage resolution apart the groups start exactly two windows after one another, and every one but perhaps the last reaches into its second window |
| HistoryWindows.HistoryDoubleWindows | internal/metrics/store.go:208-243 | the groups of every history are numbered by whole double windows from the window of its first point; a group keeps to one window exactly if it is the last and the history ends in its first window |
| HistoryWindows.HistoryWidth | internal/metrics/store.go:208-243 | a history is aggregated at the width asked for if and only if its oldest and its newest slot share a window |
| HistoryWindows.HistoryTimestamps | internal/metrics/store.go:235-240 | the points of an aggregated history lie whole double windows apart, counted from the window of the first slot |
| HistoryWindows.FiveMinutesBecomeTen | internal/admin/api.go:90-93 | asked for five-minute points, a history answers with one point that counts the requests of two five-minute windows |
| Aggregation.TruncateBounds | internal/metrics/store.go:229 | group starts are multiples of the resolution, at most one resolution before the point |
| Aggregation.AggregateConserves | internal/metrics/store.go:245-267 | output requests and errors are the input totals minus those of exactly the dropped groups |
| Aggregation.DroppedIffSilent | internal/metrics/store.go:232-267 | a group carries no latency exactly if none of its points has a positive average and requests |
| Aggregation.LostIffSilent | internal/metrics/store.go:231-267 | the dropped groups are exactly the silent ones, and nothing is lost if and only if nothing was counted in them |
| Aggregation.AverageBetween | internal/metrics/store.go:247-266 | a kept group's average lies between any bounds on those of its contributing points |
| Aggregation.AverageBetweenPoints | internal/metrics/store.go:247-266 | a kept group's average lies between the smallest and the largest average of its contributing points |
| Aggregation.PercentilesAreMaxima | internal/metrics/store.go:252-261 | each percentile of a group is the maximum over its points exactly if some point's is not negative, since the running maximum starts at zero |
| AggregatedHistory.HistoryGroup | internal/metrics/store.go:208-243 | every group of a history is consecutive slots of the log, and is silent exactly if none of them totals a positive whole millisecond |
| AggregatedHistory.AggregatedPoints | internal/metrics/store.go:182-268 | the points of an aggregated history sum up disjoint runs of consecutive slots of the log, later points later slots, leaving out no slot that totals a whole millisecond: aligned start, requests and errors, whole milliseconds over requests (slots below a millisecond excluded), an average between the least and the greatest contributing one, and, for a log without negative latencies, each percentile the maximum over the slots |
| AggregatedHistory.GroupAverage | internal/metrics/store.go:182-183 | a kept group of buckets averages their whole milliseconds over their requests, leaving out buckets with less than a millisecond |
| AggregatedHistory.SlotPercentiles | internal/metrics/store.go:193-197 | the percentiles of every slot of a log without negative latencies are not negative |
| AggregatedHistory.AggregateCountsEvents | internal/metrics/store.go:228-268 | an aggregated history counts the events of the slots it covers minus those of the silent groups, and all of them if and only if the silent groups are empty |
| AggregatedHistory.CompleteUnlessSilent | internal/metrics/store.go:208-213 | a history counts every event of the slots it covers exactly if no coarser resolution is asked for or every silent group is empty |
| AggregatedHistory.AggregationLosesAnError | internal/metrics/store.go:231-267 | a log of one error, aggregated, gives an empty history: counts are not conserved in general |
| AggregatedHistory.NegativeMedianIsHidden | internal/metrics/store.go:252-254 | a slot with a negative median is reported with median zero once aggregated |
| Switching.Switcher.Switch | internal/switcher/switcher.go:89-165 | active target, error, count and last switch after a call, refused or not; a switch adds one event with its targets, trigger, start and duration, a refusal none |
| Switching.ProtocolFollowsEvents | internal/switcher/switcher.go:106-115 | in a run of the drain protocol whose non-overlapping Switches are those of the switcher's events, the active target is where the events lead: the last target asked for while healthy |
| Switching.EventsChained | internal/switcher/switcher.go:91-121 | every event starts where the previous one ended and goes elsewhere |
| Switching.ActiveIsLastHealthy | internal/switcher/switcher.go:93-103 | the active target is the last one asked for while healthy, blue if none |
| Switching.GreenIffOdd | internal/proxy/proxy.go:80-82 | between blue and green, green is active exactly after an odd number of switches |
| Switching.SwitchRun | internal/switcher/switcher.go:130-141 | in every run of calls the history is the last 100 events, chained end to end, ending on the active target |
| GitWatcher.GitWatcher.FetchAndCheck | internal/switcher/gitwatcher.go:117-174 | one poll notifies exactly the tags seen on another commit than before, blue before green, and remembers every sighting |
| GitWatcher.GitWatcher.NotifyTagChange | internal/switcher/gitwatcher.go:216-226 | a notification becomes one Switch call for its target |
| GitWatcher.GitWatcher.PollLoop | internal/switcher/gitwatcher.go:97-114 | after any sequence of polls the active target is that of the last notification whose target was healthy |
| GitWatcher.CallsEndOnFinalTarget | internal/switcher/switcher.go:256-272 | the calls of any sequence of polls end on the last healthy notification's target, green last within a poll |
| GitWatcher.ChangesAreSteps | internal/switcher/gitwatcher.go:132-164 | the notifications of a target are exactly the changes between consecutive sightings of its tag |
| GitWatcher.ChangesMakeCalls | internal/switcher/gitwatcher.go:132-164 | every notification and the call of Switch it makes come from one poll: its tag, commit and time, the git trigger, and that poll's health answer |
| GitWatcher.SeenUnderTags | internal/switcher/gitwatcher.go:132-134 | a tag is seen on a commit exactly if the fetch found it under refs/tags |
| GitWatcher.GreenHasLastWord | internal/switcher/gitwatcher.go:132-164 | a healthy green change decides its poll, whatever blue does |
| GitWatcher.ActiveTagIsIgnored | internal/switcher/gitwatcher.go:166-171 | polls that differ only in the active tag cause the same notifications and calls |
| GitWatcher.ActiveTagMoves | internal/switcher/gitwatcher.go:166-171 | moving or deleting an active tag of its own is such a difference |
| Broker.StepKeepsInv | internal/ui/sse.go:51-90 | every step of the loop, the handlers and the senders keeps the channel invariant |
| Broker.NoPanic | internal/ui/sse.go:58-86 | the loop only ever closes open channels and only ever sends on open ones |
| Broker.ClosedOnce | internal/ui/sse.go:57-76 | in every run a channel is closed at most once and never sent to afterwards |
| Broker.OpenIffKnown | internal/ui/sse.go:56-76 | a registered channel is open exactly while the loop knows it; a stopped loop has closed them all |
| Broker.QueueIsFifo | internal/ui/sse.go:158-171 | accepted messages are broadcast in order, each once |
| Broker.EveryBroadcastTried | internal/ui/sse.go:78-87 | every broadcast taken while a client is registered is tried on it exactly once, in order |
| Broker.DeliveredIsSuccesses | internal/ui/sse.go:80-86 | what a client has received and still has buffered is exactly the attempts that found room in its 10 slots |
| Broker.WrittenIsPrefix | internal/ui/sse.go:121-146 | each receipt writes one message: the response holds exactly the first messages that found room, as many as were received, and the buffer the rest |
| Broker.MissedOnlyWhenFull | internal/ui/sse.go:80-86 | a message misses a client only if ten others wait in its buffer |
| Broker.InOrderDelivery | internal/ui/sse.go:106-146 | what a handler writes is an order-preserving subsequence of the broadcasts taken while it was registered |
| BrokerProgress.HandlerCatchesUp | internal/ui/sse.go:121-146 | a streaming handler can write everything in its buffer, whatever the loop is doing |
| BrokerProgress.ClientRegisters | internal/ui/sse.go:66-69 | between rounds a new client can register and stream |
| BrokerProgress.ClientLeaves | internal/ui/sse.go:70-76 | between rounds a client can leave, which closes its channel |
| BrokerProgress.HandlerQuits | internal/ui/sse.go:113-119 | a handler whose request has ended need not wait for the loop |
| BrokerProgress.BroadcastReachesAll | internal/ui/sse.go:78-87 | a message published to an empty queue can reach every registered client with fewer than ten waiting, and nobody else |
| BrokerProgress.StopCloses | internal/ui/sse.go:56-65 | stopping closes the channels of exactly the registered clients |
| BrokerProgress.LoopComesBack | internal/ui/sse.go:51-90 | from every reachable state the loop can get back to its select, unless it stops |
| SSEBroker.SSEBroker.TakeUnregister | internal/ui/sse.go:70-76 | unregistering is exactly the machine's step |
| SSEBroker.SSEBroker.Send | internal/ui/sse.go:80-86 | one iteration of the broadcast loop is exactly the machine's step |
| SSEBroker.SSEBroker.SendEvent | internal/ui/sse.go:150-163 | publishing is exactly the machine's step |
| SSEBroker.SSEBroker.Perform | internal/ui/sse.go:51-146 | whatever happens next, the object takes the machine's step and its own history stays a run of the machine |

## Left out

- Buckets are pointers in `internal/metrics/store.go`; here the ring is an array of bucket values, which loses nothing because no pointer leaves the store, but says nothing about aliasing.
- Switching.Switcher.Switch: calls a `Proxy.Switch` that stands for one non-overlapping Switch and does not repeat its drain, because `ProtocolFollowsEvents` ties the targets it is given to runs of the protocol; overlapping calls of `Switcher.Switch` are not modelled.
- Proxy.ActiveTarget's nil case: `New` always stores a target, so the pointer is never nil here.
- sort.Slice is a library call; insertion sort stands for it, and `SortIsTheOnly` says why that is enough.
- Integer widths, the float rounding of averages and the capacity hints of slices are not modelled; resolutions are positive, as the configuration defaults make them.
- A ConnectionTracker without a callback behaves as TrackRequest and is not a separate kind of process.
- Reverse proxying, headers, status capture, metrics callbacks and logging in `proxy.go`: a request is entering, reading the target, being served and leaving.
- Overlapping fetchAndCheck calls (a poll and a refresh at once): the watcher's lock is dropped around the callback, so exactly-once notification is only claimed for one fetch at a time.
- fetchRefs, CloneRepo and go-git: a fetch is an arbitrary map from references to non-empty commits, or an error.
- The health checker is the oracle behind IsHealthy.
- SSE wire format: the event text is not parsed. Registering can block once the loop has stopped, so only a running loop is claimed to let clients in.
- RefreshGit, FetchNow, GetStatus and the other getters, the collector, configuration, admin server, templates, CLI and deployment: plumbing around the parts modelled here.
