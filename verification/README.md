# Verified models of the gateway

A Dafny model of the parts of the gateway that make promises over whole runs,
with proofs of those promises. `dafny verify dfyconfig.toml` checks all of it.

The modules follow the gateway's own components:

- **Signing clock and state directory** (`signing_clock.dfy`,
  `state_directory.dfy`, `gateway_mark.dfy`). The clock's critical sections are
  methods of a class; the processes that share a state directory are a state
  machine whose steps are the lock, the writes of the mark and how they end,
  signing, stopping, abandoning and dying.
- **Replay receiver** (`replay.dfy`, `indexed_heap.dfy`, `replay_key.dfy`). The
  bounded receiver with its two index-carrying heaps, and beside it a receiver
  that never forgets.
- **Evidence courier**. `courier_queue.dfy` and `courier_capacity.dfy` are what
  the durable queue holds and admits; `courier_directory.dfy` and
  `courier_store.dfy` its directory, every state the directory passes through
  while an operation runs, and runs of operations, crashes and restarts;
  `durable_queue.dfy` the queue object, its indexes and its load;
  `courier_admission.dfy` the custody boundary; `lane_backoff.dfy` back-offs on
  two clocks; `courier_runs.dfy` and `delivery_lane.dfy` the lanes that deliver,
  hold and retire; `delivery_status.dfy` the status; `return_publisher.dfy` the
  return queue; `refusal.dfy` the refusal policy and hold records.
- **Request pool** (`request_pool.dfy`): producers, drainers, panics and a stop.
- **Site registry and projection** (`site.dfy`).
- `base.dfy` and `decimal.dfy` hold shared definitions.

Conventions. Time is integers: milliseconds, or nanoseconds for back-offs.
Int64 arithmetic is written out where it can overflow. A hash is taken to be
injective, so an artifact's identifier is its type and its bytes. Disk, channel
and scheduler are nondeterministic: how a write, removal, send or crash ends is a
parameter of the step. An object whose methods update its fields is a class, each
method proved against a function of the old state; the promises are then lemmas
about those functions, over every run.

One hypothesis is explicit: an atomic write that reports an error committed
nothing. `CourierStore.UnconfirmedCommitRefuses` and `UnconfirmedSidecarRefuses`
show what goes wrong without it.

## Where the code does less than promised

Each of these is a lemma about the code as it is, with the exact condition under
which the promise holds.

- "Restarts cannot accumulate a lead" is off by one millisecond a run: a run whose
  mark found is ahead of the wall clock asks for a mark one past it, and may end
  once that mark lands without signing the value it covers, so k such runs raise
  the mark by k (`StateDirectory.RestartsCanLead`; the bound that does hold is
  `LeadIsBounded`).
- Signing times increase over every run that ends with no episode open
  (`SigningTimesIncrease`). They can repeat across runs exactly when a run ended
  with its last value above the mark on disk (`SigningNeverRepeats`,
  `UncoveredEndCanRepeat`).
- A held return is not always silent: a refusal decided between a pass's check and
  its publish is followed by the publish of the entry it holds, once
  (`HoldPrecedesAPublish`; `HeldPublishesOnlyInFlight` is the exact condition). A
  restart forgets which entry was held, and carries it again.
- Admission with reserved shares does not depend on the device's own records
  alone: a record's encoded size includes the decimal digits of the queue-wide
  sequence. `SequenceDigitsDecide` says exactly when that decides.
- A retirement whose unlink is not confirmed and whose restore fails leaves a
  record in memory without its file. The back-off written next stands beside no
  record, and the directory then refuses to load (`LostRecordRefusesStart`).
  An envelope carried again after such a loss is answered with custody while no
  file holds it (`LostRecordReissuesCustody`); `Courier.Admit` says exactly when.
  `CrashPointsLoad` gives the exact condition for one operation, and
  `CarefulRunsStart` shows that without such a loss every start succeeds.
- A restart does forget how far a back-off has grown: it restores the attempts but
  not which head they were at, so the first attempt after it starts from none, and
  the back-off that follows is sized by one (`RestartForgetsGrowth`;
  `RestartShortensABackoff` is a run at the default timing). `BackoffIsSized` is the
  exact condition, and `GrowthIsKeptWhen` says when the delay is the same anyway.
- The doubling of a back-off can overflow int64 when the configured bound is above
  2^62 ns; the delay then falls to the delivery interval (`DelayIsIdeal`).

## Model

| member | source | states |
|---|---|---|
| `SigningClocks.ReservationFor` | internal/mqttauth/signingclock.go:211-213 | the mark written for a value covers it, stays below the ceiling, and is never further ahead than one reservation past the wall clock or the value itself |
| `SigningClocks.Starting` | internal/mqttauth/signingclock.go:166-190 | a durable start begins at the mark it found and reserves no more than one reservation past the wall clock |
| `SigningClocks.PassKeeps` | internal/mqttauth/signingclock.go:224-290 | one pass of Next keeps the clock invariant and issues the least value at or past the wall clock and past the last one, exactly when a completed mark covers it or an episode is open, below the ceiling and before Stop; a pass that waits leaves a write outstanding that covers its value |
| `SigningClocks.PassExtends` | internal/mqttauth/signingclock.go:240-272 | a pass starts a write if and only if none is outstanding, no episode is open, and its value is past the coverage or within half a reservation of it where a new mark moves it forward |
| `SigningClocks.StepsKeep` | internal/mqttauth/signingclock.go:294-365 | write bound, wait bound, retry, write end and stop keep the invariant: one write at most, last value at or below the completed mark outside an episode, and in an unstopped episode exactly one of an outstanding write and a scheduled retry; an episode ends only by a completed write covering every value issued |
| `SigningClocks.StoppedClockIsQuiet` | internal/mqttauth/signingclock.go:439-454 | after Stop no step issues a value or starts a write |
| `SigningClocks.SigningClock.constructor` | internal/mqttauth/signingclock.go:166-190 | the fields a durable start sets before its first write; from a mark in range they satisfy the clock's invariant exactly when the first mark is not negative |
| `SigningClocks.SigningClock.FirstWriteCompletes` | internal/mqttauth/signingclock.go:190-207 | the start's first write, completed, covers exactly what it reserved |
| `SigningClocks.SigningClock.StartWriteLocked` | internal/mqttauth/signingclock.go:294-308 | the fields a started write changes, equal to the specified step |
| `SigningClocks.SigningClock.ScheduleRetryLocked` | internal/mqttauth/signingclock.go:350-355 | a retry is scheduled once, and never on a stopped clock |
| `SigningClocks.SigningClock.OpenEpisodeLocked` | internal/mqttauth/signingclock.go:337-345 | an episode opens with a retry exactly when no write is outstanding |
| `SigningClocks.SigningClock.NextPass` | internal/mqttauth/signingclock.go:224-290 | one pass of the loop on the fields keeps the invariant; a value it issues is above every earlier one, at or past the wall clock, below the ceiling, and covered by a completed mark or issued in an open episode |
| `SigningClocks.SigningClock.Persisted` | internal/mqttauth/signingclock.go:312-334 | keeps the invariant; a completed write covers its mark, and an open episode stays open exactly when a value above that mark was issued; a failed one opens or keeps an episode with a retry |
| `SigningClocks.SigningClock.WriteBoundPasses` | internal/mqttauth/signingclock.go:294-308 | the bound of the outstanding write opens an episode and changes nothing else; the bound of any other write changes nothing |
| `SigningClocks.SigningClock.RetryFires` | internal/mqttauth/signingclock.go:357-365 | keeps the invariant; a paced retry starts a write only while unstopped, in an episode and with none outstanding, and that write covers the last value |
| `SigningClocks.SigningClock.Stop` | internal/mqttauth/signingclock.go:439-454 | stopping closes the clock and answers the outstanding write, if any |
| `StateDirectory.RunKeeps` | cmd/ori-gateway/app.go:316-368 | every interleaving of processes on one state directory keeps the system invariant |
| `StateDirectory.MarkNeverFalls` | internal/gatewaystate/gatewaystate.go:246-311 | over any runs, with writes landing, failing with either outcome or cut by a crash, the mark on disk never falls |
| `StateDirectory.OutstandingWriteHoldsTheLock` | cmd/ori-gateway/app.go:170-214 | a process with an outstanding mark write holds the lock and has only that write, on the refused-start, clean-stop and abandon paths alike |
| `StateDirectory.StopIsFinal` | cmd/ori-gateway/app.go:341-355 | once a run has decided to stop, its process issues no value and starts no write, whatever happens until it ends |
| `StateDirectory.StartsBelowTheCeiling` | internal/mqttauth/signingclock.go:166-180 | a start is refused before it writes exactly when its first value would reach the ceiling |
| `StateDirectory.StalledWriteSigns` | internal/mqttauth/signingclock.go:240-308 | over every interleaving: once the bound of an unstopped clock's outstanding write, or of a waiting value, has passed, every Next below the ceiling issues at once the least value at or past the wall clock and past the last, until a write completes that covers every issued value |
| `StateDirectory.SigningNeverRepeats` | internal/mqttauth/signingclock.go:166-334 | over any number of runs and any wall clock, every value is above all issued before it, unless a run ended with its last value above the mark on disk |
| `StateDirectory.EndWithoutEpisodeIsCovered` | internal/mqttauth/signingclock.go:312-345 | a run that ends with no episode open never ends so |
| `StateDirectory.SigningTimesIncrease` | internal/mqttauth/signingclock.go:166-334 | over any number of runs on one state directory, any wall clock and any ends of the writes: if every run ends with no episode open, every signing time is strictly greater than all issued before it |
| `StateDirectory.UncoveredEndCanRepeat` | internal/mqttauth/signingclock.go:166-207 | the condition is exact: from any directory left so, a fresh run can sign at or below an earlier value |
| `StateDirectory.EpisodeRunEndsUncovered` | internal/mqttauth/signingclock.go:337-345 | such a directory is reachable, by a run that signs in an episode and ends |
| `StateDirectory.LeadIsBounded` | internal/mqttauth/signingclock.go:25-34 | with every wall reading at most W and mark F found, after N values and R runs every value is below max(W+1000, F)+N+R and every mark at most that, and all stay below the ceiling |
| `StateDirectory.RestartsCanLead` | internal/mqttauth/signingclock.go:29-33 | the bound is reached: k starts that sign nothing leave the mark exactly k above the one found |
| `GatewayMark.ParsesExactly` | internal/gatewaystate/gatewaystate.go:279-289 | a text parses as a mark if and only if it is the decimal digits of that number, below the ceiling, with leading zeros, one plus sign and surrounding white space allowed |
| `GatewayMark.MarkRoundTrip` | internal/gatewaystate/gatewaystate.go:279-311 | every mark in range reads back from the text it is written as, within the size limit |
| `GatewayMark.Mark.WriteAtomically` | internal/gatewaystate/gatewaystate.go:147-185 | a successful write leaves exactly its text; a failed one the old text or the new |
| `GatewayMark.Mark.Persist` | internal/gatewaystate/gatewaystate.go:297-311 | out-of-range marks change nothing, a mark already covered is not written, a success is on disk, and the readable mark never falls |
| `ReplayKeys.ReplayKey` | internal/mqttauth/mqttauth.go:292-301 | the built key is the length-prefixed concatenation of the five parts |
| `ReplayKeys.FramesInjective` | internal/mqttauth/mqttauth.go:292-301 | length-prefixed framing is injective on lists of strings of one length |
| `ReplayKeys.KeyInjective` | internal/mqttauth/mqttauth.go:292-301 | two envelopes share a replay key exactly when all five parts agree |
| `IndexedHeaps.RootIsLeast` | internal/mqttauth/replay.go:174-214 | in heap order the first entry is least |
| `IndexedHeaps.IndexedHeap.constructor` | internal/mqttauth/replay.go:58-63 | an empty heap in heap order |
| `IndexedHeaps.IndexedHeap.Swap` | internal/mqttauth/replay.go:179-182 | swapping two entries keeps every key's recorded position right |
| `IndexedHeaps.IndexedHeap.Up` | internal/mqttauth/replay.go:174-193 | sifting up restores heap order around one entry |
| `IndexedHeaps.IndexedHeap.Down` | internal/mqttauth/replay.go:174-193 | sifting down restores heap order below one entry |
| `IndexedHeaps.IndexedHeap.Push` | internal/mqttauth/replay.go:183-187 | a push adds exactly that key and priority, in heap order |
| `IndexedHeaps.IndexedHeap.Remove` | internal/mqttauth/replay.go:188-193 | a removal by position removes exactly that key, in heap order |
| `IndexedHeaps.IndexedHeap.Init` | internal/mqttauth/replay.go:146-160 | re-prioritising every key restores heap order |
| `IndexedHeaps.IndexedHeap.HeadIsLeast` | internal/mqttauth/replay.go:129-140 | the first key has the least priority |
| `Replay.NeverAcceptedTwice` | internal/mqttauth/replay.go:67-172 | for any clock readings and any recording, pruning and eviction, no two accepted envelopes share a key in a run; for a storing receiver also across restarts of any skew and rotations keeping the previous secret |
| `Replay.RestartForgets` | internal/mqttauth/replay.go:146-160 | a receiver that does not store accepts after a restart exactly the fresh envelopes signed at or past the restart clock |
| `Replay.RotationForgets` | internal/mqttauth/replay.go:162-173 | so does any receiver after a rotation that keeps no previous secret |
| `Replay.DueExactly` | internal/mqttauth/replay.go:102-112 | a key's retention has ended at t if and only if its envelope is stale at t and, with a ttl, at least that long has passed since its receipt |
| `Replay.AcceptsOnlyWhatIdealAccepts` | internal/mqttauth/replay.go:67-140 | whatever the bounded receiver accepts, one that never forgets would accept |
| `Replay.CalmRunIsIdeal` | internal/mqttauth/replay.go:67-140 | under a non-decreasing clock and below capacity the two give the same verdict, reason included, on every envelope |
| `Replay.Receiver.constructor` | internal/mqttauth/replay.go:58-63 | a fresh receiver at its start clock |
| `Replay.Receiver.Unhold` | internal/mqttauth/replay.go:114-124 | a key leaves the map and both heaps together |
| `Replay.Receiver.Drop` | internal/mqttauth/replay.go:114-124 | exactly that key is dropped and the floor rises past it |
| `Replay.Receiver.Raise` | internal/mqttauth/replay.go:114-124 | the floor rises to a value and never falls |
| `Replay.Receiver.Prune` | internal/mqttauth/replay.go:129-133 | a key is dropped if and only if its envelope is stale at t and, with a ttl, at least that long has passed since its receipt |
| `Replay.Receiver.Evict` | internal/mqttauth/replay.go:136-140 | one key of least signing time is dropped, none from an empty receiver |
| `Replay.Receiver.Record` | internal/mqttauth/replay.go:91-100 | the key is held, one is evicted first when full, and the count stays within its limit |
| `Replay.Receiver.Hold` | internal/mqttauth/replay.go:91-100 | a key enters the map and both heaps together |
| `Replay.Receiver.Forget` | internal/mqttauth/replay.go:146-160 | every held key is forgotten from the map and both heaps |
| `Replay.Receiver.Restart` | internal/mqttauth/replay.go:146-160 | a restart under a new skew keeps the keys exactly when the receiver stores, leaves the floor at the greater of the clock and the stored floor, and both heaps in order |
| `Replay.Receiver.Rotate` | internal/mqttauth/replay.go:166-172 | a rotation keeps what was held only with the previous secret |
| `Replay.Receiver.CheckEnvelope` | internal/mqttauth/replay.go:67-75 | the verdict of a check, reason included |
| `Replay.Receiver.RecheckEnvelope` | internal/mqttauth/replay.go:79-87 | the verdict of a recheck |
| `Replay.Receiver.CheckFreshAndRecord` | internal/mqttauth/mqttauth.go:307-339 | check, decide, recheck and record as one step of the specified receiver |
| `RequestPools.RunKeeps` | cmd/ori-gateway/requests.go:118-195 | every interleaving of arrivals, drainers, panics and a stop keeps the pool invariant |
| `RequestPools.HandledInArrivalOrder` | cmd/ori-gateway/requests.go:118-165 | each device's messages are taken in arrival order by one goroutine at a time, and an empty queue is never popped |
| `RequestPools.HeldIsQueuedPlusRunning` | cmd/ori-gateway/requests.go:118-195 | each (device, family) count is its queued plus running messages, within its limit |
| `RequestPools.RefusedAtTheLimit` | cmd/ori-gateway/requests.go:118-150 | an arrival the gate admits is refused if and only if its device and family have as many messages queued or running as their allowance |
| `RequestPools.AdmissionsReleasedOnce` | cmd/ori-gateway/app.go:1542-1586 | no admission is released twice, and the gate counts exactly those not yet released |
| `RequestPools.NeverStuck` | cmd/ori-gateway/requests.go:118-204 | in every reachable state some step of the pool is possible if and only if an admission is outstanding |
| `RequestPools.StopJoins` | cmd/ori-gateway/app.go:1575-1586 | once stopped, the pool takes a bounded number of steps more, whatever arrives and however its goroutines interleave; where none is possible every admission was released and no goroutine is left |
| `RequestPools.CanJoin` | cmd/ori-gateway/app.go:1575-1586 | every reachable state has a continuation, of the pool's own steps, that releases every admission |
| `RequestPools.JoinedPoolIsEmpty` | cmd/ori-gateway/app.go:1575-1586 | when the gate has joined everything, no queue, count or goroutine is left and every admission was released |
| `RequestPools.CountsArePositive` | cmd/ori-gateway/requests.go:178-182 | no count of zero is kept |
| `RequestPools.NoHandlerAfterStop` | cmd/ori-gateway/requests.go:190-204 | once the stop is decided no handler begins, whatever is queued |
| `RequestPools.RequestPool.Handle` | cmd/ori-gateway/requests.go:118-152 | admission, the limit, and whether a drainer starts, with the new tables |
| `RequestPools.RequestPool.Pop` | cmd/ori-gateway/requests.go:155-165 | the first queued message of the device is taken |
| `RequestPools.RequestPool.Finish` | cmd/ori-gateway/requests.go:171-195 | the count is released, and the drainer ends exactly on an empty queue |
| `Site.RegistryKeeps` | internal/site/site.go:96-132 | after any history the registry agrees with the last heartbeat and the last export reading, and a device it no longer lists was not last critical |
| `Site.NodeIsCritical` | internal/site/health.go:235-314 | a projected node is critical exactly when its last heartbeat or last export reading was |
| `Site.SilentNodeIsNotHealthy` | internal/site/health.go:235-314 | a device silent past its time to live is never projected healthy |
| `Site.RegistryMatches` | internal/site/site.go:96-132 | after any history the registry has a node exactly for the devices heard from and not forgotten, with their last heartbeat's readings, and lists as silent exactly those found silent and critical since |
| `Site.StaleByLastMove` | internal/site/site.go:104-110 | whatever its clock does, a node is stale if and only if its report last moved more than the TTL ago; a heartbeat moves it when it is the first since the device became known, or its last_seen passes the heartbeat's before |
| `Site.StaleIsFrozen` | internal/site/site.go:292-299 | on a clock that does not fall, as the registry's monotonic one does not, that is if and only if every heartbeat that moved its report since it became known is more than the TTL old |
| `Site.ProjectedExactly` | internal/site/health.go:235-314 | what is projected of an expected device from the history alone: observed, stale, critical, and healthy if and only if it is known, its report moved within the TTL, its last heartbeat said healthy with no evidence problem, and its last export read ok or nothing |
| `Site.SiteIsCriticalExactly` | internal/site/health.go:235-337 | the site is critical exactly when the gateway is or some expected device's last heartbeat or last export reading was |
| `Site.SiteIsHealthyExactly` | internal/site/health.go:235-337 | the site is healthy exactly when the gateway is, delivers its evidence, and every expected device is projected healthy |
| `Site.SiteRegistry.constructor` | internal/site/site.go:84-92 | an empty registry |
| `Site.SiteRegistry.Upsert` | internal/site/site.go:96-132 | the registry after a heartbeat, whose effect over histories is StaleByLastMove and RegistryMatches |
| `Site.SiteRegistry.UpsertPosture` | internal/site/site.go:222-235 | the registry after an export reading |
| `Site.SiteRegistry.EvictStaleRetainingCritical` | internal/site/site.go:258-283 | exactly the silent, not critical devices are evicted, and exactly the newly silent critical ones reported |
| `Site.SiteRegistry.ProjectNode` | internal/site/health.go:245-289 | one device's node: its severity from status, staleness, export floor and evidence |
| `Site.MostSevere` | internal/site/health.go:291-300 | the greatest severity of the gateway and the nodes |
| `Site.SiteRegistry.Project` | internal/site/health.go:235-337 | one node per expected device with its severity, and the greatest severity as the site's |
| `Refusal.RefusalWellFormed` | internal/evidence/courier/channel.go:233-276 | which responses are well-formed refusals, by status, outcome, digest and Retry-After |
| `Refusal.RefusalClass` | internal/evidence/refusal/refusal.go:144-168 | which statuses and reasons back off, which wait for a handoff, that all others hold, and which reason is recorded |
| `Refusal.RecordsListed` | internal/evidence/refusal/refusal.go:75-88 | the reason recorded is the response's where its status lists it, or any does for a channel without statuses |
| `Refusal.RetryAfterReads` | internal/evidence/courier/channel.go:278-285 | a Retry-After is read exactly where it is a decimal number of seconds from 1 to 2^31-1, so one a server writes is read back |
| `Refusal.ValidHoldExactly` | internal/evidence/courier/hold.go:304-332 | which hold records validate: version, record, bytes, time, status, and the reasons at which that status holds |
| `Refusal.HoldRecordValidates` | internal/evidence/courier/hold.go:304-332 | a refusal the HTTP channel classes as hold yields a record that validates when written and when reloaded exactly while the clock reads a positive safe integer; the classes agree with the policy; a recognised reason of another class never validates as a hold |
| `Refusal.StatuslessHoldValidates` | internal/evidence/courier/worker.go:638-647 | a channel without statuses yields a valid hold record, whatever its reason, exactly while the clock reads a positive safe integer |
| `CourierQueue.RecordFits` | internal/evidence/courier/courier.go:18-49 | no outbound record of an admissible artifact is larger than the declared maxima, and a largest registration is exactly as large |
| `CourierQueue.SumSplit` | internal/evidence/courier/queue.go:304-329 | a record accounts for its own weight in every count |
| `CourierQueue.SumLanes` | internal/evidence/courier/queue.go:135-146 | a device's count is that of its two lanes |
| `CourierQueue.SharesAddUp` | internal/evidence/courier/queue.go:231-237 | devices each within a share are together within that many shares |
| `CourierCapacity.OthersLeaveTheShare` | internal/evidence/courier/queue.go:236-237 | with integer division, however full the other devices are they leave each its share |
| `CourierCapacity.OpensExactly` | internal/evidence/courier/queue.go:186-242 | a queue opens exactly with positive bounds and, with reserved shares, where each device's equal part holds two items and the largest registration beside the largest evidence record |
| `CourierCapacity.OwnRecordsDecide` | internal/evidence/courier/queue.go:380-453 | from any queue within its shares, admission is decided by the device's own records and the record's encoded size: the whole queue's bounds never refuse what the share would take |
| `CourierCapacity.AdmittedExactly` | internal/evidence/courier/queue.go:380-453 | with n configured devices and reserved shares, the verdict in numbers: admitted if and only if the device is configured, the clock positive, its items below maxItems/n and its evidence below one less, its bytes with the record within maxBytes/n and its evidence within that less the largest record; and which refusal otherwise |
| `CourierCapacity.UnreservedAdmission` | internal/evidence/courier/queue.go:380-453 | without reserved shares, admitted if and only if the device is configured, the clock positive and the whole queue within its two bounds |
| `CourierCapacity.SequenceDigitsDecide` | internal/evidence/courier/queue.go:398-415 | two queues holding the same records of a device differ on an artifact exactly when the sequence it would be given has more digits and the room left lies between the two sizes |
| `CourierCapacity.AnotherDeviceCanRefuse` | internal/evidence/courier/queue.go:398-415 | so another device's record can turn an admission into a refusal |
| `CourierCapacity.RegistrationReserve` | internal/evidence/courier/queue.go:429-453 | a registration of any admissible size is admitted whenever its lane is empty |
| `CourierCapacity.EveryDeviceIsServed` | internal/evidence/courier/queue.go:429-453 | under the smallest share a queue opens with, a device with nothing queued is admitted any outbound artifact of admissible size |
| `CourierCapacity.AdmissionKeepsShares` | internal/evidence/courier/queue.go:380-427 | admission keeps every device within its share |
| `CourierCapacity.RetirementKeepsShares` | internal/evidence/courier/queue.go:590-632 | so does retirement |
| `CourierDirectory.LoadsOnce` | internal/evidence/courier/queue.go:654-748 | a directory loads as one content: the same records, order, holds and back-offs |
| `CourierDirectory.LoadsUnlessOrphaned` | internal/evidence/courier/hold.go:102-144 | a directory whose files all match a queue loads exactly when no hold or back-off stands without its record, and loads what is on disk |
| `CourierDirectory.OrphanRefuses` | internal/evidence/courier/hold.go:238-265 | a sidecar without its record refuses the load |
| `CourierStore.StepKeeps` | internal/evidence/courier/queue.go:590-632 | every insert, hold, back-off and retirement, however its writes and removals end, leaves memory consistent and every file one memory accounts for |
| `CourierStore.WritesTakeEffect` | internal/evidence/courier/queue.go:405-427 | an insert, hold or back-off takes effect in memory and on disk together, exactly where the queue accepts it and its write commits, and otherwise changes neither |
| `CourierStore.RetiresCleanly` | internal/evidence/courier/queue.go:590-632 | a retirement that meets no failure removes the record and its sidecars from memory and disk, and nothing else |
| `CourierStore.RetirementKeepsRecord` | internal/evidence/courier/queue.go:604-619 | a retirement whose file is missing, not unlinked, or not confirmed gone keeps the record, and its file as it was or exactly when restored |
| `CourierStore.CrashCuts` | internal/evidence/courier/queue.go:590-619 | where a crash can cut each operation: a staged file for every accepted write, and between the removals of a retirement |
| `CourierStore.ClearTakesEffect` | internal/evidence/courier/hold.go:199-212 | a cleared back-off leaves memory exactly when its removal is confirmed |
| `CourierStore.CrashPointsMirror` | internal/evidence/courier/queue.go:754-795 | at every crash point the files are those of memory before or after the operation |
| `CourierStore.CrashPointsLoad` | internal/evidence/courier/hold.go:85-100 | every crash point of an operation loads, and no sidecar outlives its record, exactly unless it writes a sidecar beside a record whose file is missing |
| `CourierStore.CrashPointContent` | internal/evidence/courier/queue.go:654-748 | what a crash point loads: the records of before or after, or those without the one being retired, and only sidecars memory had |
| `CourierStore.WholeUnlessLost` | internal/evidence/courier/queue.go:606-619 | every record keeps its file through an operation, exactly unless a retirement is unlinked, not confirmed and not restored |
| `CourierStore.RunKeeps` | internal/evidence/courier/queue.go:168-250 | over every run of operations, crashes and restarts the store is sound, so its directory loads exactly while no sidecar is orphaned |
| `CourierStore.CarefulRunsStart` | internal/evidence/courier/queue.go:654-748 | over every run that loses no record's file, every process starts, wherever the one before it was cut |
| `CourierStore.ReloadRebuilds` | internal/evidence/courier/queue.go:654-748 | reloading rebuilds the same records in the same order, and so the same byte total and the same counts per lane and device |
| `CourierStore.RecordOutlives` | internal/evidence/courier/queue.go:569-632 | through any run, a record with its file on disk stays queued with its sequence until an operation retires it |
| `CourierStore.LostRecordStays` | internal/evidence/courier/queue.go:590-619 | a retirement that is unlinked but neither confirmed nor restored leaves the record queued and no file |
| `CourierStore.LostRecordRefusesStart` | internal/evidence/courier/queue.go:609-619 | a reachable run after which the directory refuses to load: a failed restore, then the back-off that follows |
| `CourierStore.UnconfirmedCommitRefuses` | internal/evidence/courier/queue.go:720-722 | if an insert's rename lands but its sync fails, the next insert shares its sequence and the directory refuses to load |
| `CourierStore.UnconfirmedSidecarRefuses` | internal/evidence/courier/hold.go:171-196 | if the rename of a hold or back-off lands but its sync fails, a later retirement of the record leaves the sidecar behind and the directory refuses to load, exactly when memory held none before |
| `DurableQueues.SortIds` | internal/evidence/courier/queue.go:797-805 | the order is sorted by sequence and lists the same records |
| `DurableQueues.PermutedSums` | internal/evidence/courier/queue.go:797-805 | sorting changes no count or byte total |
| `DurableQueues.LanesBumped` | internal/evidence/courier/queue.go:304-311 | indexing a record keeps every lane's counts and bytes, with a key for exactly the lanes that have records |
| `DurableQueues.LanesLowered` | internal/evidence/courier/queue.go:313-329 | unindexing keeps them, deleting the keys that reach nothing |
| `DurableQueues.DevicesBumped` | internal/evidence/courier/queue.go:304-311 | likewise per device |
| `DurableQueues.DevicesLowered` | internal/evidence/courier/queue.go:313-329 | likewise per device |
| `DurableQueues.DurableQueue.constructor` | internal/evidence/courier/queue.go:200-220 | an empty queue over a directory not yet loaded |
| `DurableQueues.DurableQueue.LaneShareRefuses` | internal/evidence/courier/queue.go:439-453 | the share refusal computed from the maps is that of the records, in numbers: an nth of each bound, less for evidence one item and the largest record |
| `DurableQueues.DurableQueue.Index` | internal/evidence/courier/queue.go:304-311 | the four maps after a record is counted |
| `DurableQueues.DurableQueue.Unindex` | internal/evidence/courier/queue.go:313-329 | the four maps after a record is taken out |
| `DurableQueues.DurableQueue.SortOrder` | internal/evidence/courier/queue.go:797-805 | the order is by sequence and every index still agrees |
| `DurableQueues.DurableQueue.Append` | internal/evidence/courier/queue.go:724-728 | entries, sizes, order, bytes and counts after one more record |
| `DurableQueues.DurableQueue.Check` | internal/evidence/courier/queue.go:380-415 | the insert's checks in order give the specified verdict |
| `DurableQueues.DurableQueue.Insert` | internal/evidence/courier/queue.go:362-427 | newly queued if and only if the payload is not empty, not queued already, admitted and its write committed; the record carries the next sequence and the clock, its file is on disk before the insert returns, and bytes already queued change nothing |
| `DurableQueues.DurableQueue.Commit` | internal/evidence/courier/queue.go:419-425 | a committed record is last in the order and the sequence advances |
| `DurableQueues.DurableQueue.Hold` | internal/evidence/courier/hold.go:49-72 | a hold is recorded exactly for a queued record and a valid record, written before memory keeps it |
| `DurableQueues.DurableQueue.PutBackoff` | internal/evidence/courier/hold.go:171-196 | likewise for a back-off |
| `DurableQueues.DurableQueue.RemoveHold` | internal/evidence/courier/hold.go:88-100 | the hold leaves memory only once its removal is confirmed |
| `DurableQueues.DurableQueue.RemoveBackoff` | internal/evidence/courier/hold.go:224-236 | likewise for a back-off |
| `DurableQueues.DurableQueue.Remove` | internal/evidence/courier/queue.go:590-632 | a retirement on the fields is the specified step; success leaves neither entry nor file |
| `DurableQueues.DurableQueue.RemoveFile` | internal/evidence/courier/queue.go:606-631 | the record's file, its restore, and only then its entry |
| `DurableQueues.DurableQueue.Forget` | internal/evidence/courier/queue.go:620-630 | entries, sizes, order, bytes and counts without one record |
| `DurableQueues.DurableQueue.Unlist` | internal/evidence/courier/queue.go:620-629 | entries, sizes and order without one record |
| `DurableQueues.DurableQueue.IndexOf` | internal/evidence/courier/queue.go:624-629 | the position of an identifier in the order |
| `DurableQueues.DurableQueue.PeekLane` | internal/evidence/courier/queue.go:458-470 | the oldest record of one lane |
| `DurableQueues.FirstOf` | internal/evidence/courier/queue.go:464-469 | the scan behind it finds the lane's first record, or none |
| `DurableQueues.DurableQueue.Peek` | internal/evidence/courier/queue.go:557-567 | the oldest record |
| `DurableQueues.ReadRecord` | internal/evidence/courier/queue.go:700-723 | a record file is read exactly when it is valid, named by its bytes and of an unused sequence; otherwise the directory does not load |
| `DurableQueues.DurableQueue.LoadRecord` | internal/evidence/courier/queue.go:700-731 | entries, counts and next sequence after one record file |
| `DurableQueues.DurableQueue.LoadName` | internal/evidence/courier/queue.go:662-731 | what one directory entry adds, by its name; an unexpected entry, or a record file a load cannot use, refuses the whole directory |
| `DurableQueues.DurableQueue.LoadRecords` | internal/evidence/courier/queue.go:654-732 | after the scan the entries are exactly the record files, or the directory does not load |
| `DurableQueues.DurableQueue.Settle` | internal/evidence/courier/queue.go:733-736 | order and bounds: exceeding them means the directory does not load |
| `DurableQueues.DurableQueue.LoadHolds` | internal/evidence/courier/hold.go:107-144 | every hold is read against its record, or the directory does not load |
| `DurableQueues.DurableQueue.LoadBackoffs` | internal/evidence/courier/hold.go:240-265 | every back-off likewise |
| `DurableQueues.DurableQueue.LoadSidecars` | internal/evidence/courier/queue.go:741-746 | both, in turn |
| `DurableQueues.DurableQueue.Load` | internal/evidence/courier/queue.go:654-748 | loading, in any listing order, succeeds exactly when the directory loads, and then holds exactly that content with consistent indexes |
| `CourierAdmission.AnsweredIsDurable` | internal/evidence/courier/courier.go:95-109 | whatever an insert answers with has its file, from a store whose records all have theirs |
| `CourierAdmission.Courier.constructor` | internal/evidence/courier/courier.go:88-93 | a courier over a queue |
| `CourierAdmission.Courier.Admit` | internal/evidence/courier/courier.go:98-139 | an artifact is newly queued if and only if it is an outbound type with a device, an admissible size and, for an envelope, a safe positive local_seq, not queued, admitted and written; custody is issued exactly for such an envelope that is queued and signed, and names the exact bytes and the first time they were queued; its file is then on disk if and only if the envelope is new or its file was on disk before |
| `CourierAdmission.LostRecordReissuesCustody` | internal/evidence/courier/courier.go:98-139 | a reachable run after which an envelope is answered with its record and no file is on disk |
| `LaneBackoffs.NewTiming` | internal/evidence/courier/worker.go:107-116 | the worker's timing always has 0 < interval <= base <= bound; each option is the one set, or raised no further than to what it must meet, or the default |
| `LaneBackoffs.BackoffDelay` | internal/evidence/courier/worker.go:209-218 | the loop computes the specified 64-bit doubling |
| `LaneBackoffs.DelayIsIdeal` | internal/evidence/courier/worker.go:206-218 | the delay is max(min(base*2^(attempts-1), bound), interval, Retry-After) for all attempts and floors exactly when no doubling below the bound leaves 64 bits |
| `LaneBackoffs.OverflowShortens` | internal/evidence/courier/worker.go:211-213 | where one does, the delay falls to the delivery interval |
| `LaneBackoffs.OrdinaryBoundsFit` | internal/evidence/courier/worker.go:209-218 | a bound of at most 2^62 ns is enough |
| `LaneBackoffs.CeilMilli` | internal/evidence/courier/worker.go:502-508 | an instant rounded up to whole milliseconds, by less than one |
| `LaneBackoffs.MonoLeft` | internal/evidence/courier/worker.go:470 | the monotonic remainder is exact even where the deadline itself wrapped around |
| `LaneBackoffs.NeverEndsEarly` | internal/evidence/courier/worker.go:456-477 | however the wall clock steps and however often the lane looks, an attempt is due only once the full delay has passed on the monotonic clock |
| `LaneBackoffs.NeverWaitsLong` | internal/evidence/courier/worker.go:510-516 | from any instant the wait is below the greater of the bound and the Retry-After plus one millisecond, for a scheduled and for a restored back-off |
| `LaneBackoffs.ScheduledIsBounded` | internal/evidence/courier/worker.go:412-420 | a scheduled back-off meets that condition |
| `LaneBackoffs.RestoredIsBounded` | internal/evidence/courier/worker.go:310-322 | so does a restored one |
| `LaneBackoffs.RecordValidates` | internal/evidence/courier/hold.go:267-283 | a scheduled or clamped deadline is stored exactly, and its record validates exactly while it is a positive safe number of milliseconds |
| `LaneBackoffs.RestartRestores` | internal/evidence/courier/worker.go:297-329 | a restart restores the fields of the record: attempts, Retry-After, the deadline clamped to the bound past the wall clock, and its rest on the monotonic clock; the deadline is the one a look at the same clock would leave, but where the bound is 2^63-1 ns and clamps |
| `LaneBackoffs.StoredIsInForce` | internal/evidence/courier/worker.go:485-502 | over every run whose records are written, the back-off stored is the one in force, clamps included |
| `LaneBackoffs.ClearedIsNotRestored` | internal/evidence/courier/worker.go:441-449 | a back-off cleared after an attempt, its record removed, is not restored |
| `LaneBackoffs.BackoffIsSized` | internal/evidence/courier/worker.go:551-557 | over every run of attempts, looks, back-offs, clears, retirements and restarts: a back-off in force grows by one attempt if and only if this process last attempted that same head, and otherwise starts from one; in the history's terms, one more than how often this process backed off from it in a row |
| `LaneBackoffs.RestartForgetsGrowth` | internal/evidence/courier/worker.go:551-557 | the first back-off after any restart is sized by one attempt, whatever the record restored |
| `LaneBackoffs.GrowthIsKeptWhen` | internal/evidence/courier/worker.go:206-220 | a first back-off is as long as the one k earlier attempts call for if and only if base and bound are equal or the Retry-After covers it |
| `LaneBackoffs.RestartShortensABackoff` | internal/evidence/courier/hold.go:158-167 | with the default timing, a stored and restored back-off of two attempts is followed by one of five seconds where twenty are due |
| `LaneBackoffs.NeverEndsEarlyOverRestart` | internal/evidence/courier/worker.go:297-329 | over a restart, however the wall clock stepped: what it shows past the earliest reading before the restart and the monotonic time after it add up to the full delay before an attempt |
| `LaneBackoffs.LaneTimer.constructor` | internal/evidence/courier/worker.go:149 | a lane without a back-off |
| `LaneBackoffs.LaneTimer.BeginAttempt` | internal/evidence/courier/worker.go:551-557 | no deadline is in force, and attempts start from zero for a head other than the last attempted |
| `LaneBackoffs.LaneTimer.Retired` | internal/evidence/courier/worker.go:621-623 | a delivered head leaves no attempts and no last attempted head |
| `LaneBackoffs.LaneTimer.ScheduleBackoff` | internal/evidence/courier/worker.go:400-439 | the fields, the record persisted, and a wait of at least the delay and below the bound plus one millisecond |
| `LaneBackoffs.LaneTimer.UntilDue` | internal/evidence/courier/worker.go:460-477 | the clamp and the wait on both clocks |
| `LaneBackoffs.LaneTimer.Turn` | internal/evidence/courier/worker.go:331-360 | a turn of the lane's loop goes on to an attempt exactly when both deadlines have passed, and never on the timer for a head that is held or waits for a handoff |
| `LaneBackoffs.LaneTimer.Restore` | internal/evidence/courier/worker.go:297-322 | the fields restored from a record |
| `LaneBackoffs.LaneTimer.ClearBackoff` | internal/evidence/courier/worker.go:441-449 | no back-off is in force and an attempt is due at once |
| `CourierRuns.CheckAcceptance` | internal/evidence/courier/worker.go:581-604 | the loop accepts if and only if every artifact is a non-empty receipt or epoch confirmation of the queued artifact's device, every receipt has a range 0 < from <= to <= 2^53-1, and an envelope has a receipt whose range holds its local_seq |
| `CourierRuns.LaneMoves` | internal/evidence/courier/queue.go:455-470 | any step of the store takes at most the head from a lane and adds only at its end |
| `CourierRuns.ReturnsMove` | internal/evidence/courier/return_queue.go:43-84 | through any operation on the return queue and any crash, what was stored in it stays, with its file, until its own retirement begins |
| `CourierRuns.NextKeeps` | internal/evidence/courier/worker.go:532-626 | every action of the courier keeps its invariant |
| `CourierRuns.RunsAreGood` | internal/evidence/courier/worker.go:331-396 | so does every run |
| `CourierRuns.LeavesOnlyJustified` | internal/evidence/courier/worker.go:577-620 | over every run of processes and crashes, what was admitted is queued or left; whatever left did so after the channel accepted that record, in that stay in the queue, with artifacts that were all then stored, for an envelope with a receipt of its device covering its local_seq, whose entry stays in the return queue until its retirement there begins |
| `CourierRuns.NewHasNoHistory` | internal/evidence/courier/worker.go:577-620 | a stay in the queue begins with no acceptance on record, so what a record leaves with happened in that stay |
| `CourierRuns.RetiredInAdmissionOrder` | internal/evidence/courier/worker.go:277-282 | in each lane what entered is what left, in that order, followed by what is queued |
| `CourierRuns.HeldIsNotSent` | internal/evidence/courier/worker.go:704-720 | once a lane's head is held, no later step of that process sends it or anything behind it |
| `CourierRuns.PersistedHoldIsNotSent` | internal/evidence/courier/worker.go:681-702 | nor does any later process: a head with its hold and record on disk keeps both through any crashes, and its lane sends nothing |
| `DeliveryLanes.DeliveryLane.constructor` | internal/evidence/courier/worker.go:149 | a lane that holds nothing |
| `DeliveryLanes.DeliveryLane.AdoptedHead` | internal/evidence/courier/worker.go:673-702 | the lane's head, with a durable hold on it adopted |
| `DeliveryLanes.DeliveryLane.ReleaseHeldUnless` | internal/evidence/courier/worker.go:706-720 | whether the head is held; a hold on anything else is released |
| `DeliveryLanes.DeliveryLane.StoreAll` | internal/evidence/courier/return_queue.go:43-84 | the artifacts stored before the first failure |
| `DeliveryLanes.DeliveryLane.DeliverHead` | internal/evidence/courier/worker.go:532-626 | what one attempt sends, stores, holds and retires, for every response and failure; it delivers if and only if the answer is such an acceptance, everything returned was stored and the head left the queue, which without a failure it does |
| `DeliveryLanes.AttemptIsARun` | internal/evidence/courier/worker.go:532-626 | every attempt, whatever the answer and whichever store fails, is a run of the courier's actions that sends, holds and leaves the store as the attempt does |
| `DeliveryStatus.BlockedExactly` | internal/evidence/courier/worker.go:935-938 | summing listed lanes against the total is the same as every queued artifact lying in a held lane |
| `DeliveryStatus.EntriesExactly` | internal/evidence/courier/worker.go:903-934 | a lane is listed exactly when it has something queued and is held, waits for a handoff or failed its last attempt, with the first of those as its state |
| `DeliveryStatus.Summarise` | internal/evidence/courier/worker.go:901-938 | the loop's Blocked is true exactly when something is queued and every queued artifact is in a held lane, whichever lanes have objects |
| `DeliveryStatus.Status` | internal/evidence/courier/worker.go:881-942 | the same for the queue's own snapshot of counts |
| `ReturnPublishers.DecidesBy` | internal/evidence/courier/return_publisher.go:371-402 | an acknowledgement retires if and only if it is applied without a reason, or refused for one of six listed reasons; every other refusal holds, known or not |
| `ReturnPublishers.Judge` | internal/evidence/courier/return_publisher.go:284-317 | the decision on the head, in the acknowledgement's own terms: none unless it names the head's device, type and canonical digest |
| `ReturnPublishers.EventKeeps` | internal/evidence/courier/return_publisher.go:123-189 | every event, crashes included, keeps the publisher's invariant |
| `ReturnPublishers.RemovedOnlyByAck` | internal/evidence/courier/return_publisher.go:274-333 | over every process, crash and restart, an entry ever queued is still queued with its file, or since it was last queued an acknowledgement came while that very entry was the head, naming its device, type and canonical digest with a retiring decision |
| `ReturnPublishers.HeldIsAlwaysHead` | internal/evidence/courier/return_publisher.go:49-53 | the held entry is always the head, held for its own device |
| `ReturnPublishers.HeldPublishesOnlyInFlight` | internal/evidence/courier/return_publisher.go:152-189 | until an artifact of that same device is newly admitted, a held entry is published if and only if its pass had checked it out when the hold was decided and that pass goes on to publish; then once, and never again |
| `ReturnPublishers.HoldCanPrecedeAPublish` | internal/evidence/courier/return_publisher.go:152-189 | such a publish is reachable for every entry that can be queued and refused |
| `ReturnPublishers.HoldPrecedesAPublish` | internal/evidence/courier/return_publisher.go:152-189 | the same run at concrete values: a receipt refused for an unknown key |
| `ReturnPublishers.PublishRetries` | internal/evidence/courier/return_publisher.go:152-189 | the next pass carries the head again exactly when its publish failed or the retry interval has passed since it returned |
| `ReturnPublishers.HandoffReleases` | internal/evidence/courier/runtime_ingress.go:110-117 | the next pass carries a held entry exactly after an artifact of its own device is newly admitted |
| `ReturnPublishers.AckCanCrash` | internal/evidence/courier/return_publisher.go:318-333 | a process can die at every crash point of a retirement an acknowledgement decided |
| `ReturnPublishers.ReturnPublisher.constructor` | internal/evidence/courier/return_publisher.go:67-95 | a publisher that holds nothing |
| `ReturnPublishers.ReturnPublisher.CheckHead` | internal/evidence/courier/return_publisher.go:152-164 | a pass checks out the head if and only if it is not held, was not carried within the retry interval, names a device and is of a returnable type |
| `ReturnPublishers.ReturnPublisher.PublishReturned` | internal/evidence/courier/return_publisher.go:182-188 | a publish that succeeded records the entry and the time; one that failed records nothing |
| `ReturnPublishers.ReturnPublisher.DecideAck` | internal/evidence/courier/return_publisher.go:274-333 | a retiring acknowledgement of the named head retires it through the queue; any other refusal of it leaves it queued and held; everything else, such as applied with a reason, changes nothing |
| `ReturnPublishers.ReturnPublisher.Retired` | internal/evidence/courier/return_publisher.go:325-327 | the retirement of the head through the queue |
| `ReturnPublishers.ReturnPublisher.ReceiverStateChanged` | internal/evidence/courier/return_publisher.go:123-133 | only that device's hold is released |

## Left out

- Broker, HTTP and TLS clients, providers, reporting, webhook and fleet code: plumbing over libraries that are not part of this model.
- HMAC, SHA-256 and canonical JSON: abstract, with injectivity where a result needs it; the publisher's results hold for every digest function.
- JSON decoding, the payload member rule and ambiguous-member checks: decoded records are the input. A queue record's file is its canonical encoding, so a hand-edited file of another length is not modelled.
- Ownership markers, the store probe and the unconfigured-device file: branch-by-branch checks.
- The check that an outbound queue holds only outbound types, and a return queue only return types, at open: it adds one condition per record.
- The routing domain of devices that declare gateway-evidence-carriage/v1: a device_id need only be present.
- 64-bit overflow of the queue's sequence, byte totals and of the replay clock's sums: not modelled.
- The cache of each record's lane (`laneOf`): derived from the record instead.
- Configuration loading, logging, reminders, stall reports and fault recording: they do not affect these results.
- The wall-clock-only signing clock used without a state directory, and internal/evidence/signingclock: subsumed by the durable one.
- Token buckets in internal/broker/ingress.go and elsewhere: easier than the rest.
- SigningClocks.SigningClock.NextPass: models one pass of the loop in Next, not the blocking between passes; the passes of many callers interleave in the state machine.
- StateDirectory.OutstandingWriteHoldsTheLock: the quiescence bound is a choice to abandon, not a time.
- Replay.Receiver.Hold: a held key is named by its key, not by an object shared between the map and the heaps.
- DurableQueues.DurableQueue.Load: a temporary file is always removed, the listing of the directory is its parameter, and the unconfigured-device file is not modelled.
- DurableQueues.DurableQueue.LoadName: the entries a load skips (marker, probe, signing clock files) are not part of the directory.
- DurableQueues.DurableQueue.LoadRecords: as LoadName; a file that is not private, not regular or does not decode is one unusable file, whichever check refused it.
- DurableQueues.DurableQueue.LoadHolds: as LoadRecords, for the mode and the unknown fields of a hold file.
- DurableQueues.DurableQueue.LoadBackoffs: as LoadRecords, for the mode and the unknown fields of a back-off file.
- CourierRuns.NextKeeps: an attempt's wake and timer are not modelled; a send may happen at any time the lane's hold allows, which includes every time the timers choose. When a send is due is the subject of lane_backoff.dfy.
- DeliveryLanes.DeliveryLane.StoreAll: whether the return queue takes an artifact is a parameter; courier_runs.dfy stores it in a durable queue of its own, where the size and member-rule checks before the write are a choice.
- ReturnPublishers.ReturnPublisher.CheckHead: signing and encoding between the check and the publish are a choice to give up; reportStuck is not modelled.
- DeliveryStatus.Status: the order of the lanes, the last failure and the fault list are not modelled.
- Site.SiteRegistry.Upsert: the evidence fields of a heartbeat are reduced to whether they report a problem.
- Site.SiteRegistry.UpsertPosture: of a posture only the export severity is kept; its other fields are displayed and decide nothing.
- RequestPools.StopJoins: a handler is taken to return; the stop waits for it as long as it runs.
