# kubepeep: verified models of the stateful cores

kubepeep is a local web and desktop application over Kubernetes clusters. This
project models, in Dafny, the parts of its back end that keep state across
steps or across processes, and proves what they promise for every input, every
run and every interleaving of their steps. `dafny verify dfyconfig.toml` checks
all of it.

## What is modelled

- **Resource stream session.** Many watch sources are merged into one
  replayable log that is fanned out to bounded client queues. `ReplayRing` is
  the bounded log with its wire identifiers, `ReplayClient` one client queue,
  `StreamSession` the session and all its clients as a machine whose steps lie
  between two lock operations, `SessionObject` the session object with its
  loops over the clients, and `SessionSchedules` shows each of its methods to be
  a schedule of the machine; `StreamArrivals` says what a client that keeps up
  is sure to see. `TopicMerge` is the loop that builds one snapshot per topic,
  `TopicOrder` proves it against a definition by arrival order, and
  `TopicProgress` says exactly when it goes on and misses nothing.
- **Client cache.** `ClientCache` is the single-flight cache of Kubernetes
  clients as a machine of its critical sections, `ClientLeases` states what
  callers are promised over every interleaving, `ClientSharing` what is shared
  and how long it lasts, and `ClientCacheObject` is the object whose methods are
  proved to make exactly those steps.
- **Helm release storage.** `HelmStorage` is any number of storage drivers
  against one API server, each call split at its round trips and at the
  driver's mutex; replies may be lost. `HelmGuarantees` states what holds in
  every run, `HelmPurpose` that every write is what its caller asked for and
  when calls go through, `HelmDriver` is one driver's own state, the paged
  listing and the query.
- **Single instance.** `InstanceProtocol` is any number of processes that share
  a lock and a state file and may crash at any step. `CleanupRegistry` is the
  last-in first-out registry and the order in which a process fills it,
  `CleanupRuns` several callers of it at once.
- **Cursors and paging.** `CursorStore` is the least recently used store,
  `CursorCodec` with `Base64Url` and `Text` the signed token, `CursorLife` the
  two together over any sequence of operations, `CursorUse` the order of last
  use, `ScopePaging` and `DashboardPaging` the two ways of paging a list.
- **Migrations.** `MigrationHistory` and `Migrations` are the checks on the
  recorded history and the loop that applies what is pending, with backup and
  restore.
- **Exec queue and metrics.** `ExecQueue` is the outbound queue of a terminal
  session, `Metrics` the rolling duration window, its percentiles and the label
  keys.

## Where the code does not do what it says

Each of these has a lemma at a concrete input or schedule, and beside it a lemma
that says exactly when the code does meet the promise.

- A client build whose caller is told that it was superseded can still become
  the active lease: exactly when a waiter that asked for its target again, last
  of all, wakes up with nothing active to share. Its idle connections were closed
  before. `ClientLeases.SupersededBuildBecomesActive`,
  `ClientLeases.SupersededBuildServes`.
- "A live token always finds its state" fails in two ways: the token is signed
  after the state is parked and may outlive it (`CursorLife.TokenSignedLate`),
  and newer states may crowd it out of the store (`CursorLife.CrowdedOut`). It
  holds exactly when neither happens and nobody deletes the state.
  `CursorLife.LiveTokenFindsItsState`, `CursorLife.SparedExactly`.
- Sorting scopes by `updatedAt` compares texts with trimmed fractions, so a
  full second sorts after its own half. `ScopePaging.UpdatedAtMisorders`,
  `ScopePaging.UpdatedAtIsChronological`.
- The scope filter knows no namespace for volume claims: their snapshots and
  changes are dropped, their deletions pass. `TopicMerge.ClaimChanges`,
  `TopicMerge.ClaimsAreLost`.
- Anchor paging over rows that share an identity repeats rows or never ends.
  `DashboardPaging.SameIdentityLoops`, `DashboardPaging.PagesPartition`,
  `DashboardPaging.WalkEndsExactly`.
- The exec queue's byte counter keeps the terminal message's bytes if the
  writer releases it before they are counted. `ExecQueue.CounterDrifts`,
  `ExecQueue.CounterAfterTerminal`.
- A label value with the separator character does not survive its key.
  `Metrics.SeparatorIsLost`, `Metrics.LabelKeyRoundTrip`.

## Model

| member | source | states |
|---|---|---|
| `StreamSession.ClientsSeeRuns` | internal/api/handlers/resources_stream_session.go:169-360 | after every schedule of attach, publish, hand over, read, close, detach and expiry, what a client has been replayed and delivered is a gap-free, duplicate-free, in-order run of the log starting right after its resume position (or the log's end at attach); a reset or terminal only cuts it short and comes last |
| `StreamSession.RunOk` | internal/api/handlers/resources_stream_session.go:169-360 | the session invariant holds after every schedule |
| `StreamSession.StepOk` | internal/api/handlers/resources_stream_session.go:293-360 | every single step between two lock operations keeps the session invariant |
| `StreamSession.ServedOk` | internal/api/handlers/resources_stream_session.go:316-321 | handing one delivery to one client while others wait keeps that client's run contiguous, also when it is reset as a slow consumer |
| `StreamSession.CutShort` | internal/api/handlers/resources_stream_session.go:569-608 | replacing a queue by a terminal leaves no hole in what the client sees |
| `StreamSession.JoinedOk` | internal/api/handlers/resources_stream_session.go:169-193 | a client that attaches, with or without an identifier, before or after the terminal, starts with a run of the log |
| `StreamSession.TerminalIsFinal` | internal/api/handlers/resources_stream_session.go:215-225 | the terminal is set at most once, the log never grows after it or after expiry, and an expired session has no clients |
| `StreamSession.MembersKeepTheirStart` | internal/api/handlers/resources_stream_session.go:169-193 | starting point and replay of a client never change and what it has seen only grows |
| `StreamArrivals.TerminalComesLast` | internal/api/handlers/resources_stream_session.go:344-360 | over every schedule: a client that is connected when the terminal is published and has room for it has, once its queue is read, seen the log to its end and the terminal last |
| `StreamArrivals.KeepingUpMissesNothing` | internal/api/handlers/resources_stream_session.go:293-342 | a client that always has room when it is its turn stays connected through every schedule, and whenever its queue is read has seen the log from its start to the end |
| `StreamArrivals.RoomIsUsed` | internal/api/handlers/resources_stream_session.go:552-567 | a client with room gets the entry behind what it has and stays, one without is reset and dropped |
| `StreamArrivals.RemainsConnected` | internal/api/handlers/resources_stream_session.go:293-360 | nothing but its own end, a terminal, or an entry without room disconnects a client |
| `SessionObject.Session.constructor` | internal/api/handlers/resources_stream_session.go:77-113 | a new session has no clients, no terminal and is not expired |
| `SessionObject.Session.Publish` | internal/api/handlers/resources_stream_session.go:293-324 | when an event is logged, at which position and cost each delivery is made, what every client's queue becomes and who is dropped; and when the session ends instead, with every client closed behind the terminal, or nothing happens |
| `SessionObject.Session.PublishTransient` | internal/api/handlers/resources_stream_session.go:328-342 | handed to every client of a live session, never logged |
| `SessionObject.Session.PublishTerminal` | internal/api/handlers/resources_stream_session.go:344-360 | the first terminal closes every client behind a terminal delivery, later ones change nothing |
| `SessionObject.Session.Attach` | internal/api/handlers/resources_stream_session.go:169-193 | refused exactly on an expired session or an identifier that is malformed or cannot be resumed, with which error; otherwise the replay is the log after the identified position and a latecomer gets the terminal at once |
| `SessionObject.Session.Detach` | internal/api/handlers/resources_stream_session.go:195-213 | the client is closed and removed, and the idle timer is due exactly when none is left |
| `SessionObject.Session.Expire` | internal/api/handlers/resources_stream_session.go:215-225 | only a session without clients expires, and once |
| `SessionObject.FanOut` | internal/api/handlers/resources_stream_session.go:316-321 | in any order of the clients, each gets the entry or a reset, and exactly those with room stay |
| `SessionObject.EndAll` | internal/api/handlers/resources_stream_session.go:353-358 | in any order of the clients, each is closed behind the terminal |
| `SessionSchedules.PublishIsASchedule` | internal/api/handlers/resources_stream_session.go:304-323 | publishing is the machine's schedule of taking the lock, handing over to the clients in any order, and letting go; it leaves log, clients and queues as the object's contract says |
| `SessionSchedules.TransientIsASchedule` | internal/api/handlers/resources_stream_session.go:328-342 | likewise for transient events and heartbeats |
| `SessionSchedules.TerminalIsASchedule` | internal/api/handlers/resources_stream_session.go:348-358 | likewise for the terminal |
| `SessionSchedules.AttachIsAStep` | internal/api/handlers/resources_stream_session.go:169-193 | attaching is one step, with the start, replay and first state of the object's contract |
| `SessionSchedules.DetachIsASchedule` | internal/api/handlers/resources_stream_session.go:195-225 | likewise for detaching, and a session without clients, and no other, can expire |
| `SessionSchedules.EachIsServed` | internal/api/handlers/resources_stream_session.go:316-321 | in whatever order the clients are walked, each pending one is served once |
| `ReplayClient.OperationsKeepSound` | internal/api/handlers/resources_stream_session.go:552-643 | every queue operation keeps the byte counter equal to the queued deliveries, the limits unless a lone terminal is queued, and a terminal last |
| `ReplayClient.OneTerminalLast` | internal/api/handlers/resources_stream_session.go:552-643 | over any sequence of operations a client gets at most one terminal, taken or waiting, and nothing after it |
| `ReplayClient.ReplayClient.Push` | internal/api/handlers/resources_stream_session.go:552-567 | accepted exactly when open and within both limits, appended at the end; otherwise nothing changes |
| `ReplayClient.ReplayClient.ForceTerminal` | internal/api/handlers/resources_stream_session.go:569-585 | an open queue becomes the lone terminal |
| `ReplayClient.ReplayClient.PushTerminal` | internal/api/handlers/resources_stream_session.go:587-608 | an open queue keeps what waits and gets the terminal at its end when both limits allow it, and is only the terminal otherwise; a closed one does not change |
| `ReplayClient.ReplayClient.Next` | internal/api/handlers/resources_stream_session.go:610-631 | deliveries come out in order and the end is reported only behind the last |
| `ReplayClient.ReplayClient.Close` | internal/api/handlers/resources_stream_session.go:633-643 | closing keeps what is queued |
| `ReplayRing.NewReplayRing` | internal/services/resources/watch.go:1606-1616 | a session's ring starts with an empty log and writes sequence numbers in base 36 |
| `ReplayRing.ReplayRing.ResumedFrom` | internal/services/resources/watch.go:1666-1701 | a replay is the numbered log after the position of the identifier |
| `ReplayRing.ReplayRing.Append` | internal/services/resources/watch.go:1633-1653 | which events are logged, and that the ring then holds the longest tail of the whole log that fits its limits |
| `ReplayRing.TailIsLongest` | internal/services/resources/watch.go:1646-1651 | the retained events are a tail of the log, of at most as many events and bytes as the limits say, and no longer tail is |
| `ReplayRing.TailOfAppend` | internal/services/resources/watch.go:1646-1651 | trimming after each append is the same as trimming the whole log |
| `ReplayRing.Trim` | internal/services/resources/watch.go:1646-1651 | the loop that drops from the front stops at that longest tail |
| `ReplayRing.ReplayRing.ReplayEntries` | internal/services/resources/watch.go:1666-1701 | malformed, unavailable, or everything after the identified event |
| `ReplayRing.ResumeYieldsTheRest` | internal/services/resources/watch.go:1666-1701 | resuming from a retained position yields the whole log after it |
| `ReplayRing.ResumeRefusesTheRest` | internal/services/resources/watch.go:1666-1701 | nothing else can be resumed from: not another binding, another ring's identifier or a trimmed one |
| `ReplayRing.IdRoundTrip` | internal/api/handlers/resources_stream_session.go:675-682 | the identifier of a position parses to its epoch and sequence number |
| `ReplayRing.ParseIdExactly` | internal/api/handlers/resources_stream_session.go:675-682 | an identifier is accepted exactly when it is the prefix, an epoch of sixteen bytes and a base 36 number of 64 bits, joined by dots |
| `ReplayRing.IdsAreDistinct` | internal/services/resources/watch.go:1643-1644 | positions have different identifiers |
| `TopicOrder.LogIsDue` | internal/api/handlers/resources_stream_session.go:362-507 | however sources interleave and whenever the session is cut off, a topic's log is a prefix of: chunks of all snapshot items in arrival order, then every change heard before completion, then every later event; all of it while the loop runs. Heard is what is in scope, without mention of the filter |
| `TopicProgress.NothingIsMissing` | internal/api/handlers/resources_stream_session.go:362-507 | when every item can be taken in and the session accepts the calls, the log of every topic is all that is due to it |
| `TopicProgress.LoopGoesOn` | internal/api/handlers/resources_stream_session.go:362-507 | however the sources interleave, the loop is still running exactly when every item so far could be taken in: within the snapshot and buffer limits, from a source whose snapshot was not final, of a size that can be published |
| `TopicProgress.AddItemsExactly` | internal/api/handlers/resources_stream_session.go:522-535 | items are added exactly when count and total weight stay in budget and all can be encoded |
| `TopicProgress.BufferExactly` | internal/api/handlers/resources_stream_session.go:537-546 | a change is buffered exactly when one more and its bytes fit |
| `TopicProgress.PublishAllExactly` | internal/api/handlers/resources_stream_session.go:293-303 | a batch goes through exactly when each event may be published |
| `TopicProgress.SnapshotSucceeds` | internal/services/resources/watch.go:1363-1399 | a snapshot within the limits, of items of the topic that fit alone, can be published |
| `TopicProgress.ChunksAreFull` | internal/services/resources/watch.go:1363-1399 | every chunk fits, and was closed only because the next item would not have left the reserve |
| `TopicOrder.NothingBeforeEverySource` | internal/api/handlers/resources_stream_session.go:475-493 | nothing is logged for a topic until every one of its sources has sent its final snapshot |
| `TopicOrder.LogStaysInScope` | internal/api/handlers/resources_stream_session.go:238-270 | no logged item, object or deletion belongs to a namespace outside the session's, judged by its own namespace |
| `TopicOrder.StepKept` | internal/api/handlers/resources_stream_session.go:386-506 | one item of the loop keeps, for every topic, the relation between what was heard and what was logged |
| `TopicOrder.DueIsStable` | internal/api/handlers/resources_stream_session.go:419-506 | what is due to a topic only grows |
| `TopicOrder.OthersLeaveAlone` | internal/api/handlers/resources_stream_session.go:386-506 | an event of one topic changes neither state nor log of another |
| `TopicOrder.DueAtCompletion` | internal/api/handlers/resources_stream_session.go:475-493 | at completion the chunks followed by the buffered changes are exactly what is due |
| `TopicMerge.RunLoop` | internal/api/handlers/resources_stream_session.go:362-507 | the loop over incoming items computes the state by which the topic theorems are stated |
| `TopicMerge.ScopedExactly` | internal/api/handlers/resources_stream_session.go:238-291 | the filter passes every event without a scope, and with one exactly those whose object and deletion are present for their kind and in scope; it changes nothing but the items, of which it keeps those in scope, in order and as often as they came |
| `TopicMerge.ScopedStaysInside` | internal/api/handlers/resources_stream_session.go:238-270 | whatever passes the scope filter belongs to a namespace of the scope |
| `TopicMerge.FilterIsTight` | internal/api/handlers/resources_stream_session.go:272-291 | the filter's test keeps other namespaces out exactly when the scope does not list the empty string |
| `TopicMerge.InsideExactly` | internal/api/handlers/resources_stream_session.go:258-267 | the filter keeps exactly the items whose namespace is in scope |
| `TopicMerge.ClaimsAreLost` | internal/api/handlers/resources_stream_session.go:272-291 | the filter follows an item's own namespace exactly when the item is not a volume claim of the scope |
| `TopicMerge.ClaimChanges` | internal/api/handlers/resources_stream_session.go:238-291 | a claim's creation is dropped while its deletion passes |
| `TopicMerge.ChunksHoldTheItems` | internal/services/resources/watch.go:1363-1399 | the chunks of a snapshot hold all items, in order |
| `TopicMerge.ChunksAreNumbered` | internal/services/resources/watch.go:1363-1399 | chunks are numbered in order and exactly the last is final |
| `TopicMerge.TopicSnapshot.Add` | internal/api/handlers/resources_stream_session.go:522-535 | items are appended exactly when count and encoded bytes stay within the snapshot limits |
| `TopicMerge.TopicSnapshot.Keep` | internal/api/handlers/resources_stream_session.go:537-546 | a change is buffered exactly when the queue limits allow it |
| `ClientCache.RunOk` | internal/adapters/kubernetes/client_cache.go:106-271 | the cache invariant holds after every interleaving of entering, builds ending, waiters waking, invalidation, closing and cancellation |
| `ClientCache.EnterOk` | internal/adapters/kubernetes/client_cache.go:106-179 | the first critical section keeps the invariant on the active, cached, waiting and building path |
| `ClientCache.FinishOk` | internal/adapters/kubernetes/client_cache.go:144-178 | so does the end of a build |
| `ClientCache.WakeOk` | internal/adapters/kubernetes/client_cache.go:189-203 | so does a waiter waking up |
| `ClientCache.InvalidateOk` | internal/adapters/kubernetes/client_cache.go:236-250 | so does invalidation |
| `ClientCache.CloseOk` | internal/adapters/kubernetes/client_cache.go:252-271 | so does closing |
| `ClientCache.SupersededExactly` | internal/adapters/kubernetes/client_cache.go:147 | the three tests of a builder are one: has another target been requested since it entered |
| `ClientLeases.OneLiveLease` | internal/adapters/kubernetes/client_cache.go:206-220 | at all times every lease ever issued but the active one is cancelled, and generations are numbered in order of issue |
| `ClientSharing.LeaseLastsUntilEnded` | internal/adapters/kubernetes/client_cache.go:106-271 | over every run a live lease stays active and uncancelled until someone asks for another target, invalidates its key, closes the cache or ends its context |
| `ClientSharing.ActiveIsShared` | internal/adapters/kubernetes/client_cache.go:111-116 | a live active lease of the target is handed out and nothing else changes |
| `ClientSharing.CachedIsGranted` | internal/adapters/kubernetes/client_cache.go:128-133 | a cached build of the fingerprint is used at once, without another build |
| `ClientSharing.FlightIsJoined` | internal/adapters/kubernetes/client_cache.go:138-143 | a build of the target in flight is waited for and no second one is started |
| `ClientSharing.BuildIsStarted` | internal/adapters/kubernetes/client_cache.go:138-143 | otherwise a build is started, of the target and its epoch |
| `ClientSharing.ClosedRefuses` | internal/adapters/kubernetes/client_cache.go:107-110 | a closed cache refuses |
| `ClientSharing.BuildIsCached` | internal/adapters/kubernetes/client_cache.go:144-178 | a good build that was not superseded is cached and granted, nothing else is, and every other outcome is reported for what it is |
| `ClientSharing.WaiterIsTold` | internal/adapters/kubernetes/client_cache.go:189-203 | what a waiter is told, by whether it was superseded, how the build ended and whether the cache is closed |
| `ClientSharing.EntryIsSpared` | internal/adapters/kubernetes/client_cache.go:106-271 | a cached build stays cached until another fingerprint of its key is asked for, the key is invalidated or the cache closed |
| `ClientSharing.NoClientsLeak` | internal/adapters/kubernetes/client_cache.go:144-271 | in every run a good build that is not cached, and every one after closing, has had its idle connections closed |
| `ClientSharing.WaitersAreNotStuck` | internal/adapters/kubernetes/client_cache.go:181-203 | whoever waits can give up, can wake up when the build has ended, and until then some caller can end it |
| `ClientLeases.HistoryGrows` | internal/adapters/kubernetes/generation.go:24-47 | leases are never taken back, cancellations never undone |
| `ClientLeases.OneBuildPerTarget` | internal/adapters/kubernetes/client_cache.go:138-154 | at most one build runs per build key |
| `ClientLeases.OneBuilderPerBuild` | internal/adapters/kubernetes/client_cache.go:138-154 | and one caller runs it |
| `ClientLeases.NoLeaseAfterClose` | internal/adapters/kubernetes/client_cache.go:252-271 | once closed, nothing is active or cached and no lease is issued again, whatever follows |
| `ClientLeases.GrantedIsCurrent` | internal/adapters/kubernetes/client_cache.go:106-204 | a lease granted on any path is the active one, for the key and fingerprint asked for, from a good build under the current epoch, and live unless the cache's context has ended |
| `ClientLeases.ActiveSinceInvalidation` | internal/adapters/kubernetes/client_cache.go:117-152 | the active lease's build started after the last invalidation of its key |
| `ClientLeases.EpochCounts` | internal/adapters/kubernetes/client_cache.go:236-241 | a key's epoch is the number of its invalidations |
| `ClientLeases.IssuedForTheTarget` | internal/adapters/kubernetes/client_cache.go:119-133 | a new lease is only ever issued for the target requested last |
| `ClientLeases.BuilderIsServed` | internal/adapters/kubernetes/client_cache.go:144-178 | a builder gets a lease exactly when the build is good, the cache open and its activation number current |
| `ClientLeases.WaiterIsServed` | internal/adapters/kubernetes/client_cache.go:189-203 | a waiter exactly when that holds of its own number |
| `ClientLeases.SupersededBuildServes` | internal/adapters/kubernetes/client_cache.go:106-204 | a lease of a superseded build is issued exactly when a waiter wakes up whose build is good, whose number is current, in an open cache with no active lease to share; the lease is of the build it waited for, and it asked later than that build's caller |
| `ClientLeases.SupersededBuildBecomesActive` | internal/adapters/kubernetes/client_cache.go:144-204 | the schedule in which a superseded build becomes active |
| `ClientLeases.BuildKeysAreDistinct` | internal/adapters/kubernetes/client_cache.go:118 | different targets have different build key strings |
| `ClientCacheObject.Cache.EnterActivate` | internal/adapters/kubernetes/client_cache.go:106-179 | the in-place updates of the first section are the machine's step; a live lease of the target is answered as it is with nothing else changed |
| `ClientCacheObject.Cache.BuildDone` | internal/adapters/kubernetes/client_cache.go:144-178 | likewise for the end of a build |
| `ClientCacheObject.Cache.WakeUp` | internal/adapters/kubernetes/client_cache.go:189-203 | likewise for a waiter |
| `ClientCacheObject.Cache.InvalidateKey` | internal/adapters/kubernetes/client_cache.go:236-250 | likewise for invalidation |
| `ClientCacheObject.Cache.Shutdown` | internal/adapters/kubernetes/client_cache.go:252-271 | likewise for closing |
| `ClientCacheObject.Cache.ActivateLocked` | internal/adapters/kubernetes/client_cache.go:206-220 | the previous lease is cancelled and the next generation issued |
| `HelmGuarantees.RunOk` | internal/adapters/kubernetes/helm_storage.go:132-408 | the invariant of server, drivers and calls in flight holds in every run |
| `HelmStorage.ApplyOk` | internal/adapters/kubernetes/helm_storage.go:132-408 | every step of every call keeps it |
| `HelmGuarantees.RevisionsStayContiguous` | internal/adapters/kubernetes/helm_storage.go:285-348 | the revisions of a release never have a gap |
| `HelmGuarantees.RecordsOnlyGrow` | internal/adapters/kubernetes/helm_storage.go:360-409 | records are never removed, keep their UID, and versions only rise |
| `HelmGuarantees.OneCreatePerRevision` | internal/adapters/kubernetes/helm_storage.go:285-348 | of all calls of all drivers at most one ever succeeds in creating a revision, and its driver is guarded on the one before |
| `HelmGuarantees.OneOverwritePerVersion` | internal/adapters/kubernetes/helm_storage.go:384-402 | a version of a record is overwritten at most once |
| `HelmGuarantees.WritesAreJustified` | internal/adapters/kubernetes/helm_storage.go:285-408 | the records change by one write at a time: the create after the guarded revision by a driver that has created nothing, or an overwrite, after the create, of exactly the record this driver last read or wrote, the planned one on first overwriting the guarded revision |
| `HelmPurpose.WritesCarryTheValue` | internal/adapters/kubernetes/helm_storage.go:285-408 | in every run every write stores the body that the caller of its call passed, under the key and through the driver it was passed to; a create is a create and an update an update |
| `HelmPurpose.CallsServe` | internal/adapters/kubernetes/helm_storage.go:132-408 | at every step a call still does what its caller asked for |
| `HelmPurpose.AdmittedExactly` | internal/adapters/kubernetes/helm_storage.go:285-369 | a create is admitted exactly once, for the next revision of the guarded release; an update only after it, for a seen record up to that revision |
| `HelmPurpose.AcceptedExactly` | internal/adapters/kubernetes/helm_storage.go:167-188 | a read is refused exactly when the record is not the planned one, before the create, or not the one seen before |
| `HelmPurpose.ServedExactly` | internal/adapters/kubernetes/helm_storage.go:324-402 | the server creates exactly what is not there and replaces exactly what has not changed, with the body of the call |
| `HelmPurpose.ReadGoesThrough` | internal/adapters/kubernetes/helm_storage.go:132-188 | a record as planned and as seen is read and remembered |
| `HelmPurpose.CreateGoesThrough` | internal/adapters/kubernetes/helm_storage.go:285-348 | a create on the guarded revision goes through when no reply is lost: the record is stored and the driver knows its identity |
| `HelmPurpose.UpdateGoesThrough` | internal/adapters/kubernetes/helm_storage.go:360-408 | so does an update of a record that has not changed since the driver saw it |
| `HelmGuarantees.ReadsAgree` | internal/adapters/kubernetes/helm_storage.go:167-188 | two successful reads of a key by one driver return the same record unless its own write of it came between |
| `HelmGuarantees.SeenIsStable` | internal/adapters/kubernetes/helm_storage.go:172-176 | what a driver has seen of a key changes only by its own writes |
| `HelmGuarantees.CreatedMeansCreated` | internal/adapters/kubernetes/helm_storage.go:342-348 | a driver that counts its create as done has a call that succeeded in it |
| `HelmGuarantees.RecordNamesAreDistinct` | internal/adapters/kubernetes/helm_storage.go:72-74 | different releases or revisions have different record names |
| `HelmStorage.UpdateIsOfTheSeen` | internal/adapters/kubernetes/helm_storage.go:360-402 | an update the server accepts replaces what its driver holds for current at that moment |
| `HelmStorage.NoOtherSaved` | internal/adapters/kubernetes/helm_storage.go:342-348 | no two answers to writes of one key are on their way to one driver |
| `HelmStorage.ContiguousGrows` | internal/adapters/kubernetes/helm_storage.go:285-348 | adding the revision after an existing one leaves no gap |
| `HelmDriver.MetadataRecords` | internal/adapters/kubernetes/helm_storage.go:193-224 | the listing stops for every server, returns the concatenation of all pages within the limit, and which failure is reported |
| `HelmDriver.Latest` | internal/adapters/kubernetes/helm_storage.go:299-306 | the newest listed revision, or failure exactly when a label is not a number |
| `HelmDriver.Query` | internal/adapters/kubernetes/helm_storage.go:225-271 | which answer a query gives: not found, read only, a label that is no number, a conflict exactly when the newest listed revision is not the guarded one or the one created, or all releases in order within the byte limit |
| `HelmDriver.ReadAll` | internal/adapters/kubernetes/helm_storage.go:256-271 | all records in order exactly when each can be read and the sizes stay within the limit |
| `HelmDriver.HelmDriver.NoteRead` | internal/adapters/kubernetes/helm_storage.go:167-188 | accepted exactly when it is neither a changed guarded nor a changed seen record |
| `HelmDriver.HelmDriver.BeginCreate` | internal/adapters/kubernetes/helm_storage.go:286-292 | allowed exactly for the next revision of the guarded release, once |
| `HelmDriver.HelmDriver.BeginUpdate` | internal/adapters/kubernetes/helm_storage.go:361-369 | allowed exactly after the create, for a seen record of the guarded release, on the identity seen |
| `HelmDriver.HelmDriver.NoteWrite` | internal/adapters/kubernetes/helm_storage.go:342-348 | the server's answer becomes what the driver has seen |
| `InstanceProtocol.RunOk` | internal/runtime/coordinator.go:118-162 | mutual exclusion, what each process knows of the file, and whose state is on disk, in every run with crashes |
| `InstanceProtocol.ChangesAreTheHolders` | internal/runtime/coordinator.go:149-162 | the state file changes only by the process that holds the lock |
| `InstanceProtocol.PublishedStateStands` | internal/runtime/coordinator.go:243-256 | while a process that has published lives, the file is its own state |
| `InstanceProtocol.RecoveryRemovesOnlyTheDead` | internal/runtime/controller.go:60-83 | recovery removes only the state that could not be contacted, and only when its process is gone |
| `InstanceProtocol.StartClearsOnlyTheDead` | internal/runtime/coordinator.go:147-157 | a start clears only the state of a process that is gone |
| `InstanceProtocol.CorruptStaysCorrupt` | internal/runtime/coordinator.go:147-157 | a corrupt file is never removed or replaced by anyone |
| `InstanceProtocol.ReleaseComesAfterRemoval` | internal/runtime/coordinator.go:136-162 | in every run, whatever was registered and wherever the start stopped, a cleanup releases the lock as its last hook and only after attempting to remove the state, if one was cleared |
| `InstanceProtocol.AnswersAreTrue` | internal/runtime/controller.go:26-83 | in every run a request answers that nothing runs only when nobody has published and lives, and the file is then gone; that something runs exactly on a verified reply |
| `InstanceProtocol.StartGoesThrough` | internal/runtime/coordinator.go:118-252 | with the lock free and no corrupt file, a start that meets no error publishes its state, whatever stale state there was |
| `InstanceProtocol.RecoveryGoesThrough` | internal/runtime/controller.go:50-83 | a request that cannot reach the instance of a stale state removes it, frees the lock and answers that nothing runs |
| `InstanceProtocol.ShutdownGoesThrough` | internal/runtime/coordinator.go:136-162 | an instance that ends leaves neither its state nor the lock; if the removal fails, the state stays |
| `InstanceProtocol.CleanupGoesThrough` | internal/runtime/cleanup.go:44-74 | wherever a cleanup is, its remaining hooks free the lock and, if it is still to come and works, remove the state |
| `InstanceProtocol.CrashIsOvercome` | internal/runtime/coordinator.go:118-157 | after the crash of the lock holder the next start publishes its own state |
| `CleanupRegistry.Registry.Add` | internal/runtime/cleanup.go:30-41 | a hook is appended exactly when it is not nil and the run has not begun |
| `CleanupRegistry.Registry.Run` | internal/runtime/cleanup.go:44-74 | every hook is called once in reverse order whatever the others return, all errors are kept, and another run repeats only the errors |
| `CleanupRegistry.FailuresExactly` | internal/runtime/cleanup.go:61-68 | the errors of some hooks and then of others are those of all, in order |
| `CleanupRegistry.FailureOfOne` | internal/runtime/cleanup.go:61-68 | a hook adds its own error or nothing |
| `CleanupRuns.HooksAreCalledOnce` | internal/runtime/cleanup.go:44-74 | however many callers run at once, hooks are called in order, none twice, by one caller |
| `CleanupRuns.EveryCallerWaits` | internal/runtime/cleanup.go:46-54 | whoever returns does so after every hook was called, with all errors |
| `CleanupRuns.NothingIsAdded` | internal/runtime/cleanup.go:34-40 | once a run has begun no hook is added |
| `CleanupRuns.EverybodyReturns` | internal/runtime/cleanup.go:44-74 | in every run everybody who called can still return, by steps of the first caller and one of their own |
| `CleanupRegistry.RegisterServiceCleanups` | internal/runtime/coordinator.go:276-293 | the hooks of one stage in order, up to the first that cannot be registered, and when that happens |
| `CleanupRegistry.OfStageExactly` | internal/runtime/coordinator.go:276-293 | when all can be registered, they are exactly the cleanups of the stage, in order |
| `CleanupRegistry.Register` | internal/runtime/coordinator.go:136-237 | wherever a start stops, what is registered is the beginning of the full list |
| `CleanupRegistry.LockGoesLast` | internal/runtime/coordinator.go:136-162 | wherever a start stopped, the lock is released last and the state removed right before |
| `CleanupRegistry.ShutdownOrder` | internal/runtime/coordinator.go:202-237 | streams end before the server, the server before the storage, both before listener, state and lock |
| `CursorStore.CursorStore.Put` | internal/api/cursor_store.go:90-116 | too large is refused; otherwise the store makes the recency list's step: the expired go, room is made from the least recently used, the newcomer is the most recent, and both limits hold |
| `CursorStore.CursorStore.Get` | internal/api/cursor_store.go:125-154 | found exactly when held and not expired, with its payload; it becomes the most recent, an expired one is removed |
| `CursorStore.CursorStore.Delete` | internal/api/cursor_store.go:157-168 | exactly the reference goes |
| `CursorStore.CursorStore.Purge` | internal/api/cursor_store.go:208-220 | exactly the expired entries go, in whatever order the map is walked |
| `CursorStore.CursorStore.Evict` | internal/api/cursor_store.go:222-239 | what is left is the longest most recently used run that fits beside the newcomer |
| `CursorStore.SurvivorsAreLongestRun` | internal/api/cursor_store.go:222-239 | the survivors are a most recently used run that fits beside the newcomer in 1024 entries and 32 MiB, and no longer run fits |
| `CursorStore.SizesAgree` | internal/api/cursor_store.go:35-58 | the recency list counts exactly the stored entries |
| `CursorLife.PutParks` | internal/api/cursor_store.go:104-115 | a state put under a fresh reference is parked, once, with its payload and expiry |
| `CursorLife.FoundExactly` | internal/api/cursor_store.go:90-168 | after any operations a parked state is found, unchanged, exactly when it has not expired and each operation kept it |
| `CursorLife.FoundWhenSpared` | internal/api/cursor_store.go:90-168 | at a moment after them that is: not expired, not deleted, and never crowded out |
| `CursorLife.SparedExactly` | internal/api/cursor_store.go:222-239 | a newcomer spares a reference exactly when it fits, in 1024 entries and 32 MiB, beside the reference and everything used more recently |
| `CursorUse.OrderIsLastUse` | internal/api/cursor_store.go:90-154 | after any operations the recency list is in the order in which references were last parked or found |
| `CursorUse.LeastRecentlyUsedGoFirst` | internal/api/cursor_store.go:222-239 | in every run, whoever has not expired and was used later than one that stays, stays |
| `CursorLife.LiveTokenFindsItsState` | internal/api/cursor_store.go:16-20 | a live token finds its state for as long as it lives exactly when the state was neither deleted nor crowded out and the token does not end after it |
| `CursorLife.CrowdedOut` | internal/api/cursor_store.go:222-239 | after 1024 more states a live token finds nothing |
| `CursorLife.TokenSignedLate` | internal/api/handlers/resources.go:321-330 | signed a millisecond late, a token outlives its state |
| `CursorCodec.DecodeOfEncode` | internal/api/cursor.go:86-169 | what decoding an encoded cursor yields for every moment and every expected binding: invalid, expired, mismatch or the same state |
| `CursorCodec.EncodeExactly` | internal/api/cursor.go:86-114 | a cursor is made exactly when hash and texts of the binding are well formed, the state has a canonical form, and the token, 49 characters longer than its payload, is at most 16384 long |
| `CursorCodec.AuthenticExactly` | internal/api/cursor.go:119-141 | authentication accepts exactly the codec's own renderings and returns their payload |
| `CursorCodec.ForgeriesAreInvalid` | internal/api/cursor.go:119-153 | anything but a signed payload is invalid |
| `CursorCodec.SplitRendered` | internal/api/cursor.go:107-129 | the three part split of a token is unambiguous |
| `CursorCodec.LifetimeBounds` | internal/api/cursor.go:96 | rounding the expiry costs less than a millisecond |
| `CursorCodec.TokenOutlivesParkedState` | internal/api/handlers/resources.go:321-330 | as far as time goes, a live token finds its state exactly when the signing moment, rounded down, is not after the parking |
| `Base64Url.CanonicalExactly` | internal/api/cursor.go:226-235 | the canonical decoder accepts exactly the encoder's outputs |
| `Base64Url.DecodeEncode` | internal/api/cursor.go:226-235 | decoding undoes encoding |
| `Base64Url.EncodeDecode` | internal/api/cursor.go:226-235 | encoding undoes decoding |
| `Base64Url.EncodedLength` | internal/api/cursor.go:107-110 | an encoding has four characters for three bytes and no padding |
| `Base64Url.AlphabetIsUrlSafe` | internal/api/cursor.go:107-110 | the symbols are the letters, digits, minus and underscore, in the standard order |
| `Base64Url.QuadIsBigEndian` | internal/api/cursor.go:107-110 | three bytes are four sextets of one big-endian number |
| `Base64Url.ReencodingRejectsNewlines` | internal/api/cursor.go:226-235 | the re-encoding check rejects exactly embedded line breaks |
| `ScopePaging.DeliveredExactlyOnce` | internal/api/handlers/namespace_scopes.go:207-251 | over any sequence of collections no key is delivered twice, and one that every consulted collection offers is delivered exactly once by a finished walk, in both orders, even if the cursor's row is gone |
| `ScopePaging.WalkCompletes` | internal/api/handlers/namespace_scopes.go:207-251 | over a table that does not change a walk is complete within one request more than there are rows, and shows every matching row once |
| `ScopePaging.PageIsFull` | internal/api/handlers/namespace_scopes.go:222-251 | a page holds matching rows, as many as asked for when another follows; then the next cursor is the key of its last row and a row does come after it |
| `ScopePaging.StrictTotalOrder` | internal/api/handlers/namespace_scopes.go:747-761 | the keys are strictly and totally ordered |
| `ScopePaging.RowsSortedBy` | internal/api/handlers/namespace_scopes.go:707-761 | rows come by name and number, or by the formatted update before that, reversed when descending |
| `ScopePaging.PrecedesExactly` | internal/api/handlers/namespace_scopes.go:747-761 | keys come by sort value, then name, then number, compared lexicographically |
| `ScopePaging.ScopePageStart` | internal/api/handlers/namespace_scopes.go:717-737 | the first row after the cursor, or the error of an unusable cursor |
| `ScopePaging.SortSorted` | internal/api/handlers/namespace_scopes.go:707-715 | rows with distinct ids sort into strictly increasing keys |
| `ScopePaging.PageMissesNothing` | internal/api/handlers/namespace_scopes.go:207-251 | a key beyond the cursor is on the page or beyond the next cursor |
| `ScopePaging.KeyIsUsable` | internal/api/handlers/namespace_scopes.go:721-723 | a cursor made from a row is usable exactly when the row has a positive id and a name |
| `ScopePaging.UpdatedAtIsChronological` | internal/api/handlers/namespace_scopes.go:739-745 | sorting by `updatedAt` is chronological for two rows exactly when seconds differ or neither trimmed fraction starts the other |
| `ScopePaging.UpdatedAtMisorders` | internal/api/handlers/namespace_scopes.go:739-745 | half a second past sorts before the full second |
| `DashboardPaging.PagesPartition` | internal/api/handlers/dashboard.go:776-830 | following `next` ends with pages that concatenate to the list exactly when each page's last row is the first with its identity |
| `DashboardPaging.DistinctRowsAnchor` | internal/api/handlers/dashboard.go:776-830 | rows with distinct identities meet that condition |
| `DashboardPaging.WalkEndsExactly` | internal/api/handlers/dashboard.go:776-830 | following `next` ever ends exactly when it meets no empty identity and never comes back to a position, and then within one request more than there are rows |
| `DashboardPaging.SameIdentityLoops` | internal/api/handlers/dashboard.go:789-801 | two rows of one identity before a third, one row a page: the walk never ends |
| `DashboardPaging.PagesAreShort` | internal/api/handlers/dashboard.go:804-818 | no page is longer than the limit |
| `DashboardPaging.Block.Paginate` | internal/api/handlers/dashboard.go:776-830 | the block becomes the page after the anchor with its flags, or the mismatch of a vanished boundary |
| `DashboardPaging.Find` | internal/api/handlers/dashboard.go:790-801 | the first row with the identity |
| `DashboardPaging.ProblemsOrdered` | internal/api/handlers/dashboard.go:575-603 | a total preorder for every sort field and order |
| `DashboardPaging.ProblemsSortedBy` | internal/api/handlers/dashboard.go:575-603 | information before warnings before critical, or younger before older, or by identity; the reverse when descending, ties always by ascending identity |
| `DashboardPaging.EventsOrdered` | internal/api/handlers/dashboard.go:624-659 | likewise for events |
| `DashboardPaging.EventsSortedBy` | internal/api/handlers/dashboard.go:624-659 | by timestamp, count or canonically, the reverse when descending, ties canonically |
| `DashboardPaging.CanonicalEventsSortedBy` | internal/api/handlers/dashboard.go:651-659 | canonically is latest first, then by namespace, then by identity |
| `DashboardPaging.MetricsOrdered` | internal/api/handlers/dashboard.go:681-704 | likewise for metrics |
| `DashboardPaging.MetricsSortedBy` | internal/api/handlers/dashboard.go:681-704 | by CPU, memory or identity, the reverse when descending, ties by ascending identity |
| `DashboardPaging.IdentityFields` | internal/api/handlers/dashboard.go:597 | problem identities compare by namespace, kind, name and container when none of the first three holds the separator |
| `Text.CompareIsLexicographic` | internal/api/handlers/dashboard.go:597 | comparison is lexicographic: smaller at the first difference, or ended there |
| `MigrationHistory.ChecksMeanPrefix` | internal/adapters/sqlite/migrate.go:59-82 | the name and checksum check with the count and prefix check holds exactly when the history is that of the first so many migrations |
| `MigrationHistory.CheckHistory` | internal/adapters/sqlite/migrate.go:63-82 | the checks as the code makes them, over the rows in any order |
| `MigrationHistory.ValidateMigrationSet` | internal/adapters/sqlite/migrate.go:137-152 | accepted exactly when every version is positive, every name made of lower case letters, digits and underscores, every SQL text present with its checksum, and versions strictly increase |
| `MigrationHistory.AppliedExactly` | internal/adapters/sqlite/migrate.go:84-87 | of a prefix history exactly the first migrations are skipped |
| `Migrations.Store.ApplyMigrations` | internal/adapters/sqlite/migrate.go:47-124 | refused with nothing changed exactly when the set or the history does not check; otherwise the pending migrations are executed, each once and in order, and it succeeds exactly when each of them works on what the ones before made; else it stops at the first that does not, which is undone, kept, or leaves the backup, as its faults say |
| `Migrations.Store.ApplyPending` | internal/adapters/sqlite/migrate.go:84-112 | the loop, from a checked prefix: how it ends and at which migration |
| `Migrations.Store.Migrate` | internal/adapters/sqlite/migrate.go:88-124 | success exactly when the SQL runs, the transaction is fine and, if destructive, backup and removal work; a failed restore exactly when a destructive migration failed and so did the restore; when the effect stays, and what the backup file is afterwards |
| `Migrations.Store.ApplyOne` | internal/adapters/sqlite/migrate.go:179-199 | reported exactly when the SQL runs and the transaction is fine; schema and history change together, exactly when the commit took effect |
| `Migrations.FromTheStart` | internal/adapters/sqlite/migrate.go:84-112 | a database made by the first n migrations becomes the one made by the first k |
| `ExecQueue.RunOk` | internal/api/handlers/actions_exec.go:391-476 | order, terminal and counter invariants in every interleaving |
| `ExecQueue.FirstInFirstOut` | internal/api/handlers/actions_exec.go:391-445 | messages leave in the order placed |
| `ExecQueue.TerminalStaysLast` | internal/api/handlers/actions_exec.go:447-467 | nothing is placed after the terminal message |
| `ExecQueue.NothingAfterClaim` | internal/api/handlers/actions_exec.go:431-467 | after the first claim nothing is placed but the message claimed, at most once, and nothing once it has timed out |
| `ExecQueue.EnqueueExactly` | internal/api/handlers/actions_exec.go:431-445 | in every run a message is placed exactly before the terminal's claim and with room for one more of 64 and all its bytes of 1 MiB |
| `ExecQueue.WriterDrains` | internal/api/handlers/actions_exec.go:391-413 | as long as it is not stopped the writer can write all that was placed |
| `ExecQueue.CounterIsExact` | internal/api/handlers/actions_exec.go:431-476 | until the terminal's flag is set the counter is accepted minus released and at most 1 MiB |
| `ExecQueue.CounterAfterTerminal` | internal/api/handlers/actions_exec.go:447-476 | when all is released the counter is zero exactly if the terminal was counted before its release or is empty |
| `ExecQueue.CounterDrifts` | internal/api/handlers/actions_exec.go:447-476 | the schedule in which the counter stays above zero |
| `ExecQueue.OutboundQueue.TryEnqueue` | internal/api/handlers/actions_exec.go:431-445 | accepted exactly before the terminal and within both limits |
| `ExecQueue.OutboundQueue.Claim` | internal/api/handlers/actions_exec.go:447-455 | the terminal's place is claimed once |
| `ExecQueue.OutboundQueue.Place` | internal/api/handlers/actions_exec.go:459 | a claimed terminal goes to the end of the channel |
| `ExecQueue.OutboundQueue.Count` | internal/api/handlers/actions_exec.go:460-462 | its bytes are counted in a step of its own |
| `ExecQueue.OutboundQueue.TakeNext` | internal/api/handlers/actions_exec.go:394 | the writer takes the oldest message not yet taken |
| `ExecQueue.OutboundQueue.GiveBack` | internal/api/handlers/actions_exec.go:469-476 | the counter falls by the released size and not below zero |
| `Metrics.DurationWindow.Observe` | internal/observability/metrics.go:163-193 | the window holds exactly the last observations, at most 512 |
| `Metrics.DurationWindow.Summarize` | internal/observability/metrics.go:218-237 | of the last observations: P50, P95 and P99 each stand in the sorted samples at the index nearest to 0.50, 0.95 and 0.99 of the range, in order below the maximum, which bounds all, and the samples are they, sorted |
| `Metrics.SummaryDescribes` | internal/observability/metrics.go:218-237 | the same for the values of any window, however they are rotated |
| `Metrics.RankInRange` | internal/observability/metrics.go:239-248 | the percentile index is in range however floating point rounds, fused or not |
| `Metrics.RankIsNearest` | internal/observability/metrics.go:239-248 | the index of a fraction is the nearest to its share of the range, up to what double precision loses |
| `Metrics.PercentileStands` | internal/observability/metrics.go:239-248 | a percentile is the sample at that index |
| `Metrics.TimesIsProduct` | internal/observability/metrics.go:239-248 | the share that the ranks are stated with is the product of the code |
| `Metrics.PercentilesAreOrdered` | internal/observability/metrics.go:239-248 | a higher percentile is never lower and every percentile is a sample |
| `Metrics.LabelKeyRoundTrip` | internal/observability/metrics.go:250-303 | a label key decodes to the allowed labels exactly when no value holds the separator |
| `Metrics.SeparatorIsLost` | internal/observability/metrics.go:250-303 | a value that holds it does not come back |

## Left out

- Generation and observation stamps of stream events, the namespace counts of progress events, and the registration, lookup and reauthorization timing of stream sessions.
- Previews: which transient events a session shows before completion is modelled only as calls that may stop the loop.
- The sources of the merge loop are any interleaving of items; the watch workers behind them are not modelled.
- `StreamContext` and its idle timer, unary timeouts and the linking of request contexts.
- Offset paging of namespaces, and the filters that narrow dashboards before paging.
- JSON, SHA-256, HMAC and gzip are parameters with the laws the code relies on: a codec that reads back what it writes, and a signature of fixed length.
- Random references, epochs and identifiers are assumed fresh; clocks are parameters.
- Sequence numbers, epochs and activation numbers do not wrap at 64 bits; the ring's sequence is kept below that limit.
- The critical section of an invalidation is written in another order than the code's, which no other step can observe.
- Decoding and labels of Helm records: a record that cannot be read makes the call fail, which every call may do at any step.
- What the listing before a Helm create reports is left to the server, so the theorems do not rest on it; `Query` is modelled for one driver, with what each read returns given.
- Deletion of Helm records by others; the drivers themselves never delete.
- Permissions of the runtime directory, process fingerprints and the health probe; the lock is an atomic resource and the state file an atomic cell.
- The default names of unnamed cleanup hooks.
- Creating the migration table and the time a migration was applied; SQL is an arbitrary partial function on databases.
- Floating point is any rounding that keeps the order, leaves small whole and half numbers alone and loses at most 0.000000000001; overflow and not-a-number do not occur.
- Counters, gauges, the bound on label sets and the text rendering of metrics.
- Heartbeats and reading of the exec stream; the writer's errors only stop it.
- HTTP handlers, routing, server-sent events, WebSocket framing, the web front end and the desktop shell.
