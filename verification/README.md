# Verified model of Atomo's stateful core

A Dafny model of the parts of Atomo that keep state and promise something about it, with proofs of what
they promise. `dafny verify dfyconfig.toml` checks the whole project.

**The realtime hub** (`Protocol`, `RateLimit`, `Presence`, `Sessions`, `Hub*`). `HubMachine` says what one
command does to the hub's whole state: an immediate change and an agenda of tasks, run to its end. A task can
find a hung-up queue and put that client's farewell in front of the rest, which is what a nested call does;
the agenda is therefore exactly the work still owed anywhere in a cascade. `HubWorker` holds the program's own
mutually recursive methods over mutable tables and proves each equal to its part of the machine. The other
modules prove things of every step and every run: the three indexes agree (`HubIndexes`), the counters are
exact (`HubAccounting`), what subscribers fold from their frames is the membership, and exactly when it is not
(`HubViews`, `HubGhosts`, `HubTorn`), joins are throttled per client (`HubRates`), and the right clients are
told the right things (`HubDelivery`) and have them, once each, when the step is over (`HubArrivals`). What the
other end of a queue does, and the order in which hash tables are iterated, are parameters of a `World`.

**The client library** (`RealtimeClient`, `SdkViews`). The library as a machine over its calls and the events
of every socket it has made, and the connection class, each method of which is one step of it. Its invariant -
nothing that tracks subscriptions waits in the outbox, no handler set is empty, and the current socket has,
while open, told its peer exactly the channels with handlers - is kept by every event, including late events
of older sockets. Which sockets it loses track of is proved exactly. `SdkViews` joins library and hub end to
end.

**The read cache** (`ReadCache`, `CacheProtocol`). The cache as a class with its two eviction loops, and the
protocol of readers and writers around it as a state machine over atomic steps.

**History and projections** (`Tables`, `Coverage`, `LogReading`, `EventStore`, `ModelWrites`, `Projections`,
`Projectors`, `CurrentState`). The event log under policies and restarts, retention, the order in which it is
read back, replay, rebuilds, and the projection that follows current rows.

**Migrations** (`Migrations`, `MigrationProofs`, `MigrationMeaning`). The generator as a compiler to statements,
the meaning of the statements on a catalogue, and of the catalogue on the values it lets in.

## What turned out otherwise

- Replaying the log does not always give the live rows. `restore` returns only the identity
  (`crates/atomo/src/query/sql_builder.rs:212-223`), so a restored row is replayed bare
  (`RestoreLosesColumns`) until its next update (`UpdateHeals`). A row created with a deletion time, and an
  update that sets or clears it, also part the two. `Benign` names these cases, and agreement throughout a run
  is proved equivalent to every change being benign.
- The log is read back by the timestamps its writers gave (`crates/atomo_projectors/src/projection.rs:196`),
  not in the order of commits. Every such read keeps each row's events in order if and only if each row's
  stamps increase (`RowOrderIff`); two writers of one row with skewed clocks can leave the rebuilt row stale
  (`SkewedClocksLoseAnUpdate`). Stamps of different rows do not matter.
- A subscriber whose own queue is found hung up on its snapshot is announced as leaving and then as joining,
  and all who lost no frame believe in it (`GhostMember`).
- Membership is kept per connection but announced per principal. When a connection leaves a channel in which
  another of its principal stays, everybody told of it takes the principal for absent: views that were right
  stay right exactly when no name is torn that way (`StepViewsIff`, `UnsubscribeTears`).
- In eventual mode a hit a lifetime after a write's generation advanced need not have the write. It must, in
  every continuation, if and only if no reader was then between its check and its insert with an answer from
  before the write (`AdvanceSufficesIff`).
- Primary columns and undeclared timestamps are not brought forward to old tables (`NotBroughtForward`), and a
  reference needs its target to have an `id` column (`ReferenceResolvesIff`).
- With two sockets alive, the end of the old one makes the library forget the new one (`LateEndOrphans`). A
  socket is orphaned by exactly such a late end (`OrphansAfter`, `NoOrphansIff`), for good
  (`OrphansAreForGood`), and late ends come exactly of asking for a socket before an earlier one has ended
  (`PatientRuns`, `HasteOrphans`).
- A cache key without a colon is counted in no model's share (`BareKeyIsNotCounted`), so that a model's policy
  can be exceeded by one entry, under its bare name (`GovernedExceedsIff`, `BareKeyOverfills`). Only direct users of
  the cache's public methods can meet this: the keys the client makes all have a colon
  (`crates/atomo/src/cache.rs:454`), and then every policy holds (`ColonKeysStayWithin`).
- A negative refill rate takes the token bucket below empty (`NegativeRateLeavesBounds`).
- The members a leave reports as remaining are listed even when the session is closed over their heads
  (`LeaveReportIsRight`), where the comment at `crates/atomo_realtime/src/sessions.rs:76` has them empty.

## Model

| member | source | states |
|---|---|---|
| Protocol.QueueBounded | crates/atomo_realtime/src/client.rs:32-38 | a queue never holds more than its capacity, whatever the other end does between sends |
| Protocol.ShedOnlyWhenFull | crates/atomo_realtime/src/client.rs:32-38 | a frame finds its client gone exactly when the other end hung up; else it is shed exactly when 256 frames wait, and queued last otherwise |
| RateLimit.RateLimiter.constructor | crates/atomo_realtime/src/rate_limit.rs:36-43 | a new bucket is full |
| RateLimit.RateLimiter.Acquire | crates/atomo_realtime/src/rate_limit.rs:47-57 | refills for the time passed, then takes one token if there is one |
| RateLimit.TokensAndGrants | crates/atomo_realtime/src/rate_limit.rs:47-57 | over any nondecreasing calls the tokens stay within 0 and burst, and grants plus tokens never exceed the burst plus the refill |
| RateLimit.WindowBound | crates/atomo_realtime/src/rate_limit.rs:34-58 | in any window of calls, whatever came before it, at most burst plus rate times its length are granted |
| RateLimit.FirstBurstIsGranted | crates/atomo_realtime/src/rate_limit.rs:34-58 | a full bucket grants its first calls, as many as the burst, however close together |
| RateLimit.PacedCallsAreGranted | crates/atomo_realtime/src/rate_limit.rs:47-57 | from any bucket, calls each a token's refill after the last are all granted |
| RateLimit.NegativeRateLeavesBounds | crates/atomo_realtime/src/rate_limit.rs:19-23 | the bound on tokens needs a rate that is not negative: with any other the bucket goes below empty |
| ChannelPresence.Presence.JoinChannel | crates/atomo_realtime/src/presence.rs:34-40 | the member is recorded; reports whether it is new |
| ChannelPresence.Presence.LeaveChannel | crates/atomo_realtime/src/presence.rs:44-53 | the member is gone and an emptied channel with it; reports whether it had been there |
| ChannelPresence.Presence.Subscribers | crates/atomo_realtime/src/presence.rs:56-61 | lists exactly the client ids of the channel, each once |
| ChannelPresence.Presence.Snapshot | crates/atomo_realtime/src/presence.rs:65-73 | lists exactly the principals present, sorted, each once |
| ChannelPresence.JoinThenLeave | crates/atomo_realtime/src/presence.rs:34-53 | a leave undoes a join by a client that was not there |
| CoordinatorSessions.Sessions.JoinSession | crates/atomo_realtime/src/sessions.rs:95-125 | the first joiner coordinates, slots count up, a repeated join changes nothing; invariant kept |
| CoordinatorSessions.Sessions.LeaveSession | crates/atomo_realtime/src/sessions.rs:129-187 | what is left, who coordinates and what is reported, under both policies; invariant kept, so the promotion never indexes an empty order |
| CoordinatorSessions.RunKeepsRooms | crates/atomo_realtime/src/sessions.rs:95-187 | over any run: order lists the members once, slots increase along it below the counter, the coordinator is its first member |
| CoordinatorSessions.SlotsNeverReused | crates/atomo_realtime/src/sessions.rs:95-187 | over any run of a session's life the slots handed out strictly increase |
| CoordinatorSessions.RosterIsJoinOrder | crates/atomo_realtime/src/sessions.rs:41-48 | sorting by slot gives the members in join order, coordinator first with the least slot |
| CoordinatorSessions.LeaveTakesOneSeat | crates/atomo_realtime/src/sessions.rs:129-187 | a leave removes one seat and touches no other session; the session ends exactly with its last seat or its coordinator's under the closing policy |
| CoordinatorSessions.LeaveReportIsRight | crates/atomo_realtime/src/sessions.rs:129-187 | the report of a leave agrees with what the leave did: who left, everyone left in join order whether the session goes on or is closed, and the change of coordinator in each case |
| HubMachine.Run | crates/atomo_realtime/src/hub.rs:408-486 | the work a command sets off terminates from every state, whatever queues are hung up, and never adds a client |
| HubMachine.PerformProgress | crates/atomo_realtime/src/hub.rs:408-597 | each unit of work loses a client or is the last expanding one: the measure behind termination |
| HubMachine.RunConcat | crates/atomo_realtime/src/hub.rs:458-486 | finishing a nested call before going on is the same as one agenda |
| HubWorker.Worker.constructor | crates/atomo_realtime/src/hub.rs:256-266 | a new worker has no client, channel or session |
| HubWorker.Worker.Deliver | crates/atomo_realtime/src/hub.rs:470-486 | one frame is queued, shed, or reaps its client with the whole cascade that follows |
| HubWorker.Worker.Disconnect | crates/atomo_realtime/src/hub.rs:408-439 | leaves announced on every channel, every session left, counters and gauges set |
| HubWorker.Worker.BroadcastExcept | crates/atomo_realtime/src/hub.rs:459-466 | one delivery per subscriber listed at the start, stale or not |
| HubWorker.Worker.Forget | crates/atomo_realtime/src/hub.rs:417-426 | a member of the channel is removed and its leave announced |
| HubWorker.Worker.Depart | crates/atomo_realtime/src/hub.rs:442-456 | the same under the name of the live client, silently when it is not registered |
| HubWorker.Worker.LeaveSession | crates/atomo_realtime/src/hub.rs:549-597 | the seat is given up and those left are told, evicted or re-elected |
| HubWorker.Worker.AllowJoin | crates/atomo_realtime/src/hub.rs:320-337 | one token is charged; an unknown client is refused, one over its rate is told |
| HubWorker.Worker.Connect | crates/atomo_realtime/src/hub.rs:296-316 | a client with an empty queue and, where a rate is configured, a full bucket is registered and counted |
| HubWorker.Worker.SubscribeTo | crates/atomo_realtime/src/hub.rs:339-372 | membership, then the snapshot, then the announcement if it is new, then the gauge |
| HubWorker.Worker.UnsubscribeFrom | crates/atomo_realtime/src/hub.rs:374-380 | the subscription goes and the leave is announced |
| HubWorker.Worker.PublishTo | crates/atomo_realtime/src/hub.rs:382-401 | counted, then sent to all subscribers but the publisher |
| HubWorker.Worker.ShowPresence | crates/atomo_realtime/src/hub.rs:403-406 | the snapshot is sent to the asker |
| HubWorker.Worker.JoinSession | crates/atomo_realtime/src/hub.rs:502-546 | seat, then start frame, then the news to the others, then the gauge |
| HubWorker.Worker.RelayToCoordinator | crates/atomo_realtime/src/hub.rs:600-619 | a member's payload goes to the coordinator |
| HubWorker.Worker.RelayToMembers | crates/atomo_realtime/src/hub.rs:622-651 | the coordinator's payload goes to the members; anybody else is refused |
| HubWorker.Worker.Handle | crates/atomo_realtime/src/hub.rs:267-294 | every command does exactly the specified step |
| HubIndexes.PerformKeepsCoherent | crates/atomo_realtime/src/hub.rs:408-597 | in the middle of a cascade the three indexes agree up to the leaves and evictions still owed |
| HubIndexes.StepKeepsIndexes | crates/atomo_realtime/src/hub.rs:339-597 | after every command subscriptions and presence agree, session sets and sessions agree, nothing is empty, nobody unregistered is listed |
| HubIndexes.ReachableIndexesAgree | crates/atomo_realtime/src/hub.rs:267-294 | the same in every reachable state, connection ids being handed out once |
| HubIndexes.RunShrinks | crates/atomo_realtime/src/hub.rs:408-597 | a cascade only takes away: no client, membership or seat appears or is altered |
| HubAccounting.AttemptSettles | crates/atomo_realtime/src/hub.rs:470-486 | an attempt on a live client adds one to delivered, dropped or reaped |
| HubAccounting.PerformKeepsCounters | crates/atomo_realtime/src/hub.rs:408-498 | mid-cascade, opened less closed is the registered clients plus the disconnects still owed |
| HubAccounting.StepKeepsCounters | crates/atomo_realtime/src/hub.rs:296-498 | at every command boundary opened = closed + registered, all gauges exact, and attempts = delivered + dropped + reaped |
| HubAccounting.ReachableCountersAgree | crates/atomo_realtime/src/hub.rs:296-498 | the same in every reachable state |
| HubAccounting.PublicationsAreCounted | crates/atomo_realtime/src/hub.rs:382-401 | over every run of an empty hub every publication and every relay let through is counted once, and nothing else |
| HubViews.PerformKeepsViews | crates/atomo_realtime/src/hub.rs:408-466 | mid-cascade each subscriber's view is right, name by name, but for announcements still owed to it and the names left out |
| HubViews.StepViewsButUneasy | crates/atomo_realtime/src/hub.rs:339-439 | however a command goes, every view of a subscriber that lost no frame stays right for every name but a newcomer's reaped in its own step and those of which one connection leaves a channel in which another is |
| HubViews.StepKeepsViews | crates/atomo_realtime/src/hub.rs:339-427 | so all such views equal the membership when there is no such name |
| HubViews.ReachableViewsAgree | crates/atomo_realtime/src/hub.rs:339-427 | the same over every run in which each step is of that kind |
| HubViews.OnceIsUntorn | crates/atomo_realtime/src/hub.rs:408-456 | with one connection per principal every step is of that kind, newcomers reaped in their step apart |
| HubTorn.LostNamesAreDenied | crates/atomo_realtime/src/hub.rs:408-456 | when a connection leaves a channel, nobody left there that lost no frame believes in its principal afterwards, even if another of its connections stays |
| HubTorn.StepViewsIff | crates/atomo_realtime/src/hub.rs:339-466 | right views stay right if and only if no principal still present lost one of its connections in a channel with somebody left to be told |
| HubTorn.UnsubscribeTears | crates/atomo_realtime/src/hub.rs:374-456 | it happens whenever one of two connections of a principal unsubscribes and the other lives through it |
| HubGhosts.GhostMember | crates/atomo_realtime/src/hub.rs:352-370 | a newcomer, alone of its name, hung up by its own snapshot is announced as leaving and then as joining: all who lost no frame believe in it, so right views stay right if and only if nobody of them is left |
| HubGhosts.GhostExample | crates/atomo_realtime/src/hub.rs:352-370 | such a step exists |
| HubRates.BucketFollows | crates/atomo_realtime/src/hub.rs:320-341 | a client's bucket is that of its subscriptions and session joins so far, whoever else did what |
| HubRates.ReachableBuckets | crates/atomo_realtime/src/hub.rs:296-316 | over every run of an empty hub: every client has a bucket if and only if a rate is configured, with that burst and rate, tokens within bounds and last used no later than now |
| HubRates.JoinsAreThrottled | crates/atomo_realtime/src/hub.rs:296-341 | over every run of an empty hub under a configured rate: in any stretch one client's granted joins are at most burst plus rate times its length, whether it connects in the stretch, before or never |
| HubRates.FirstJoinsPass | crates/atomo_realtime/src/hub.rs:296-341 | as many joins as the burst, the first after connecting, are all let through |
| HubRates.UnlimitedJoinsPass | crates/atomo_realtime/src/hub.rs:320-341 | without a configured rate every join of a registered client is |
| HubArrivals.PublishArrives | crates/atomo_realtime/src/hub.rs:382-401 | each subscriber but the publisher that lives through the step has the publication queued or shed exactly once, and nobody else has it |
| HubArrivals.RunGot | crates/atomo_realtime/src/hub.rs:408-486 | whatever cascade follows and whoever it loses, a client that lives through it gets every frame the agenda has for it, and none besides but those of leaves |
| HubArrivals.SubscribeArrives | crates/atomo_realtime/src/hub.rs:352-370 | each other subscriber that lives through the step hears of a newcomer exactly once |
| HubArrivals.SnapshotArrives | crates/atomo_realtime/src/hub.rs:339-358 | a subscriber let in that lives through the step is put, once, the channel's principals, its own among them, sorted and each once |
| HubArrivals.RefusedJoin | crates/atomo_realtime/src/hub.rs:320-337 | a join over the rate enters nothing and is answered with one error |
| HubArrivals.AskArrives | crates/atomo_realtime/src/hub.rs:403-406 | whoever asks, in the channel or not, is put its principals once, sorted and each once |
| HubArrivals.BroadcastArrives | crates/atomo_realtime/src/hub.rs:622-651 | a coordinator's message arrives exactly once at each other member that lives through the step |
| HubArrivals.BroadcastIsRefused | crates/atomo_realtime/src/hub.rs:622-640 | anybody else's arrives nowhere, and its sender is told once |
| HubArrivals.RelayArrives | crates/atomo_realtime/src/hub.rs:600-619 | a member's message arrives once, at the first member in join order and nowhere else, under the sender's own seat |
| HubDelivery.JoinerIsTold | crates/atomo_realtime/src/hub.rs:513-530 | the start frame names the joiner's slot, its role and everyone in join order |
| HubArrivals.SessionJoinArrives | crates/atomo_realtime/src/hub.rs:502-546 | the start frame arrives once at the joiner, the news once at every other member that lives through the step |
| HubArrivals.SessionLeaveArrives | crates/atomo_realtime/src/hub.rs:549-597 | everyone left in a session that goes on and alive after the step has been put who left and, after a coordinator's leave, who coordinates now |
| HubArrivals.CloseArrives | crates/atomo_realtime/src/hub.rs:549-576 | under the closing policy the coordinator's leave ends the session, and each other member that lives through the step is out of it and told why |
| HubDelivery.LeaveTells | crates/atomo_realtime/src/hub.rs:590-594 | the announcements of a leave by another than the coordinator, in join order |
| HubDelivery.ElectionTells | crates/atomo_realtime/src/hub.rs:577-589 | the announcements of a coordinator's leave: to each, in join order, who left and then who coordinates now |
| HubDelivery.DeliveryIsConserved | crates/atomo_realtime/src/hub.rs:470-486 | the frame is appended to its client's queue or to what it shed, and no other queue changes |
| HubDelivery.DeliveryIsCounted | crates/atomo_realtime/src/hub.rs:470-486 | the counters say which of the two it was |
| RealtimeSdk.RealtimeClient.Connect | packages/atomo-client-sdk/realtime.ts:74-81 | a no-op while a socket is live, else a fresh one; the invariant is kept |
| RealtimeSdk.RealtimeClient.Opened | packages/atomo-client-sdk/realtime.ts:82-89 | every channel with handlers is subscribed again through the current socket, then the waiting frames go out, in order, on the one that opened; the invariant is kept |
| RealtimeSdk.RealtimeClient.Gone | packages/atomo-client-sdk/realtime.ts:91-97 | whichever socket ended, the current one is forgotten and a retry planned unless the user closed; the invariant is kept |
| RealtimeSdk.RealtimeClient.Subscribe | packages/atomo-client-sdk/realtime.ts:104-114 | tells the peer on the first handlers of a channel when open; the invariant is kept |
| RealtimeSdk.RealtimeClient.Unsubscribe | packages/atomo-client-sdk/realtime.ts:115-125 | the last handlers of a channel forget its members and tell the peer when open; the invariant is kept |
| RealtimeSdk.RealtimeClient.Publish | packages/atomo-client-sdk/realtime.ts:128-131 | sent now if open, else kept for the next open |
| RealtimeSdk.RealtimeClient.Close | packages/atomo-client-sdk/realtime.ts:145-149 | the socket closes and is forgotten; nothing else changes |
| RealtimeSdk.RealtimeClient.Raw | packages/atomo-client-sdk/realtime.ts:156-160 | a frame is sent or queued, never both |
| RealtimeSdk.RealtimeClient.Dispatch | packages/atomo-client-sdk/realtime.ts:176-207 | joins add, leaves remove, a snapshot replaces |
| RealtimeSdk.AfterIsSound | packages/atomo-client-sdk/realtime.ts:74-160 | every call and every event of any socket keeps the invariant: the current socket, while open, has told its peer exactly the channels with handlers |
| RealtimeSdk.OrphansAfter | packages/atomo-client-sdk/realtime.ts:74-149 | a live socket becomes unknown exactly when another's end arrives while it is current, and stays so until its own end |
| RealtimeSdk.NoOrphansIff | packages/atomo-client-sdk/realtime.ts:91-97 | over every run: no socket is ever unknown if and only if every end is that of the current socket or comes while none is live |
| RealtimeSdk.OrphansAreForGood | packages/atomo-client-sdk/realtime.ts:74-97 | over every run: a socket let go of is never current again, and whatever its peer was told to subscribe stays subscribed |
| RealtimeSdk.OpenSocketsAreKnown | packages/atomo-client-sdk/realtime.ts:74-160 | without late ends, any open socket is the current one and its peer knows exactly the channels with handlers |
| RealtimeSdk.RequestsAreKept | packages/atomo-client-sdk/realtime.ts:128-160 | over every run, through all openings, ends and reconnections: each publication and presence request is written to a socket exactly once or still waits |
| RealtimeSdk.HandlersAreActive | packages/atomo-client-sdk/realtime.ts:104-125 | over every run: a handler is registered exactly if the last thing done with it was to subscribe it |
| RealtimeSdk.AttemptsAreRetries | packages/atomo-client-sdk/realtime.ts:82-97 | over every run: the attempts counted are the ends answered with a retry since a socket last opened, and after a close there are none until a socket is asked for again |
| RealtimeSdk.PatientRuns | packages/atomo-client-sdk/realtime.ts:74-81 | no late end ever comes while each socket is asked for only after all earlier ones have ended |
| RealtimeSdk.HasteOrphans | packages/atomo-client-sdk/realtime.ts:74-97 | and whenever one is asked for earlier, an end that orphans it can come next |
| RealtimeSdk.LateEndOrphans | packages/atomo-client-sdk/realtime.ts:91-97 | such a run: closed, published again at once, and the end of the old socket leaves the new one open, unknown and subscribed to a channel without handlers |
| RealtimeSdk.DelayDoubles | packages/atomo-client-sdk/realtime.ts:94-96 | each wait is twice the one before, or the ceiling if that is more |
| RealtimeSdk.WaitsFromBase | packages/atomo-client-sdk/realtime.ts:94-96 | the first wait is the base, the second twice it, while within ten seconds, which no wait exceeds |
| SdkViews.DispatchFolds | packages/atomo-client-sdk/realtime.ts:176-207 | channel by channel the library folds exactly the membership frames |
| SdkViews.MembersAreHeard | packages/atomo-client-sdk/realtime.ts:115-207 | over every run: a channel's members are folded from the frames received since its last handler was dropped |
| SdkViews.SnapshotResets | packages/atomo-client-sdk/realtime.ts:202-205 | a snapshot makes earlier beliefs irrelevant |
| SdkViews.ReachableSnapshots | crates/atomo_realtime/src/hub.rs:350-358 | a subscriber that lost no frame has been sent a snapshot |
| SdkViews.SdkSeesMembership | packages/atomo-client-sdk/realtime.ts:176-207 | in every run of such steps, once a queue that shed nothing is drained, the members the library holds are the hub's snapshot |
| ReadCaching.ReadCache.Get | crates/atomo/src/cache.rs:265-299 | what a lookup returns, what it leaves behind - a hit becomes its entry's last access - and its counters |
| ReadCaching.LookupsKeepAlive | crates/atomo/src/cache.rs:265-299 | an entry looked up again before each idle limit answers every time, until it is too old or due for a refresh |
| ReadCaching.RefusedIff | crates/atomo/src/cache.rs:316-337 | a value is refused exactly when caching is off for it, no entry is allowed, or it is larger than a general limit or its listed model's own |
| ReadCaching.FilledEvictsOldest | crates/atomo/src/cache.rs:338-376 | what a fill evicts before its time was last accessed no later than anything it keeps in the same pool |
| ReadCaching.ReadCache.MakeRoom | crates/atomo/src/cache.rs:340-353 | the least recently used entries go, no more than needed, until one more fits; the loop ends and its early exit never leaves a limit exceeded |
| ReadCaching.ReadCache.MakeModelRoom | crates/atomo/src/cache.rs:354-376 | the same within the key's model |
| ReadCaching.ReadCache.SetIfGeneration | crates/atomo/src/cache.rs:304-396 | a stale fill is rejected, a refused one skipped, any other stored; all counters and figures exact and all limits hold afterwards |
| ReadCaching.ReadCache.Remove | crates/atomo/src/cache.rs:397-402 | one entry goes and the figures stay exact, without underflow |
| ReadCaching.ReadCache.Reclaim | crates/atomo/src/cache.rs:403-415 | exactly the expired entries go |
| ReadCaching.ReadCache.InvalidateModel | crates/atomo/src/cache.rs:416-429 | the generation advances and the invalidation is counted; in strong mode everything goes |
| ReadCaching.ReadCache.Invalidate | crates/atomo/src/cache.rs:430-436 | the generation advances and one entry goes |
| ReadCaching.PutStaysWithin | crates/atomo/src/cache.rs:377-395 | adding an entry with room for it breaks no global or per-model limit, of any model |
| ReadCaching.TrimmedLeaves | crates/atomo/src/cache.rs:338-395 | after a fill every other entry left is as it was |
| ReadCaching.RoomKeepsAll | crates/atomo/src/cache.rs:340-376 | where one more fits already, nothing is evicted |
| ReadCaching.BareKeyIsNotCounted | crates/atomo/src/cache.rs:354-376 | an entry under a key without a colon changes no model's share |
| ReadCaching.GovernedExceedsIff | crates/atomo/src/cache.rs:354-376 | within all limits, the entries a model's policy governs exceed it, by one, exactly when the share is full and the bare name cached too |
| ReadCaching.BareKeyOverfills | crates/atomo/src/cache.rs:304-396 | two fills after which they do |
| ReadCaching.ColonKeysStayWithin | crates/atomo/src/cache.rs:454-456 | with a colon in every key no policy is exceeded |
| CacheProtocol.DoKeepsInv | crates/atomo/src/client.rs:291-326 | every step of every interleaving of readers and writers keeps the invariant, cancellations included |
| CacheProtocol.RunIsRecorded | crates/atomo/src/cache.rs:285-299 | over every run: an entry's last access is the time of the last hit on it or fill of it, its age counts from its last fill |
| CacheProtocol.EvictsLeastRecentlyUsed | crates/atomo/src/cache.rs:338-376 | over every run: what a fill evicts was last hit or filled no later than anything it keeps in the same pool |
| CacheProtocol.LookHitsIff | crates/atomo/src/cache.rs:265-299 | over every run: a lookup of what is there hits exactly when caching is on for the model and the entry was filled and used recently enough by the listed model's own limits or the general ones; in strong mode also, no write came since |
| CacheProtocol.StrongReadsSeeTheWrite | crates/atomo/src/cache.rs:416-429 | strong mode: a read that starts after a write's generation advanced answers from a version that has the write |
| CacheProtocol.AnswersAreBoundedStale | crates/atomo/src/cache.rs:272-315 | any mode: a hit has every write acknowledged a lifetime earlier; a miss every write whose generation had advanced when the read began |
| CacheProtocol.AdvanceSufficesIff | crates/atomo/src/cache.rs:304-315 | eventual mode, any state: hits a lifetime after an advance have the write in every continuation if and only if nobody was then filling with an answer from before it |
| CacheProtocol.AdvanceAloneIsNotEnough | crates/atomo/src/cache.rs:304-315 | a reachable state in which somebody is |
| EventStores.EventStore.WithConfig | crates/atomo/src/event_store.rs:35-42 | a configuration that does not validate opens no store |
| EventStores.EventStore.InitializeModels | crates/atomo/src/event_store.rs:46-59 | each model takes the mode of its own policy, or of the fallback if it is not listed; incompleteness stays |
| EventStores.EventStore.PersistIn | crates/atomo/src/event_store.rs:117-141 | by the model's own policy or the fallback: stored unless the id is there already, or the log untouched and the history marked incomplete |
| EventStores.EventStore.PersistManyIn | crates/atomo/src/event_store.rs:147-207 | a batch, chunked and with its skipped models marked once, is event after event; whatever policy governs each model, what is off is not stored and what is on is held |
| EventStores.EventStore.Replay | crates/atomo/src/event_store.rs:210-238 | allowed only while the log is everything ever committed for the model; all of it, or what was stamped since a time, ordered by the writers' stamps alone |
| EventStores.EventStore.Maintain | crates/atomo/src/event_store.rs:262-311 | at most one batch over all models goes, from models retained by their own policy or the fallback, leaving a newest part of each; who is served first turns from pass to pass; less than a batch means all limits hold |
| EventStores.EventStore.MaintainUntilIdle | crates/atomo/src/event_store.rs:267-311 | passes at a fixed time end, with ages and bytes of every model within the limits of its own policy or the fallback |
| EventStores.TurnComes | crates/atomo/src/event_store.rs:278-284 | each of n models is first within n passes |
| EventStores.PoliciesAreLocal | crates/atomo/src/history.rs:98-100 | configurations that agree at a model treat it alike, whatever else they say |
| EventStores.InvalidIff | crates/atomo/src/history.rs:71-118 | a configuration is refused exactly for a pass interval or batch out of range or a policy that is retained without a limit, limited without being retained, or limited to nothing or beyond 64 bits |
| EventStores.FullHistoryMayBeRebuilt | crates/atomo/src/event_store.rs:46-59 | a model whose governing policy is full, complete so far, may be rebuilt after its start and any writes |
| EventStores.OtherHistoryMayNot | crates/atomo/src/event_store.rs:46-59 | one of any other policy may not |
| EventStores.StoredStaysOnce | crates/atomo/src/event_store.rs:117-141 | no event id is ever held twice, and recording an event again changes nothing |
| EventStores.VictimsArePrefix | crates/atomo/src/event_store.rs:299-301 | the rows selected for deletion are the oldest ones |
| EventStores.StoreKeepsFaith | crates/atomo/src/event_store.rs:117-141 | coverage keeps telling the truth about the log through every write |
| EventStores.DropKeepsFaith | crates/atomo/src/event_store.rs:302-305 | and through every deletion |
| HistoryCoverage.IncompleteStays | crates/atomo/src/event_store.rs:46-59 | no restart, write or deletion clears the mark of incompleteness |
| Projections.TableProjection.HandleEvent | crates/atomo_projectors/src/projection.rs:80-157 | the effect of one event on the projected table: an update changes only the mentioned columns of its own row, a new row without identity is refused |
| Projections.TableProjection.RebuildIn | crates/atomo_projectors/src/projection.rs:193-210 | all rows, in an order the query may return them, are replayed into an emptied table, or nothing changes |
| Projections.ReplayIsPerRow | crates/atomo_projectors/src/projection.rs:193-210 | logs with the same events per row rebuild the same table, however they are interleaved |
| LogReading.RowOrderIff | crates/atomo_projectors/src/projection.rs:195-197 | every answer to the query gives each row's events in commit order if and only if each row's stamps increase |
| Projections.RebuiltInOrder | crates/atomo_projectors/src/projection.rs:193-210 | then a rebuild replays the history as it was committed, whatever the ties and the stamps between rows |
| ModelWrites.ModelTable.CreateMany | crates/atomo/src/client.rs:508-614 | rows and events together, or neither |
| ModelWrites.ModelTable.WriteMany | crates/atomo/src/client.rs:618-904 | the selected rows change in one statement and each gets its event |
| ModelWrites.RowsAreLastWritten | crates/atomo/src/client.rs:508-904 | over every run: each column of each row holds what was last written to it |
| ModelWrites.EventsTell | crates/atomo/src/client.rs:508-904 | over every run: each write records one event, of its own kind, under the model's name and the row's identity |
| Tables.LiveRowsShow | crates/atomo_projectors/src/projection.rs:28-36 | what a projection should show: exactly the rows not marked deleted, texts as they are, other values by their JSON, null as nothing, NULL for what a row never had |
| ModelWrites.StepAgreesIffBenign | crates/atomo_projectors/src/projection.rs:80-157 | from agreement, replay gives the live rows after one more change exactly when that change is benign |
| ModelWrites.RunAgreesIffBenign | crates/atomo_projectors/src/projection.rs:193-210 | over every run: replay gives the live rows throughout if and only if every change is benign |
| ModelWrites.RestoreLosesColumns | crates/atomo/src/query/sql_builder.rs:212-223 | restoring a deleted row records its identity only, so the replayed row is bare |
| ModelWrites.UpdateHeals | crates/atomo_projectors/src/projection.rs:112-141 | the next update of such a row puts it right |
| Projectors.ProjectorManager.ProcessEvent | crates/atomo_projectors/src/projector_manager.rs:39-59 | every projection of the event's model takes it or, if it cannot, skips it; every other keeps its table |
| Projectors.ProjectorManager.Listen | crates/atomo_projectors/src/projector_manager.rs:86-107 | fed events of all models, each projection's table is the replay of its own model's events, in order, but those it cannot take |
| Projectors.FeedGivesLiveRows | crates/atomo_projectors/src/projector_manager.rs:39-59 | fed every change of a model in whatever company, a projection shows its live rows, if the changes were benign |
| Projectors.ProjectorManager.RebuildAll | crates/atomo_projectors/src/projector_manager.rs:62-79 | all projections become what their models' whole history, as it is read back, says, or none changes |
| Projectors.RebuildGivesLiveRows | crates/atomo_projectors/src/projection.rs:193-210 | where coverage allows a rebuild, all changes were benign and each row's stamps increase, the rebuilt table is the live rows |
| Projectors.SkewedClocksLoseAnUpdate | crates/atomo_projectors/src/projection.rs:195-197 | two benign writes of one row stamped the wrong way round: every rebuild shows the old one |
| CurrentState.CurrentStateProjection.InitializeAndSync | crates/atomo_projectors/src/current_state.rs:82-140 | the table becomes the live rows; counts what was new or different |
| CurrentState.CurrentStateProjection.Refresh | crates/atomo_projectors/src/current_state.rs:141-171 | undisturbed, one refresh makes its row what it is live |
| CurrentState.CurrentStateProjection.HandleEvent | crates/atomo_projectors/src/current_state.rs:181-191 | an event says which row to refresh, no more |
| CurrentState.DoFollows | crates/atomo_projectors/src/current_state.rs:141-191 | every step keeps: a row that differs from the live one has a notification on its way or its deletion under way |
| CurrentState.ConvergesAfterSync | crates/atomo_projectors/src/current_state.rs:82-191 | from any state, once synchronized, with reordered, repeated or old notifications: when none is left the projection is the live rows |
| Migrations.GenerateMigrations | crates/atomo/src/schema.rs:28-260 | the statements generated, in order; what they do is stated by the rows below |
| MigrationProofs.RunExtends | crates/atomo/src/schema.rs:28-260 | running any of it changes and removes nothing that was there |
| MigrationProofs.SecondRunChangesNothing | crates/atomo/src/schema.rs:28-260 | a second run changes nothing |
| MigrationProofs.FinalColumns | crates/atomo/src/schema.rs:31-167 | exactly which columns each table ends up with, in any order of the models |
| MigrationProofs.DeclaredColumnsArePresent | crates/atomo/src/schema.rs:114-167 | every plain declared column, deleted_at and tenant_id are there |
| MigrationProofs.NotBroughtForward | crates/atomo/src/schema.rs:92-128 | primary columns and undeclared timestamps are not added to tables that are there already |
| MigrationProofs.ReferenceResolvesIff | crates/atomo/src/schema.rs:195-242 | a reference names nothing missing exactly when its column and the target's id end up there |
| MigrationProofs.NothingMissingIsNamed | crates/atomo/src/schema.rs:195-257 | with every model declaring an id and old tables having their keys, no reference or check names anything missing |
| MigrationProofs.AnnotationsTakeEffect | crates/atomo/src/schema.rs:169-193 | every annotation and model constraint has its index or constraint afterwards |
| MigrationMeaning.ValidationTakesEffect | crates/atomo/src/schema.rs:378-448 | after a successful run the check a field's rule leaves, with the field's new column, lets in exactly the values the rule asks for - numbers or lengths at least the min, at most the max, e-mail addresses, URLs - and null exactly if the field is optional |
| MigrationMeaning.OtherRulesCheckNothing | crates/atomo/src/schema.rs:378-448 | other rules, and bounds without a number, leave no check |
| MigrationMeaning.NewColumnIsTheFields | crates/atomo/src/schema.rs:56-67 | a column that was not there is exactly its field's, whatever the order of the models |
| MigrationMeaning.ColumnType | crates/atomo/src/schema.rs:454-476 | its type by the field's, null allowed exactly if the field is optional |
| MigrationMeaning.ColumnDefault | crates/atomo/src/schema.rs:478-502 | its default: the first one declared, else the time for creation and update timestamps and an empty list for lists |
| MigrationMeaning.QuotedReadsBack | crates/atomo/src/schema.rs:496-502 | a quoted default reads back as declared, whatever quotes it contains |
| MigrationMeaning.ColumnNamesReadBack | crates/atomo/src/schema.rs:504-516 | a camelCase field name is read back from its column: different fields have different columns |
| MigrationMeaning.RequiredNeedsEmptyTable | crates/atomo/src/schema.rs:139-155 | a run that would give a table with rows a required column without a default fails |
| MigrationMeaning.NewTableHasPlatformColumns | crates/atomo/src/schema.rs:92-108 | a new table has creation and update times, never null, and a deletion time and tenant, unknown unless given |
| MigrationMeaning.NewTableHasItsKey | crates/atomo/src/schema.rs:44-54 | and its primary column, generated when not given |
| MigrationMeaning.FieldIndexes | crates/atomo/src/schema.rs:169-193 | a unique field gets a unique index on exactly its column, an indexed one a plain index |
| MigrationMeaning.ConstraintsAreMet | crates/atomo/src/schema.rs:265-335 | each model constraint whose name is free is met: the columns indexed, uniquely if so asked, under the condition given, or the check as written |
| MigrationMeaning.JoinedOneMore | crates/atomo/src/schema.rs:265-335 | the columns in an index's name are joined by underscores |
| MigrationMeaning.DigitsReadBack | crates/atomo/src/schema.rs:318-318 | a check is numbered by its place in the model, in decimal |
| MigrationMeaning.BelongingIsEnforced | crates/atomo/src/schema.rs:195-242 | a belongsTo whose key the model declares becomes a reference from that key to the named model's table |

## Left out

- Postgres, SQL text, binding and row decoding: tables are maps, a transaction is one step.
- Advisory locks: only the atomicity they give. Each refresh is two steps, a synchronization one.
- WebSocket and HTTP servers, tokens, GraphQL, frame serialization: payloads and answers are opaque text.
- Hooks, row-level security, tenants, embeddings, environment parsing, timers, striped fill locks: they add
  parameters and no property here.
- `ReadCache::set`, which takes the generation after the value was computed: the protocol goes through the
  conditional fill.
- Widths of counters and sizes: numbers are unbounded, and a value that fails to serialize is not modelled.
- Floating point in the rate limiter and clocks: real numbers.
- HubViews.ReachableViewsAgree: speaks of subscribers none of whose frames was shed, as a full queue drops
  them silently.
- HubViews.StepViewsButUneasy: whether a newcomer's own name ends up wrong, when the newcomer is reaped in its
  step after its snapshot was queued, or another of its principal's connections is while it is announced,
  depends on how the reaping falls between the announcements; only the bound is stated. For a newcomer hung up
  on the snapshot the exact condition is `HubGhosts.GhostMember`.
- HubTorn.StepViewsIff: likewise leaves out the newcomer's own name.
- HubArrivals.SessionLeaveArrives: at least once; a frame of a leave is set off again by a nested leave when the
  two coincide.
- HubDelivery.ElectionTells: speaks of the announcements set off by one leave; a re-election nested among them
  may be announced before the outer one is finished.
- HubDelivery.LeaveTells: likewise.
- HubWorker.Worker.Connect: a client's rate limiter is kept as a value inside the client record.
- RealtimeSdk.RealtimeClient.Dispatch: user callbacks, and what they might call, are not modelled.
- RealtimeSdk.RealtimeClient.Gone: plans the retry and returns its delay; the timer itself is not modelled.
- CacheProtocol.DoKeepsInv: a version of the database is one committed write; what queries read is any function
  of version and key.
- EventStores.EventStore.Maintain: the rows of a model are taken to be stamped by the database in the order they
  were committed, those stamped together being listed by row id; writing, replay and rebuilds do not assume it.
- EventStores.EventStore.MaintainUntilIdle: likewise.
- LogReading.RowOrderIff: timestamps are compared by code points, as the C collation does; rows are distinct, as
  event ids are.
- ModelWrites.ModelTable.WriteMany: an update does not reassign identities; which rows a condition selects is a
  parameter.
- Projections.TableProjection.HandleEvent: the table has its identity column as primary key.
- CurrentState.CurrentStateProjection.InitializeAndSync: the table's creation, and a column of another type than
  expected, are outside it.
- CurrentState.ConvergesAfterSync: a notification dropped by a lagging listener is outside it.
- Migrations.GenerateMigrations: statements are structures, not text; a field's map key is its name; names are
  split into words for ASCII letters; validation rules come already split.
- MigrationMeaning.ConstraintsAreMet: where two constraints come out under one name - a plain and a conditional unique
  constraint on the same columns, say - the first one run stands and the other is skipped.
- MigrationMeaning.ValidationTakesEffect: speaks of the field's new column; a column that was there before keeps its
  own nullability.
- HubRates.JoinsAreThrottled: the rate is not negative; of a negative one even the bounds on tokens are false.
- Extensions of built-in tables and the drift warning at start-up: they repeat what the generator does.
- Control plane, code generators, workflow engine, worker library, offline queue: outside these cores.
