# Verified model of the DFSR monitor

The repository watches Microsoft DFS Replication: it polls the replication backlog of a domain, caches
version vectors, keeps connections to servers alive and reads conflict manifests. Its hard part is the
coordination: mutexes, bounded channels, WaitGroups, goroutines that run in any order, timers. This project
models that coordination and proves what it keeps over every interleaving.

Each concurrent component has three layers.

- A *protocol*: a state datatype, an `Action` datatype and a total `Step` function. One action is one
  section under the component's mutex, or one move of a spawned goroutine. Goroutines that have been spawned
  and have not run are part of the state, so a sequence of actions is an interleaving; an action that cannot
  happen leaves the state alone. Channel misuse, a panic, a negative WaitGroup, a nil dereference or a timer
  drain that hangs put the state into a fault. Clocks, lookup results and connection errors are parameters
  of the actions.
- *Theorems* about `Run(acts)` for all `acts`: invariants, refinement, conservation, and statements of the
  form "some continuation reaches X if and only if P".
- A *class* with the fields of the Go struct, whose methods have the branches and loops of the Go methods
  and are proved to be exactly the protocol's steps: `Snapshot() == Step(old(Snapshot()), a)`. Every action
  has its method, those of goroutines, timers and consumers included, so a theorem about runs is a theorem
  about any sequence of method calls.

| files | component |
|---|---|
| `UpdateProtocol`, `UpdateInvariant`, `UpdateTheorems`, `UpdateCrash`, `UpdateConsumer`, `UpdateCounterexamples`, `Update` | one update and its listeners, `monitor/update.go` |
| `RoundProtocol`, `RoundTheorems`, `RoundProgress`, `Worker`, `Connections`, `Broadcaster`, `Dfsr` | one polling round that drives the updates |
| `CacheProtocol`, `CacheTheorems`, `CacheCleaner`, `CacheFlights`, `CacheAnswers`, `Cache` | the expiring single-flight cache |
| `EndpointProtocol`, `EndpointTheorems`, `EndpointOwnership`, `EndpointHistory`, `EndpointSchedule`, `EndpointStatus`, `Endpoint` | the connection state machine |
| `PollerProtocol`, `PollerTheorems`, `PollerHistory`, `Poller` | the poller and its shutdown |
| `ValueSink`, `ManifestCursor`, `ManifestFilter` | the value sink; manifest statistics and filters |
| `Base` | what several components share |

Two modelling choices matter for reading the update theorems. `listeners` is a Go slice of *structs*: when
`append` outgrows it, the structs are copied, and a goroutine that was spawned on an old element goes on
working on the old copy. The model keeps every copy of a listener, with the goroutines that wait on each
(`InFlight`), the ones on copies that the slice no longer holds (`Stranded`), and how many sends a listener
lost to its last copy in this way (`Lost`). How far `append` grows the slice is an argument of `Listen`.

## Where the code and its documentation differ

The model follows the code. Each difference is proved, with the exact condition.

- `Listen` says its channel is closed once all values have been sent. It is closed exactly if the listener
  joined before the last value and lost nothing to a reallocation (`ClosedExactlyWhenComplete`,
  `LateListenerStaysOpen`, `ThirdListenerCutsOffFirst`).
- After a reallocation a canceled update can make a stranded goroutine send on a closed channel
  (`CanceledUpdateCrashes` is such a run, `CrashReachableExactly` the condition). With at most two listeners,
  or with all of them before the first send, it cannot (`TwoListenersAreSafe`, `JoinFirstIsSafe`). Nothing in
  the repository calls `Update.cancel`, so this is a property of the type and not of a polling round, which
  is free of it (`RoundIsSafe`).
- `Values` says it returns when the update has finished. `Poll` never calls `cancel`, so after a round in
  which some `compute` saw a done context it never returns (`ValuesReturnIffNothingCanceled`,
  `CanceledRoundKeepsWaiting`).
- `Lookup` says it returns a value or an error. It may do neither (`AnsweredExactly`), because `retrieve`
  returns without releasing its waiters (`AbandonedNeverAnswers`), and because `Value` and `Lookup` keep the
  lock on a closed cache (`ValueAfterCloseKeepsLock`, `LockLostExactly`). After a second attempt of `Lookup`
  has kept the write lock, `Value` and `Lookup` do not even return (`CloseBetweenAttempts`,
  `WriteLockLostExactly`, `NoSectionRunsAgain`).
- `Close` says it prevents further use of the cache. It clears the lookup function, which a lookup that has
  not started will still call (`NilLookupExactly`, `CloseMeetsSpawnedLookup`).
- `cleanup` says it runs until the cache is empty. An entry that expires at the very time of the last pass
  stays behind (`LeftBehindExactlyAtTie`, `TieLeavesEntry`); it can no longer be read.
- `EndpointState.Changed` is the last time the state changed, but a connection attempt does not set it:
  `updateConnection` stores the error before `updateConnectionState` compares. Over any run it is the time of
  the last failed call that counted (`ChangedIsLastFailure`, `InstallLeavesChanged`).
- `Close` of an endpoint should make its calls fail. If it comes before the first connection attempt they
  wait for ever (`CallsProceedExactly`, `CloseBeforeFirstAttempt`).
- `Sink` says it keeps the last value that is not nil. `Update(nil, t, nil)` makes it empty again
  (`HoldsLastValueExactly`, `NilSuccessEmpties`), and `WaitReady` can then return nil without a value
  (`ReadyWithoutValue`, `NilSuccessReleases`).

## Model

| member | source | states |
|---|---|---|
| UpdateTheorems.OnlyTwoFaults | monitor/update.go:146-211 | Over every interleaving no send blocks on a full channel, no channel is closed twice and no WaitGroup goes negative; what can go wrong is only the panic of a superfluous send, or a send on a closed channel. |
| UpdateConsumer.SendFindsRoom | monitor/update.go:189-195 | Over any run a waiting delivery finds room in the channel's buffer, and finds it open unless the update is canceled. |
| UpdateConsumer.CancelFindsOpen | monitor/update.go:203-210 | Over any run a waiting cancel finds the channel of an open listener open. |
| UpdateConsumer.ListenersAreDropped | monitor/update.go:133-157 | The last send and a cancel drop the slice of listeners. |
| UpdateTheorems.WithinBudget | monitor/update.go:123-125 | At most `size` sends never reach the panic. |
| UpdateTheorems.ValuesAreSends | monitor/update.go:115-131 | Until a cancel, `values` has one entry per send; never more. |
| UpdateTheorems.ClosedSendNeedsLoss | monitor/update.go:189-201 | A send on a closed channel happens only after a reallocation cut some listener off from a send. |
| UpdateTheorems.Accounting | monitor/update.go:101-160 | `len(values) + remaining == size` always; the `received` counter is `remaining`, or 0 once canceled. |
| UpdateTheorems.ValuesAreFinal | monitor/update.go:69-72 | Once `Values` can return, nothing that happens later changes its result or makes it block again. |
| UpdateTheorems.ExactlyOnce | monitor/update.go:40-65 | Without cancel, what a listener's channel was sent plus its sends in flight is the multiset of values so far, whenever it joined; with cancel, a part of it. Never more than the channel's capacity. |
| UpdateConsumer.ValuesInOrder | monitor/update.go:115-131 | `values` are the sent backlogs in the order of the sends, all of them until a cancel and none after it. |
| UpdateConsumer.SentOnlyGrows | monitor/update.go:189-201 | What was sent on a channel stays there, in its order, in every continuation. |
| UpdateConsumer.TakenInOrder | monitor/update.go:35-39 | The values that a consumer has received are the first ones that were sent on its channel, in order and each once. |
| UpdateConsumer.ReceivedWithinValues | monitor/update.go:29-39 | A consumer gets no value that the update does not have, and none more often. |
| UpdateConsumer.RangeGetsEveryValue | monitor/update.go:35-39 | A consumer that has come to the end of a closed channel of an update that was not canceled has got every sent value exactly once. |
| UpdateTheorems.ClosedExactlyWhenComplete | monitor/update.go:189-201 | Without cancel a channel is closed if and only if it holds all `size` values, its listener joined before the last one, and no send was cut off. |
| UpdateTheorems.LateNeverCloses | monitor/update.go:60-62 | The channel of a listener that joined after the last value is open in every continuation. |
| UpdateTheorems.CutOffNeverCloses | monitor/update.go:60-62 | So is, once the last value has come, that of a listener that was cut off from a send. |
| UpdateTheorems.CanceledChannelsClose | monitor/update.go:146-165 | After a cancel, a listener none of whose cancel goroutines is outstanding has a closed channel. |
| UpdateCrash.CrashReachableExactly | monitor/update.go:40-211 | Whatever follows, new listeners included, a send on a closed channel is still reachable if and only if a send is stranded on an old struct copy while the update is canceled or can be; or the update is not canceled and has two values or more to come; or it has one, and a send waits on a listener in the slice. This holds however `append` grows the slice. |
| UpdateTheorems.CrashIffStranded | monitor/update.go:127-164 | The same for a caller that lets nobody join any more: then only a send that is already stranded matters. |
| UpdateTheorems.TwoListenersLoseNothing | monitor/update.go:102-109 | With at most two listeners no send is ever cut off: the slice starts with room for two. |
| UpdateTheorems.TwoListenersAreSafe | monitor/update.go:102-109 | With at most two listeners and `size` sends, no interleaving with any cancels has a fault. |
| UpdateTheorems.JoinFirstLosesNothing | monitor/update.go:60-62 | If every listener joins before the first send, however many they are, no send is ever cut off. |
| UpdateTheorems.JoinFirstIsSafe | monitor/update.go:40-165 | If besides there are at most `size` sends, no interleaving with any cancels has a fault. |
| UpdateInvariant.InvHolds | monitor/update.go:40-211 | The invariant behind these theorems holds after every run without a fault. |
| UpdateCounterexamples.LateListenerStaysOpen | monitor/update.go:60-62 | A run in which a listener that joins after the last value holds it, and whose continuations never close its channel. |
| UpdateCounterexamples.ThirdListenerCutsOffFirst | monitor/update.go:60-62 | A run in which a third listener cuts off the first one, which then has all values, and whose continuations never close its channel. |
| UpdateCounterexamples.CanceledUpdateCrashes | monitor/update.go:189-211 | A run of three listeners, one send and a cancel that sends on a closed channel. |
| Update.Update.constructor | monitor/update.go:101-113 | `newUpdate` yields the initial state. |
| Update.Update.Listen | monitor/update.go:40-65 | Listen is its protocol step; the new channel holds the values so far and has room for all. |
| Update.Update.Send | monitor/update.go:115-144 | send, with its loop over the snapshot, is its protocol step; it fails exactly if the update is complete and not canceled. |
| Update.Update.Cancel | monitor/update.go:146-165 | cancel is its protocol step; it keeps the values and releases `Values`. |
| Update.Update.DeliverSend | monitor/update.go:189-201 | updateListener.send on one struct copy is its protocol step. |
| Update.Update.DeliverClose | monitor/update.go:203-211 | updateListener.cancel on one struct copy is its protocol step. |
| Update.Update.Receive | monitor/update.go:29-39 | A consumer takes the values of its channel in order. |
| RoundTheorems.RoundIsSafe | monitor/worker.go:38-101 | Over every schedule of the computes, consumers and the context: no WaitGroup goes negative, every update is free of faults (the panic is unreachable), and its values are part of the round's connections. |
| RoundTheorems.RoundEnds | monitor/worker.go:70-74 | When `setEnd` is reached, `remaining` and `received` of each update count the computes that saw the cancellation; if none did, the values are a permutation of the connections. |
| RoundProgress.SawCancelExactly | monitor/worker.go:77-82 | compute gives up as canceled if and only if the context was canceled before its first look at it. |
| RoundProgress.LiveRoundIsComplete | monitor/worker.go:38-75 | A round whose context is never canceled ends with all of its connections in every update, once each, and lets Values return. |
| RoundProgress.RoundCanEnd | monitor/worker.go:63-74 | From every state of every round its own goroutines can bring Poll to its end. |
| RoundProgress.ConsumerActsOnUpdate | monitor/update.go:40-65 | What a consumer does to an update is a step of that update and of no other. |
| RoundProgress.ComputeSendsItsBacklog | monitor/worker.go:97-99 | compute sends its own connection to the updates in turn, one at a time. |
| RoundTheorems.ValuesReturnIffNothingCanceled | monitor/worker.go:77-82 | After a round `Values` can ever return if and only if no compute saw the cancellation. |
| RoundTheorems.CanceledRoundKeepsWaiting | monitor/worker.go:77-82 | A round of one connection after which Poll has returned and Values never does. |
| RoundTheorems.RoundReachesListener | monitor/worker.go:97-99 | After such a round a listener with nothing in flight has every connection's backlog once, and is closed if and only if it joined in time and lost nothing. |
| RoundTheorems.SendFits | monitor/update.go:123-125 | A compute that has not yet sent to an update finds room in it. |
| Worker.PollRound.constructor | monitor/worker.go:48-61 | A round starts with one goroutine per connection and both WaitGroups at that number. |
| Worker.PollRound.CheckContext | monitor/worker.go:77-82 | compute's look at the context is its protocol step; neither WaitGroup goes below zero. |
| Worker.PollRound.BacklogArrives | monitor/worker.go:84-86 | The first Done of compute is its protocol step. |
| Worker.PollRound.SendOrFinish | monitor/worker.go:97-100 | One turn of compute's loop over the updates, or the Done after it, is its protocol step. |
| Worker.PollRound.Advance | monitor/worker.go:63-74 | Poll's statements are protocol steps; `setEnd` comes only after both WaitGroups are at zero. |
| Connections.ConnectionsOf | monitor/utility.go:9-39 | The three nested loops compute the recursive specification `OfGroups`, in order and with repetitions. |
| Connections.RoundCoversDomain | monitor/utility.go:13-36 | A backlog is in the round if and only if an enabled connection with a source, of a member with a host, in its group, asks for it. |
| Connections.RoundCountsConnections | monitor/utility.go:9-39 | A backlog is in the round exactly as often as enabled connections ask for it. |
| Connections.RoundIsInOrder | monitor/utility.go:9-39 | The round lists the groups in order. |
| Connections.OfMembersHas | monitor/utility.go:13-18 | The same for the members of one group. |
| Connections.OfMemberHas | monitor/utility.go:20-35 | The same for the connections of one member. |
| Broadcaster.Broadcaster.constructor | monitor/broadcaster.go:10-14 | A new broadcaster has no listeners. |
| Broadcaster.Broadcaster.Listen | monitor/broadcaster.go:32-42 | Appends a new channel of the requested capacity, or returns a closed one after Close; the list names exactly the channels that are open. |
| Broadcaster.Broadcaster.Receive | monitor/broadcaster.go:76 | A consumer's receive makes room for one send, without the mutex. |
| Broadcaster.Broadcaster.Unlisten | monitor/broadcaster.go:44-63 | The loop that edits the list while it walks it removes the channel and keeps the others in order; closes it once, and only while it is open; `found` if and only if it was there. |
| Broadcaster.Broadcaster.Broadcast | monitor/broadcaster.go:65-73 | Takes the mutex and enters the loop exactly if there is a listener. |
| Broadcaster.Broadcaster.SendNext | monitor/broadcaster.go:73-78 | A turn of the loop sends exactly if the next listener's channel, which is open, has room, and otherwise waits with the mutex held; after the last turn each listener has been sent its update, whatever consumers received meanwhile. |
| Broadcaster.Broadcaster.Close | monitor/broadcaster.go:16-30 | Closes every registered channel once; a second call does nothing. |
| Broadcaster.EveryoneIsTold | monitor/broadcaster.go:65-79 | After a Broadcast every listener has been sent one update more, its own, and no other channel any. |
| Broadcaster.AnnouncedOnce | monitor/broadcaster.go:73-78 | Each listener gets exactly one update, the one with its own index; other channels are untouched. |
| Broadcaster.WithoutKeeps | monitor/broadcaster.go:47-60 | After removal the list holds the same channels but the one removed, without repetition. |
| Broadcaster.WithoutParts | monitor/broadcaster.go:47-60 | Removal keeps the order of the others. |
| Broadcaster.UnlistenKeeps | monitor/broadcaster.go:44-63 | Unlisten keeps the agreement between the list and the open channels. |
| CacheTheorems.CleaningIsInvisible | cache/cache.go:137-172 | Refinement: after any interleaving every key reads as in a map of last writes that is never cleaned, and lookups, pending table and lock state are the same. |
| CacheTheorems.Refines | cache/cache.go:300-322 | The relation behind it: what the cache holds is the last write, and what it dropped had expired. |
| CacheTheorems.EntryIsCovered | cache/cache.go:137-145 | Every resident entry has a log record with its own key and timestamp, or a pass of validate has used exactly its expiration as its time. |
| CacheTheorems.SweptIsPast | cache/cache.go:275-287 | No pass of validate uses a time later than the clock. |
| CacheTheorems.NothingFreshWhenLogEmpty | cache/cache.go:321 | When the log is empty, as when the cleaner ends, no entry that can still be read is resident. |
| CacheCleaner.PassExactly | cache/cache.go:300-322 | Over any run, a pass deletes exactly the entries that have expired before its time and that a record names before the first one that has not expired; it takes off those records, and sleeps until exactly that one's expiration, or ends if there is none. |
| CacheCleaner.OrderedPassExactly | cache/cache.go:300-322 | If timestamps enter the log in order, a pass deletes every logged entry that has expired before its time, and no other. |
| CacheTheorems.LeftBehindExactlyAtTie | cache/cache.go:303-316 | Over any run, the pass that empties the log leaves an entry behind if and only if the entry expires at the time of the pass, or was left behind by an earlier pass and so has no record. |
| CacheTheorems.LastIsOwnHolds | cache/cache.go:137-145 | The last log record that names a resident entry is its own. |
| CacheTheorems.TieLeavesEntry | cache/cache.go:273-274 | A run that ends with no log, no cleaner and an entry in the table. |
| CacheTheorems.RefreshedSurvives | cache/cache.go:310-316 | Over any run an entry that is not overwritten stays until it has expired, whatever older records of its key the cleaner pops. |
| CacheCleaner.OneCleaner | cache/cache.go:266-293 | Through Evict and Close too: `cleaning` holds if and only if exactly one cleanup goroutine is alive, and a log that is not empty has one. |
| CacheCleaner.CleanerIsNeverLate | cache/cache.go:276-304 | If timestamps enter the log in order and d >= 0, the sleeping cleaner wakes no later than any logged record expires. |
| CacheCleaner.HeadIsNeverLate | cache/cache.go:276-304 | In whatever order timestamps enter the log, with d >= 0 and no Evict the sleeping cleaner wakes no later than the head record expires. |
| CacheAnswers.SleepsUntilNext | cache/cache.go:278-283 | A cleaner that sleeps until `next` makes its pass with no earlier time. |
| CacheAnswers.WakesAtNext | cache/cache.go:278-283 | It can wake as soon as that time has come, and not before. |
| CacheCleaner.EvictMakesCleanerLate | cache/cache.go:117-118 | A run with Evict in which the cleaner sleeps past the head record, whose Set had read the clock early. |
| CacheCleaner.NothingIsLost | cache/cache.go:253-259 | Conservation: the values ever stored are those resident plus those released, through overwrite, sweep, Evict and Close. |
| CacheCleaner.ReleasedOnce | cache/cache.go:324-332 | A value stored once is released at most once, and not while it is resident. |
| CacheAnswers.EvictForgets | cache/cache.go:106-119 | After Evict no key reads anything and all residents are released; lookups, the pending table and the lock are as before. |
| CacheAnswers.CloseForgets | cache/cache.go:89-104 | After Close no key reads anything, all residents are released and nobody is pending. |
| CacheCleaner.ConservedSweep | cache/cache.go:308-316 | A sweep releases exactly what it removes. |
| CacheFlights.SingleFlight | cache/cache.go:214-223 | On an open cache two unfinished lookups of one key are the same one. |
| CacheFlights.StartsOnlyOnMiss | cache/cache.go:191-203 | A lookup starts only after a miss under the write lock, and only if none is pending for its key. |
| CacheFlights.LookupsAreSequential | cache/cache.go:214-246 | Over any run, Evict and Close included, a lookup of a key starts only after every earlier one has completed. |
| CacheFlights.FinishIsAtomic | cache/cache.go:237-244 | A successful lookup leaves the pending table, where it still had its key's place, and enters the cache in one step. |
| CacheFlights.AnswerIsFinal | cache/cache.go:205-207 | What a lookup has answered never changes, so all who joined it get the same value and error. |
| CacheAnswers.AnswerIsWhatLookupReturned | cache/cache.go:234-245 | What the lookup function returned is what everyone who joined it is told, in every continuation. |
| CacheAnswers.LookupIsRead | cache/cache.go:234-244 | After a successful lookup has been stored its key reads the value exactly until d after the function returned, if nothing overwrites it. |
| CacheAnswers.SetIsRead | cache/cache.go:125-146 | After Set the key reads the value exactly until d after Set read the clock, if nothing overwrites it. |
| CacheAnswers.FailureStoresNothing | cache/cache.go:237-245 | A failed lookup stores nothing, leaves the pending table, and tells its error. |
| CacheAnswers.OnlyMissesRetry | cache/cache.go:180-192 | Over any run a caller goes on to the write lock if and only if it missed under the read lock. |
| CacheAnswers.RetryJoins | cache/cache.go:192-205 | A caller that misses again joins an unfinished lookup of its key. |
| CacheFlights.AbandonedKeepsKey | cache/cache.go:226-232 | A lookup abandoned at entry holds its key's place in the pending table for as long as the cache is open. |
| CacheFlights.AnsweredExactly | cache/cache.go:225-246 | A caller that joined a lookup can ever be answered if and only if the lookup was not abandoned, no call on the closed cache has kept the lock, and Close did not come before the lookup function was called. |
| CacheFlights.KeptLockStaysKept | cache/cache.go:152-156 | A lock kept by a call on the closed cache is never given back, so no writer runs again. |
| CacheFlights.LockLostExactly | cache/cache.go:152-195 | Over any run, writers are shut out if and only if Value or an attempt of Lookup took the lock on the closed cache. |
| CacheFlights.WriteLockLostExactly | cache/cache.go:191-195 | Over any run, the write lock is lost if and only if the second attempt of a Lookup took it on the closed cache. |
| CacheFlights.NoSectionRunsAgain | cache/cache.go:152-195 | After a lost lock no section that writes runs in any continuation; after a lost write lock none that reads does. |
| CacheFlights.CloseBetweenAttempts | cache/cache.go:186-195 | A run in which Close comes between the two attempts of a Lookup, which then keeps the write lock. |
| CacheFlights.ValueAfterCloseKeepsLock | cache/cache.go:153-156 | Close and one Value: no continuation lets a writer in. |
| CacheFlights.AbandonedNeverAnswers | cache/cache.go:226-232 | A run whose lookup was abandoned at entry: no continuation answers those who wait for it. |
| CacheFlights.NilLookupExactly | cache/cache.go:102-103 | On a closed cache the cleared lookup function can still be called if and only if some lookup has not started. |
| CacheFlights.CloseMeetsSpawnedLookup | cache/cache.go:225-234 | A run in which Close overtakes a lookup that then calls the cleared function. |
| CacheFlights.NilLookupNext | cache/cache.go:226-234 | The step that calls it is the start, with a live context, of such a lookup on a closed cache. |
| CacheFlights.LocksKeptOnlyWhenClosed | cache/cache.go:179-195 | While the cache is open no call returns with the lock. |
| Cache.Cache.constructor | cache/cache.go:75-83 | A new cache is the initial state. |
| Cache.Cache.Put | cache/cache.go:137-146 | set: overwrites and releases the old value, appends the log record, starts a cleaner if none is alive. |
| Cache.Cache.Delete | cache/cache.go:253-259 | Removes the key and releases its value if it had one. |
| Cache.Cache.SpawnCleanup | cache/cache.go:266-271 | Starts a cleaner at the head record's timestamp if there is a log and no cleaner. |
| Cache.Cache.SetValue | cache/cache.go:125-133 | Set is its protocol step; the key then reads the new value unless that has expired on the way to the lock. |
| Cache.Cache.ReadValueOf | cache/cache.go:152-159 | Value is its protocol step; on a closed cache it misses and keeps the read lock. |
| Cache.Cache.Peek | cache/cache.go:163-172 | value returns an entry exactly if its expiration is after now. |
| Cache.Cache.LookupFirst | cache/cache.go:180-189 | The attempt under the read lock is its protocol step. |
| Cache.Cache.LookupSecond | cache/cache.go:191-204 | The attempt under the write lock is its protocol step: hit, join the pending lookup, or start one. |
| Cache.Cache.RetrieveBegins | cache/cache.go:225-234 | retrieve up to the call of the lookup function, with its early return, is its protocol step. |
| Cache.Cache.LookupReturns | cache/cache.go:234-235 | The lookup function returns and the clock is read: a protocol step. |
| Cache.Cache.RetrieveEnds | cache/cache.go:237-245 | retrieve's section under the lock is its protocol step, and answers the lookup. |
| Cache.Cache.EvictAll | cache/cache.go:108-119 | Evict is its protocol step: releases every resident value and leaves pending lookups alone. |
| Cache.Cache.CloseCache | cache/cache.go:91-104 | Close is its protocol step. |
| Cache.Cache.ReleaseAll | cache/cache.go:97-99 | The loop releases each resident value once, in whatever order. |
| Cache.Cache.Validate | cache/cache.go:300-322 | The loop pops the records that have expired and no more; what it deletes is what they name and has expired before now; deleted values are released; `next` is the head record's expiration. |
| Cache.Cache.WakeCleaner | cache/cache.go:278-283 | cleanup wakes no earlier than `next`, with the time it reads. |
| Cache.Cache.CleanupPass | cache/cache.go:284-291 | One turn of cleanup's loop is its protocol step; it changes no entry it keeps. |
| Cache.PopNext | cache/cache.go:307-319 | Popping one record removes at most the entry it names, and only if that has expired before now. |
| EndpointTheorems.EndpointIsSafe | helper/endpoint.go:355-436 | Over every interleaving: no send after the channels are closed, no drain of the timer hangs, no call meets a nil reporter, `ready` is done at most once; Err = nil implies a reporter; the channels are closed if and only if Err is ErrClosed. |
| EndpointTheorems.InvHolds | helper/endpoint.go:271-436 | The invariant behind it holds after every run. |
| EndpointTheorems.ReconnectionIsScheduled | helper/endpoint.go:286-349 | Whenever run waits in its select the timer has fired, or is armed to fire within the longer reconnection interval, through configuration changes, flips and reconnects. |
| EndpointSchedule.ReconnectsWhenDue | helper/endpoint.go:286-349 | Over any run, while run waits in its select its timer is armed for exactly the time at which the next attempt is due, or has fired then: at once at first; an interval after an attempt, by its outcome; at once when an online endpoint is seen offline or caching or limiting change; a changed interval after the last attempt began, or at once. |
| EndpointSchedule.ConfigsInOrder | helper/endpoint.go:151-158 | The configurations sent by UpdateConfig reach run, each once and in order. |
| EndpointSchedule.RunUsesLastConfig | helper/endpoint.go:142-158 | Config returns the last configuration given to UpdateConfig; once nothing is on its way, run of an open endpoint uses it too. |
| EndpointStatus.StatusesInOrder | helper/endpoint.go:355-436 | The states that connections, health updates and failed calls lead to reach run, each once and in order. |
| EndpointStatus.RunLearnsState | helper/endpoint.go:313-324 | Once it has received what was sent, run of an open endpoint knows whether the endpoint is online. |
| EndpointStatus.BlocksExactlyWhenFull | helper/endpoint.go:81 | UpdateConfig blocks with the mutex if and only if 32 configurations wait. |
| EndpointStatus.FailureBlocksExactlyWhenFull | helper/endpoint.go:81 | A failed call blocks likewise if and only if 32 states wait. |
| EndpointStatus.HeldMutexExcludes | helper/endpoint.go:355-393 | While a goroutine waits with the mutex for room in a channel, no section under the mutex runs. |
| EndpointStatus.ClosedChannelsStopRun | helper/endpoint.go:294-316 | After Close run ends as soon as it has drained either channel. |
| EndpointTheorems.ClosedForever | helper/endpoint.go:169-191 | ErrClosed is absorbing, and nothing is sent or installed any more. |
| EndpointTheorems.WhoChangesErr | helper/endpoint.go:355-414 | Err changes only by Close, by a new connection attempt, or by an unavailable-server failure on the current reporter that is not older than the state; only the last sets Changed. |
| EndpointHistory.ChangedIsLastFailure | helper/endpoint.go:355-414 | Over any run Changed is the time of the last failed call that counted, or of the endpoint's creation; connections and Close never set it. |
| EndpointStatus.StatusIsFold | helper/endpoint.go:50-56 | Over any run Err, Updated, IdleSince, Calls and the health sequence are what the connections, calls, health updates and Close before it say. |
| EndpointTheorems.InstallLeavesChanged | helper/endpoint.go:373-384 | A run in which the first connection changes Err and Updated but not Changed. |
| EndpointTheorems.OnlineOnlyByNewConnection | helper/endpoint.go:373-384 | An offline endpoint comes online only by installing the reporter of a new successful attempt. |
| EndpointHistory.OnlineMeansReconnected | helper/endpoint.go:373-384 | Over any run, an endpoint that was offline and now is online has the reporter of a successful attempt that was installed in between. |
| EndpointStatus.AttemptIsRecorded | helper/endpoint.go:325-336 | An attempt is recorded with its outcome and the time at which it began; the first one marks the endpoint ready. |
| EndpointStatus.InstallTakesEffect | helper/endpoint.go:373-384 | updateConnection on an open endpoint installs the reporter and the error of its attempt. |
| EndpointStatus.CanComeOnline | helper/endpoint.go:85-101 | From every state that is not closed the endpoint can come online with a reporter. |
| EndpointStatus.CallsAreOnline | helper/endpoint.go:199-217 | Over any run exactly the calls that found the endpoint ready, online and responsive are in progress, each on the reporter that was installed then. |
| EndpointTheorems.FailureCountsExactly | helper/endpoint.go:398-414 | Over any run, a call's failure changes Err if and only if it is an unavailable-server error other than the present one, on the current reporter of an endpoint that is not closed, and not older than the state. |
| EndpointTheorems.StaleFailureIsIgnored | helper/endpoint.go:407-412 | A failure on a reporter that is no longer current changes nothing but IdleSince. |
| EndpointOwnership.EveryReporterHasOneOwner | helper/endpoint.go:331-393 | Every reporter that run created is in exactly one place: installed, awaiting its updateConnection, about to be closed, or closed. |
| EndpointOwnership.EveryReporterIsClosedOnce | helper/endpoint.go:169-191 | After Close, when every goroutine has run, each reporter has been closed exactly once. |
| EndpointOwnership.EverythingCanBeReleased | helper/endpoint.go:168-191 | From every state Close can be brought to its end and every goroutine can run, after which each reporter has been closed exactly once. |
| EndpointOwnership.BlockedSenderIsReleased | helper/endpoint.go:355-371 | A goroutine that blocks in a send with the mutex held can always be released by run alone. |
| EndpointOwnership.CloseCanFinish | helper/endpoint.go:181-190 | From every state in which Close waits for run, run can exit and Close can finish. |
| EndpointOwnership.CallsProceedExactly | helper/endpoint.go:199-206 | Vector, Backlog and Report can ever get past `ready` if and only if run has not exited before its first attempt. |
| EndpointOwnership.NeverReady | helper/endpoint.go:292-297 | If it has, `ready` is never done, in any continuation. |
| EndpointOwnership.CloseBeforeFirstAttempt | helper/endpoint.go:169-181 | Close, noticed by run before its timer, is such a run. |
| Endpoint.Endpoint.constructor | helper/endpoint.go:121-140 | NewEndpoint yields the initial state. |
| Endpoint.Endpoint.ReceiveConfig | helper/endpoint.go:294-312 | The configuration case of run is its protocol step. |
| Endpoint.Endpoint.ReceiveStatus | helper/endpoint.go:313-324 | The state case of run is its protocol step. |
| Endpoint.Endpoint.ReceiveTick | helper/endpoint.go:325-331 | The timer case, up to the connection attempt, is its protocol step. |
| Endpoint.Endpoint.AttemptEnds | helper/endpoint.go:331-342 | The rest of the timer case is its protocol step. |
| Endpoint.Endpoint.ResetTimer | helper/endpoint.go:473-478 | The timer is armed anew; its drain finds a tick. |
| Endpoint.Endpoint.Notify | helper/endpoint.go:370 | A send on stateChange: done if there is room, else the mutex stays held. |
| Endpoint.Endpoint.UnblockSender | helper/endpoint.go:370-392 | A sender that waited finds room, finishes its section and gives the mutex back. |
| Endpoint.Endpoint.CloseRetired | helper/endpoint.go:386-388 | A spawned Close of a retired reporter runs. |
| Endpoint.Endpoint.TimerExpires | helper/endpoint.go:325 | The timer fires, and its tick waits to be read. |
| Endpoint.Endpoint.InstallConnection | helper/endpoint.go:373-393 | updateConnection is its protocol step. |
| Endpoint.Endpoint.FinishConnection | helper/endpoint.go:386-392 | The end of updateConnection: retires the reporter it is given, if any, and marks the endpoint ready after the first attempt. |
| Endpoint.Endpoint.UpdateConnectionState | helper/endpoint.go:355-371 | Sets Err, Updated and, if Err differs, Changed, and sends the state; does nothing on a closed endpoint, nor with onlyIfNewer for what is older than the state. |
| Endpoint.Endpoint.StartCall | helper/endpoint.go:199-211 | A call gets the current reporter exactly if the endpoint is online and, for Vector and Backlog, responsive; otherwise the state's error, or the one for an unresponsive endpoint. |
| Endpoint.Endpoint.UpdateStateAfterCall | helper/endpoint.go:398-414 | updateStateAfterCall is its protocol step. |
| Endpoint.Endpoint.HealthArrives | helper/endpoint.go:418-436 | updateHealth is its protocol step; it never changes Err, and the sequence never falls. |
| Endpoint.Endpoint.ChangeConfig | helper/endpoint.go:151-158 | UpdateConfig is its protocol step. |
| Endpoint.Endpoint.BeginClose | helper/endpoint.go:169-179 | Close up to the wait is its protocol step. |
| Endpoint.Endpoint.EndClose | helper/endpoint.go:185-190 | The rest of Close is its protocol step: it closes the installed reporter, if any. |
| PollerTheorems.PollsExclude | poller/poller.go:109-139 | At most one invocation is inside source.Poll, and source.Close is neither running nor done then. |
| PollerHistory.PollsUntilReturn | poller/poller.go:109-139 | Over any run an invocation is inside source.Poll if and only if it has acquired and source.Poll has not returned in it; it finishes only afterwards. |
| PollerHistory.PulsePolls | poller/poller.go:77-101 | Poll on an open, idle poller leads through run and its invocation into source.Poll. |
| PollerHistory.TickPolls | poller/poller.go:91-122 | So does a tick. |
| PollerHistory.BusyTickIsSkipped | poller/poller.go:113-117 | An invocation that starts during a poll ends at once and changes nothing else. |
| PollerHistory.OpenPollerPollsAgain | poller/poller.go:77-122 | As long as source.Poll returns, an open poller can always poll once more. |
| PollerHistory.CanceledExactly | poller/poller.go:63-65 | A poll's context is canceled if and only if Close comes while it runs. |
| PollerHistory.StopEndsRun | poller/poller.go:92-94 | After Close run ends when it reads stop. |
| PollerHistory.ExitedRunSpawnsNothing | poller/poller.go:91-100 | Run that has ended spawns no invocation in any continuation. |
| PollerHistory.HeldMutexExcludes | poller/poller.go:79-85 | While a Poll blocks in its send, or Close runs source.Close, no section under the mutex runs. |
| PollerTheorems.SourceClosesOnce | poller/poller.go:50-75 | source.Close runs at most once, and has run exactly if Close has finished. |
| PollerTheorems.NoneStartsAfterClose | poller/poller.go:124-132 | After Close no invocation enters source.Poll, however many more run spawns from the closed pulse channel. |
| PollerTheorems.SenderHasReceiver | poller/poller.go:79-85 | A Poll that blocks in its send finds the channel open and run there to receive; run's next step releases it. |
| PollerTheorems.NoLostWakeup | poller/poller.go:67-71 | While Close sleeps on `idle`, an invocation is running or a broadcast is still owed. |
| PollerTheorems.CloseCanFinish | poller/poller.go:63-74 | As long as source.Poll returns, a started Close can run to its end. |
| PollerTheorems.InvHolds | poller/poller.go:50-139 | The invariant behind these theorems holds after every run. |
| Poller.Poller.Poll | poller/poller.go:79-85 | Poll blocks in its send, holding the mutex, exactly if the poller is open. |
| Poller.Poller.ReceivePulse | poller/poller.go:91-100 | A turn of run on the pulse channel spawns one invocation and releases the sender. |
| Poller.Poller.ReceiveTick | poller/poller.go:96-99 | A turn of run on its ticker spawns one invocation. |
| Poller.Poller.ReceiveStop | poller/poller.go:93-94 | The turn on the closed stop channel ends run. |
| Poller.Poller.StartInvocation | poller/poller.go:124-132 | Acquired exactly if the poller is open and idle; no other invocation is then active. |
| Poller.Poller.SourcePolled | poller/poller.go:119 | source.Poll returns in the one invocation that is running. |
| Poller.Poller.FinishInvocation | poller/poller.go:134-137 | Leaves no invocation active. |
| Poller.Poller.BroadcastIdle | poller/poller.go:138 | A broadcast leaves no Close asleep. |
| Poller.Poller.Close | poller/poller.go:50-71 | Close sleeps, and cancels, exactly if an invocation runs. |
| Poller.Poller.Awake | poller/poller.go:69-73 | source.Close follows only when no invocation is active. |
| Poller.Poller.EndClose | poller/poller.go:73-74 | source.Close returns, the only time it is called, and the mutex is given back. |
| ValueSink.SinkIsFold | valuesink/sink.go:107-132 | For any updates, waits and closes, the sink is a fold: the last success's value and timestamp without error, or without a value the last update's timestamp and error. |
| ValueSink.HoldsLastValueExactly | valuesink/sink.go:12-14 | The sink holds the last value that is not nil if and only if no success with a nil value has come since one. |
| ValueSink.NilSuccessEmpties | valuesink/sink.go:115-119 | A run in which a nil success empties the sink and the next waiter blocks. |
| ValueSink.ReleasedByFirstUpdateOrClose | valuesink/sink.go:84-92 | A waiter's WaitGroup is done, once, if and only if an Update or Close follows its registration. |
| ValueSink.ReadyWithoutValue | valuesink/sink.go:94-102 | After a release WaitReady returns nil without a value if and only if the sink is open and its last update was a nil value without error. |
| ValueSink.WaitersAreTold | valuesink/sink.go:94-102 | A released waiter gets nil with a value; without one the error of the last update; without that ErrClosed exactly on a closed sink. |
| ValueSink.NilSuccessReleases | valuesink/sink.go:94-102 | A run in which a nil success releases a waiter, and WaitReady returns nil without a value. |
| ValueSink.Sink.constructor | valuesink/sink.go:18-25 | The zero value is the initial state. |
| ValueSink.Sink.CloseSink | valuesink/sink.go:28-41 | Close is its step and leaves no WaitGroup pending. |
| ValueSink.Sink.BeginWait | valuesink/sink.go:71-90 | A caller waits exactly if there is no value and the sink is open, and then on the current WaitGroup. |
| ValueSink.Sink.Receive | valuesink/sink.go:107-132 | Update is its step and releases whoever waits. |
| ManifestCursor.ReadSomeThenEnd | manifest/cursor.go:50-106 | Streaming equals batch: up to n Reads and then End return the first n matching records, and leave the statistics of the whole manifest and of its matching part. |
| ManifestCursor.ManifestStats | manifest/manifest.go:56-71 | Fails exactly if the manifest does not open or the decoder fails; otherwise both statistics are those of the batch. |
| ManifestCursor.Cursor.Read | manifest/cursor.go:50-73 | Returns the next matching record after skipping the others; or the end, or that the cursor is closed, with a zero record; or the decoder's error with the partial record. |
| ManifestCursor.Cursor.End | manifest/cursor.go:84-106 | Reads on to the end, which is no error, or to the decoder's first error. |
| ManifestCursor.Cursor.Process | manifest/cursor.go:134-141 | Extends the total by the record, and the filtered statistics exactly if it matches. |
| ManifestCursor.Cursor.Close | manifest/cursor.go:118-127 | Closes the reader once, returns its error then and nil later, and keeps the statistics. |
| ManifestCursor.Add | manifest/stats.go:19-36 | Adding a record to a list's statistics gives those of the longer list: count, int64 sum, earliest and latest time. |
| ManifestCursor.SummaryIsUnique | manifest/stats.go:11-16 | A list has only one summary, so `Summarizes` determines the statistics. |
| ManifestCursor.TotalAdds | manifest/stats.go:23 | Total adds up the sizes. |
| ManifestCursor.WrapIs | manifest/stats.go:13 | The sum wraps to the int64 that it is modulo 2^64, and is itself when it fits. |
| ManifestCursor.ResolvedFields | manifest/cursor.go:64-67 | A known partner gets its host and distinguished name, and nothing else changes. |
| ManifestCursor.MatchingParts | manifest/cursor.go:59-72 | The matching records of a list are those of its parts, in order. |
| ManifestCursor.RecordsParts | manifest/cursor.go:59-67 | So are the records. |
| ManifestCursor.MatchingPrefix | manifest/cursor.go:59-72 | The matching records of a prefix are a prefix of the matching records. |
| ManifestFilter.SelectNonNil | manifest/mfilter/boolean.go:55-66 | The loop keeps the filters that are not nil, in order. |
| ManifestFilter.AndMeans | manifest/mfilter/boolean.go:12-25 | And matches if and only if every filter does, a nil one always. |
| ManifestFilter.OrMeans | manifest/mfilter/boolean.go:32-45 | Or matches if and only if some filter that is not nil does, or there is none. |
| ManifestFilter.NilExactly | manifest/mfilter/boolean.go:12-35 | And and Or return nil if and only if no filter is given that is not nil. |
| ManifestFilter.AndFlattens | manifest/mfilter/boolean.go:12-25 | And(And xs, And ys) matches as And(xs ++ ys). |
| ManifestFilter.OrFlattens | manifest/mfilter/boolean.go:32-45 | Or(Or xs, Or ys) matches as Or(xs ++ ys), empty and nil lists included. |
| ManifestFilter.DeMorganAnd | manifest/mfilter/boolean.go:48-52 | Not of And is Or of Nots if and only if the list is not empty. |
| ManifestFilter.DeMorganOr | manifest/mfilter/boolean.go:48-52 | Not of Or is And of Nots at a resource if and only if the list is not empty and has no nil filter or its Or matches there. |

## Left out

- Real durations and scheduler fairness: the clock is a parameter that never falls, and progress theorems say that a continuation exists, not that the scheduler takes it.
- Data races outside the locks: `append` copies a listener struct in one step, and spawning the deliveries of a `send` or `cancel` is one step with its locked section, since their delivery may be delayed at will.
- `backlog.Folders` and the call statistics that `compute` fills in, and the early returns of `Poll` before it broadcasts: they touch none of the shared state.
- Start, end and duration times of an update: only the WaitGroups that guard them are kept.
- Cache.Cache.ReadValueOf: does not model that a writer waiting for the lock holds up new readers.
- CacheCleaner.NothingIsLost: counts every release, whether or not the value implements Release or Close.
- Endpoint.Endpoint.AttemptEnds: an attempt does not return ErrClosed, nor can it in the source: that error comes only from calls on a closed reporter or client, and an attempt only makes new ones (helper/endpoint.go:438-460).
- EndpointTheorems.WhoChangesErr: for the same reason has no case for an attempt that returns ErrClosed.
- Endpoint.Endpoint.StartCall: takes the outcome of the Unresponsive test as an argument, because the durations in the call tracker are not modelled.
- ManifestCursor.Add: Entries is unbounded; the int64 sum wraps as in Go.
- ManifestCursor.Cursor.Read: the decoder is a list of records and errors with a read position, and the resolver an arbitrary function.
- Manifest XML decoding, the file system and the Summary string: standard-library parsing and formatting.
- `helper/client.go`, `helper/cacher.go`, `helper/limiter.go`, `helper/reporter.go`, `helper/api`, `versionvector`: delegation to COM and to a worker pool; a reporter is a number here.
- `monitor/monitor.go`, `dfsrconfig/domainmonitor.go`: shells around the poller, the sink and the broadcaster.
- `dfsrconfig`, `dname`, `membercache`, `cmd`, `svc`: directory access, user interface and services.
- `manifest/mfilter/regexp.go`, `manifest/mfilter/time.go`: single comparisons, which the filter laws already cover as arbitrary filters.
