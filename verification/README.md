# Pype

Pype is a rendezvous server with a blocking client library. Clients put requests on named
service queues, services pull them and post their responses to per-client queues, and a client
collects its responses by id from one unordered stream. The server is single-threaded: what its
handlers do between two awaits is atomic, but a handler that waits on a queue holds a reference
to an entry that a logoff or the reaper may meanwhile remove and a later request create anew.

The project has four parts.

- The client (`Collect`, `CollectTheorems`, `Verdicts`, `Connection`, `Decimals`, `Deadlines`). `Connection`
  is the connection object with its cache, counter and loops. Each of its operations is proved
  to compute a function of `Collect` on the stream of answers to come, the clock and the cache;
  `CollectTheorems` holds what these functions promise, and `Verdicts` describes each call from the
  answers it consumes, the clock and the timeout alone. A stream is finite; its end stands for
  an answer that never comes, so unbounded waiting is covered by all finite prefixes.
- The server's objects (`Registries`, `Handlers`, `Reaper`, over the values of `Store`). Queues,
  entries, the two registries and the reaper are classes with the fields of the original. In
  `Handlers` each await-free stretch of a router, and each tick of the reaper, is a method proved
  to take one step of `Protocol`.
- The protocol (`Protocol`, `Frames`, `LifeCycle`, `CrossClient`, `CrossService`, `Orphans`, `Reach`,
  `Grants`, `Seen`, `ServerBudget`, `Answers`, `Outcomes`, `Conservation`, `ConservationTheorems`, `ClientRuns`, `Backlog`). A transition system whose steps are those stretches,
  ticks of the reaper, the passing of time and the arrival of replies. Entries are known by
  reference, not by id. Time does not pass a blocked handler's deadline, and an operation with
  timeout 0 resolves before anything else moves. Its theorems are about all runs. `ClientRuns`
  proves the client's operations to be honest runs of it, so that the theorems reach the caller;
  `Backlog` counts the polls of a call against the responses that the server holds.
- The sweep (`Sweeping`, `SweepBounds`, `SweepTheorems`, `SweepRuns`, `LateSweep`, `SweepTime`). Runs of reaper ticks over a
  registry that anything may change in between, and the ticks of runs of the whole system.

All times are real numbers of milliseconds. `Inv`, `Attended`, `AllPosted` and `Accounted` are the
invariants every step keeps; `Legal`, `Exec`, `IsRun` and `Reached` are runs from a state and
from the start.

Where code and documentation disagree, the model follows the code:

- The reaper's docstring promises a sweep within the target regardless of registry size. The
  batch is recomputed from the shrinking registry, so this holds only under the condition of
  `SweepTheorems.TargetAlwaysMetIff`; `AllStaleRun` is the family of counterexamples, and
  `LateSweep.LateSweepRun` makes each of them a run of the whole system. These count the ticks
  that fit into the target. Against the clock the condition is that of
  `SweepTime.TargetMetInTimeIff`, and by `SweepTime.SweepLateByAnyTime` no time is enough for
  every registry.
- `get_response_quorum` says its result has between `quorum` and all ids. `QuorumSize` says when
  it has exactly `quorum`. Its argument check counts repeated ids, which makes some calls
  impossible to satisfy (`QuorumAttainableIffEnoughDistinctIds`).
- The bump before the enqueue is said to keep the reaper from evicting mid-call. It does so exactly
  under the conditions of `PollsNeverOrphanedIff` and `AwaitsNeverOrphanedIff`; what counts for a
  single waiter is the wait it was granted (`Grants.PollKeepsItsEntryIff`, `PhaseKeepsItsEntryIff`).
- A response that is accepted need not reach a client that is waiting for it: a POST puts on the
  entry it fetched before reading its body. `Reach.PutReachesGetterIff` says when it does.

## Model

| member | source | states |
|---|---|---|
| CollectTheorems.AllIsGetEach | client/src/pype_client/pype_client.py:279-292 | With no timeout and a stream of distinct, uncached ids, `get_all_responses` on any listing of the ids equals `get_response` on each in turn: same map, same polls sent, same clock, same cache left; if the stream raises or ends, both raise or wait at the same point. |
| CollectTheorems.GetOneThenRest | client/src/pype_client/pype_client.py:237-261 | Waiting for one id and then for the rest is waiting for all of them, over the same stream. |
| CollectTheorems.PopCachedFirst | client/src/pype_client/pype_client.py:245-248 | Popping an id that is already cached and dropping it from the wanted set changes nothing else in the result. |
| CollectTheorems.CallIsSendThenGet | client/src/pype_client/pype_client.py:179-233 | With timeout None and a freshly minted id, `call` over a match, a mismatch or a 202 returns what `send_request` followed by `get_response` returns on the same order of responses, leaves the same cache, ends at the same time and sends one poll less. |
| Connection.CallVersusSendThenGet | client/src/pype_client/pype_client.py:115-261 | The same on the connection objects: the three operations run on two equal connections, with timeout None and the responses in the same order, give equal results and leave equal connections that have used the same answers. |
| CollectTheorems.GetReturnsIffItsResponseComes | client/src/pype_client/pype_client.py:245-261 | With no timeout and no failing answer `get_response` returns exactly when its response is cached or some poll brings it, however many 204s come between; otherwise it has used every answer and still waits. |
| CollectTheorems.NextIdIsFresh | client/src/pype_client/pype_client.py:401-403 | If everything cached answers a request of this connection, the next minted id is not cached. |
| CollectTheorems.PollsKeepMinted | client/src/pype_client/pype_client.py:250-261 | Polling only answers to own requests keeps the cache within the minted ids. |
| CollectTheorems.ShortestPrefix | client/src/pype_client/pype_client.py:314-334 | The collect loop consumes the shortest prefix of the stream that satisfies its condition, caches exactly that prefix, and returns if and only if the condition holds of the cache it leaves. |
| CollectTheorems.UnboundedLoopReturnsIffEverMet | client/src/pype_client/pype_client.py:314-334 | With no timeout and no failing answer the loop returns exactly when some prefix of the stream satisfies the condition, whatever 204s come between; otherwise it has consumed everything and still waits. |
| CollectTheorems.QuorumLoopStopsExactly | client/src/pype_client/pype_client.py:294-310 | If fewer than the quorum were cached, the loop stops with exactly that many wanted ids in the cache. |
| CollectTheorems.QuorumSize | client/src/pype_client/pype_client.py:294-310 | The result has exactly `quorum` entries if fewer were cached at the start; otherwise the call returns at once, without polling, with every cached match. |
| CollectTheorems.AnyIsQuorumOne | client/src/pype_client/pype_client.py:263-277 | `get_any_responses` is the quorum call at 1, for every stream, deadline and cache. |
| CollectTheorems.AllIsFullQuorum | client/src/pype_client/pype_client.py:279-292 | `get_all_responses` is the quorum call at the number of distinct ids. |
| CollectTheorems.QuorumAttainableIffEnoughDistinctIds | client/src/pype_client/pype_client.py:302-310 | The argument check counts arguments. Some stream lets the call return if and only if the quorum is at most the number of distinct ids; above it none does, with or without a timeout. |
| CollectTheorems.NothingIsLost | client/src/pype_client/pype_client.py:314-334 | A collect call that does not return leaves the old cache overwritten by exactly the responses polled; one that returns splits that same cache into the result and the rest. |
| CollectTheorems.GetLosesNothing | client/src/pype_client/pype_client.py:245-261 | The same for `get_response`: its own response is the only one kept out of the cache. |
| CollectTheorems.LoopKeepsDeadline | client/src/pype_client/pype_client.py:325-345 | A collect call that starts by its deadline never waits past it, and every timeout it sends lies between zero and its whole budget. |
| CollectTheorems.GetLoopKeepsDeadline | client/src/pype_client/pype_client.py:250-261 | The same for the loop of `get_response`. |
| CollectTheorems.CallKeepsTimeout | client/src/pype_client/pype_client.py:183-233 | The POST of `call` and every poll of its fallback together take at most the caller's timeout; the timeout sent with the POST is the whole of it. |
| Verdicts.GetLoopVerdict | client/src/pype_client/pype_client.py:250-261 | The loop of `get_response`, from the answers it consumes, the clock and the deadline alone: without a deadline no poll sends a timeout, with one each poll sends the whole milliseconds left when it starts; a failed answer is raised as it is, a 204 with a deadline and a deadline overdue by a millisecond are timeouts, its own response is returned, and it is left waiting only when the answers run out. |
| Verdicts.LoopVerdict | client/src/pype_client/pype_client.py:314-334 | The same for the shared loop of the collect calls, which returns by its condition on what has been cached. |
| Verdicts.GetVerdict | client/src/pype_client/pype_client.py:237-261 | `get_response`: a cached response is popped without a poll; otherwise GetLoopVerdict with the caller's timeout. |
| Verdicts.GatherVerdict | client/src/pype_client/pype_client.py:263-334 | The any-, all- and quorum-calls: LoopVerdict with the caller's timeout. |
| Verdicts.CallVerdict | client/src/pype_client/pype_client.py:179-233 | `call`, from the answer to its POST: 503 is a timeout and any other failure is raised as it is, nothing polled; its own response is returned; otherwise it goes on as `get_response` up to the caller's deadline, cut to whole milliseconds once. |
| Verdicts.PostTimeoutIsCallers | client/src/pype_client/pype_client.py:183-191 | The POST of `call` is sent the caller's timeout, 0 for a negative one, and none for None. |
| Verdicts.FailedPostEndsBoth | client/src/pype_client/pype_client.py:129-204 | A POST that fails ends `call` and `send_request` alike. |
| Connection.FailedCallVersusSend | client/src/pype_client/pype_client.py:129-204 | The same on the connection objects: both raise the timeout or the error of the POST, and nothing is polled. |
| Connection.SendAndGet | client/src/pype_client/pype_client.py:115-261 | `send_request` followed by `get_response` on one connection computes Collect.SendThenGet; a 200 to the POST is an error. |
| CollectTheorems.BacklogBound | client/src/pype_client/pype_client.py:324-334 | With a finite timeout, a collect call ends at the first poll that finds nothing: if that is the n+1st, after at most n + 1 polls, and it is not left waiting. |
| CollectTheorems.GetBacklogBound | client/src/pype_client/pype_client.py:250-261 | The same for `get_response`. |
| Deadlines.PollMayStartIffOverdueByLessThanOneMs | client/src/pype_client/pype_client.py:429-434 | Because the remaining time is truncated toward zero, a poll may start exactly while the deadline is overdue by less than one millisecond; the truncated budget never exceeds the time left. |
| Decimals.DecimalIsInjective | client/src/pype_client/pype_client.py:401-403 | `str` of the counter never yields the same id twice. |
| Decimals.DecimalReadsBack | client/src/pype_client/pype_client.py:401-403 | The numeral of n reads back as n, consists of digits and has no leading zero. |
| Connection.ClientConnection.MintRequestId | client/src/pype_client/pype_client.py:401-403 | The counter goes up by one, and the id differs from every id minted before. |
| Connection.ClientConnection.SendRequest | client/src/pype_client/pype_client.py:129-145 | The caller's timeout goes out with the POST; closed, 202, 503, any other failure and an unexpected 200 each have their own outcome; an id is minted unless the connection is closed. |
| Connection.ClientConnection.CallService | client/src/pype_client/pype_client.py:179-233 | A refused POST raises TimedOut and a failed one its own error, with nothing polled or cached; otherwise outcome, new cache, polls consumed, timeouts sent and clock are those of Collect.Call; the POST carries the caller's timeout, never negative. |
| Connection.ClientConnection.GetResponse | client/src/pype_client/pype_client.py:245-261 | A closed connection raises and changes nothing; a cached response is popped without a poll; otherwise every poll carries the milliseconds left, and the outcome is the one that the answers consumed and the clock give (Ended), as Collect.Get computes it. |
| Connection.ClientConnection.PollFor | client/src/pype_client/pype_client.py:250-261 | The `while True` loop of `get_response` computes Collect.GetLoop, which Verdicts.GetLoopVerdict describes from the answers alone. |
| Connection.ClientConnection.GetAnyResponses | client/src/pype_client/pype_client.py:268-277 | Closed or without ids it raises and changes nothing; otherwise it ends as the answers, the clock and its condition on the cache say (Ended), with the result and cache of Collect.Gather. |
| Connection.ClientConnection.GetAllResponses | client/src/pype_client/pype_client.py:283-292 | The all-call computes Collect.Gather with its condition, with the same error cases. |
| Connection.ClientConnection.GetResponseQuorum | client/src/pype_client/pype_client.py:299-310 | The quorum call computes Collect.Gather; a quorum below 1 or above the number of arguments raises and changes nothing. |
| Connection.ClientConnection.PollUntil | client/src/pype_client/pype_client.py:322-334 | The `while True` loop of `_loop_until` computes Collect.LoopUntil, which Verdicts.LoopVerdict describes from the answers alone. |
| Connection.ClientConnection.PollOne | client/src/pype_client/pype_client.py:341-364 | A negative budget raises without sending; otherwise one answer is consumed and the budget sent is recorded. |
| Connection.ClientConnection.PopMatching | client/src/pype_client/pype_client.py:366-371 | The result is the cache restricted to the wanted ids, and the cache left is the rest. |
| Deadlines.NormalizeTimeout | server/src/pype_server/queueing.py:9-16 | Refused exactly when a timeout is given outside [0, max]; otherwise the given one, and the maximum when none is given. |
| Deadlines.GrantedWaitEndsByDeadline | server/src/pype_server/routers/services.py:104-111 | A wait granted by the clamped budget ends by the deadline, or at once when it has passed, and less than one millisecond before it otherwise. |
| ServerBudget.BothPhasesWithinTimeout | server/src/pype_server/routers/services.py:67-91 | However a run goes on after the body of a POST has been read, the POST is answered within the caller's timeout, both phases included. |
| ServerBudget.DeadlineStays | server/src/pype_server/routers/services.py:67-91 | While a POST is in its phases, no step, its own or another, changes its deadline. |
| Answers.WaitIsKept | server/src/pype_server/queueing.py:19-47 | Every wait of the server, over any run: it does not go on past its time, and it is answered "nothing there" or "no room" only when its time is up. |
| Answers.PollAnswered | server/src/pype_server/routers/clients.py:70-94 | A GET is answered by the time it asked for: with a response for its client, or with 204 and then not before that time. |
| Answers.PullAnswered | server/src/pype_server/routers/services.py:129-144 | A pull is answered by the time it asked for: with a request, or with 204 and then not before that time. |
| Answers.ResponsePostAnswered | server/src/pype_server/routers/clients.py:44-52 | The POST of a response is answered within its timeout from the moment its body was read: with 202, or with 503 and then not before that time. |
| Answers.RequestPostAnswered | server/src/pype_server/routers/services.py:67-101 | The POST of a request, from the moment its body was read: both phases end by its timeout; 503 comes at that time, 202 with block=1 less than a millisecond before it, a response only with block=1 and for its own client. |
| Answers.PollAtOnce | server/src/pype_server/queueing.py:37-41 | A GET with timeout 0 is answered before anything else happens: with the head of its queue, or with 204 exactly if that is empty. |
| Answers.PullAtOnce | server/src/pype_server/queueing.py:37-41 | The same for a pull. |
| Answers.ResponsePostAtOnce | server/src/pype_server/queueing.py:19-26 | A POST of a response with timeout 0 is accepted at once, or refused exactly if the queue it holds is full. |
| Answers.RequestPostAtOnce | server/src/pype_server/queueing.py:19-26 | The same for a POST of a request without block=1. |
| Outcomes.RequestPostTold | server/src/pype_server/routers/services.py:72-101 | In an honest run the POST of a request is told 503 only if the request was never accepted, and 202 or a response only if it was. |
| Outcomes.ResponsePostTold | server/src/pype_server/routers/clients.py:49-52 | In an honest run the POST of a response is told 202 if and only if the response was put on the queue it held, where it is or further on its way, and 503 if and only if it is dropped. |
| Outcomes.StepTokens | server/src/pype_server/routers/services.py:72-85 | Only a put accepts a request, exactly its own, and only a refused POST drops a response. |
| Registries.AsyncQueue.PutNowait | server/src/pype_server/queueing.py:21-26 | Fails exactly when the queue is full; otherwise the item goes to the end of contents and history. |
| Registries.AsyncQueue.GetNowait | server/src/pype_server/queueing.py:39-43 | Nothing exactly when the queue is empty; otherwise the head moves from the contents to the taken history. |
| Registries.ServiceRegistry.GetOrCreate | server/src/pype_server/registries.py:20-26 | Returns the queue of the name; an existing queue is never replaced. |
| Registries.ServiceRegistry.OneQueueMoved | server/src/pype_server/queueing.py:19-47 | A put or get on one service queue leaves all others and the registry as they were. |
| Registries.ServiceRegistry.SnapshotLoads | server/src/pype_server/registries.py:28-29 | Each reported load is what was ever put minus what was ever taken. |
| Registries.ClientRegistry.GetOrCreate | server/src/pype_server/registries.py:51-65 | Returns the registered entry, or appends and registers a new one with an empty queue; no other entry changes. |
| Registries.ClientRegistry.Get | server/src/pype_server/registries.py:67-68 | Present exactly when registered, and then the entry of the reference the store gives. |
| Registries.ClientRegistry.Remove | server/src/pype_server/registries.py:70-71 | Unregisters the id; the entry object lives on, detached. |
| Registries.ClientRegistry.BumpLastSeen | server/src/pype_server/registries.py:73-76 | Overwrites `last_seen` of the entry registered now, and nothing when there is none. |
| Registries.ClientRegistry.SnapshotKeys | server/src/pype_server/registries.py:78-79 | Lists each registered id exactly once. |
| Registries.ClientRegistry.Len | server/src/pype_server/registries.py:81-82 | The number of registered ids. |
| Registries.ClientRegistry.OneQueueMoved | server/src/pype_server/queueing.py:19-47 | A put or get on the queue of one entry, registered or detached, leaves every other entry as it was. |
| Registries.SnapshotOfOneLess | server/src/pype_server/registries.py:70-71 | Popping a key from the insertion order leaves a listing of the remaining keys, each once. |
| Store.CreateEvolves | server/src/pype_server/registries.py:51-65 | Creation keeps every entry, its client and history, never re-registers a detached one, and keeps bounds and clocks. |
| Store.BumpEvolves | server/src/pype_server/registries.py:73-76 | The same for a bump. |
| Store.RemoveEvolves | server/src/pype_server/registries.py:70-71 | The same for removals. |
| Store.PutEvolves | server/src/pype_server/queueing.py:19-34 | The same for a put that finds room. |
| Store.TakeEvolves | server/src/pype_server/queueing.py:37-47 | The same for a get that finds an item. |
| Handlers.Routers.StartPoll | server/src/pype_server/routers/clients.py:70-82 | Over the registry objects, the GET up to its wait takes the step DoPollResponses: a foreign id is refused, a timeout exactly when it is out of range; otherwise it waits on the entry registered now, created and bumped, for the timeout asked for, or the maximum. |
| Handlers.Routers.FinishPoll | server/src/pype_server/routers/clients.py:82-94 | The end of the wait replies 204, or the head of the queue of the entry held since the start, which it takes; it bumps by id. |
| Handlers.Routers.StartPostResponse | server/src/pype_server/routers/clients.py:40-48 | The POST of a response fetches the entry before it reads its body, without a bump; its timeout is refused exactly when out of range, and otherwise kept. |
| Handlers.Routers.FinishPostResponse | server/src/pype_server/routers/clients.py:49-52 | The put goes to the entry held, registered or not, and the reply is 202; without room it is 503 and nothing changes. |
| Handlers.Routers.StartPostRequest | server/src/pype_server/routers/services.py:51-59 | The POST of a request creates and bumps its client, then refuses its timeout exactly when it is out of range, and otherwise keeps it. |
| Handlers.Routers.FindService | server/src/pype_server/routers/services.py:67-72 | The queue of the name, created when missing; every queue object of the registry stays the one it was. |
| Handlers.Routers.Enqueue | server/src/pype_server/routers/services.py:67-72 | After the body, one deadline is set for both phases; phase 1 waits on the queue of the service, created when missing, for the whole timeout; the queue objects of all services stay. |
| Handlers.Routers.FinishEnqueue | server/src/pype_server/routers/services.py:72-91 | A bump either way; then 503 without room; after the put 202, or with block=1 a second wait for what is left of the same deadline. |
| Handlers.Routers.FinishAwait | server/src/pype_server/routers/services.py:91-101 | Phase 2 replies the head of the entry held since the start, whatever its request id, or 202. |
| Handlers.Routers.StartPull | server/src/pype_server/routers/services.py:129-134 | Role check, timeout check, and only then the queue of the service, on which it waits for the timeout asked for, or the maximum; the queue objects of all services stay. |
| Handlers.Routers.FinishPull | server/src/pype_server/routers/services.py:134-144 | The head of the service queue goes out, or 204. |
| Handlers.Routers.Logoff | server/src/pype_server/routers/auth.py:69-73 | Logoff unregisters the entry and leaves its queue to those who hold it. |
| Handlers.Routers.ReaperTick | server/src/pype_server/reaper.py:51-73 | A tick of the reaper object takes the step DoReap over the registry it shares with the handlers, and moves its cursor as that step does. |
| Protocol.StepKeepsInv | server/src/pype_server/registries.py:32-82 | Every step of handlers, reaper, clock and wire keeps queue bounds and histories, references and clocks of all entries, and every blocked handler within its deadline. |
| Orphans.PollsNeverOrphanedIff | server/src/pype_server/routers/clients.py:76-86 | In every run without a logoff a blocked GET waits on the entry registered for its id, if and only if the inactivity threshold is at least the maximum timeout. |
| Orphans.OrphaningRun | server/src/pype_server/config.py:78-106 | For every timeout over the threshold, a run in which a tick evicts the entry a poll is waiting on. |
| Orphans.AwaitsNeverOrphanedIff | server/src/pype_server/routers/services.py:51-91 | The second phase of block=1 of every POST that takes at most w to its put waits on the entry registered for its client, in every run without a logoff, if and only if w is at most the threshold and the threshold at least the maximum timeout. |
| Orphans.PromptSecondPhaseNotOrphaned | server/src/pype_server/routers/services.py:51-91 | One half of it: with such a threshold, a second phase that begins within the threshold is not orphaned. |
| Orphans.SlowBodyOrphansSecondPhase | server/src/pype_server/routers/services.py:51-91 | For every configuration and every delay over the threshold, a run without a logoff in which a body that slow leaves the second phase on a detached entry. |
| Orphans.LongSecondPhaseRun | server/src/pype_server/routers/services.py:74-91 | For every timeout over the threshold, a run in which a prompt POST is orphaned during its second phase. |
| Grants.PollKeepsItsEntryIff | server/src/pype_server/routers/clients.py:76-86 | For every configuration and every accepted timeout: a GET, whatever state it starts in and whatever happens then, keeps the entry registered for its client as long as that client does not log off after its start, if and only if the wait granted is at most the threshold. |
| Grants.PhaseKeepsItsEntryIff | server/src/pype_server/routers/services.py:86-101 | The same for a second phase that starts on the registered entry, by what is left of its deadline then. |
| Grants.SafeStaysInRun | server/src/pype_server/routers/clients.py:76-94 | The invariant of a single waiting getter behind both: its entry stays registered and recent enough for the time its wait has left. |
| Reach.PutReachesGetterIff | server/src/pype_server/routers/clients.py:40-52 | A POST of a response starts, the run goes on, and at its put a getter of the same client waits on the entry registered then: the response reaches that getter's queue if and only if the client was registered all the time in between. |
| Reach.PostAfterGetterReachesIt | server/src/pype_server/routers/clients.py:40-86 | So a response whose POST starts while a poll waits, or a second phase that began within the threshold, reaches the queue it waits on, with a threshold of at least the maximum timeout and without a logoff. |
| Reach.PostStarts | server/src/pype_server/routers/clients.py:40-43 | The POST of a response holds the entry registered for its client, which is the entry of every getter that waits on its registered one. |
| Reach.EarlierPostMissesGetter | server/src/pype_server/routers/clients.py:40-52 | For every configuration and every time that the POST takes from start to put, even none: a run without a logoff in which a POST that started before the poll is accepted, and its response lies in a detached queue while the poll waits on an empty one. |
| Reach.RegisteredIffStays | server/src/pype_server/registries.py:51-71 | An entry is registered at the end of a run exactly when its client was registered in every state of it. |
| Reach.HandlerStaysInRun | server/src/pype_server/routers/clients.py:40-86 | A POST of a response keeps its entry and response, and a waiting getter stays as it is, as long as they last. |
| Frames.StepClock | server/src/pype_server/reaper.py:51-73 | Only time passing moves the clock, only a tick the cursor, only a POST to a client the record of posts, and only a client's own steps its cache and what it returned. |
| Orphans.StepStaysAlive | server/src/pype_server/reaper.py:61-71 | Only the client's own logoff or a tick over the threshold unregisters an entry, and no step makes it less recently seen. |
| Seen.StepSeen | server/src/pype_server/registries.py:51-76 | When a client was last seen changes exactly so: a GET or a POST to a service makes it now when it starts, and again when the GET or the put ends if the client is registered then; a response posted to it counts only if that creates its entry; logoff and eviction end it. |
| Seen.SeenEntryStays | server/src/pype_server/reaper.py:69-71 | In every run without a logoff of its client, an entry stays registered for at least the threshold after the client was last seen. |
| Orphans.ReapStaysAlive | server/src/pype_server/reaper.py:69-71 | A tick spares every entry seen within the threshold. |
| Orphans.StepKeepsAttended | server/src/pype_server/routers/services.py:51-91 | The step invariant behind both guarantees, over every handler of a client that does not log off. |
| LifeCycle.EntriesOnlyAge | server/src/pype_server/registries.py:51-71 | Over any run a reference goes from uncreated to registered to detached and never back; client, histories and service queues are only extended; no two registered entries are of one client. |
| LifeCycle.QueueHistory | server/src/pype_server/queueing.py:19-47 | In every reachable state, of every queue: what was put is what was taken followed by the contents, within the maximum. |
| LifeCycle.DetachedOnlyToOldHolders | server/src/pype_server/routers/auth.py:65-73 | From a detached queue only handlers that held its reference before can take, each at most once; without one it is stranded for good. |
| LifeCycle.TakenOnlyByTakers | server/src/pype_server/routers/clients.py:82-94 | A step takes from an entry exactly when it ends the wait of a handler holding that entry, and then one item. |
| CrossClient.NoCrossClientDelivery | server/src/pype_server/routers/clients.py:40-94 | In any run, even with services that answer wrongly, every response taken for a client, by GET or by block=1, was posted to that client. |
| CrossClient.StepKeepsPosted | server/src/pype_server/routers/clients.py:40-94 | The step invariant behind it, over queues, handlers and replies. |
| CrossService.NoCrossServiceDelivery | server/src/pype_server/routers/services.py:132-144 | In any run, what a pull hands out was posted to its own service, under the same ids and with the same content. |
| CrossService.StepQueues | server/src/pype_server/routers/services.py:70-72 | A service queue changes only by the put of a POST to that service and by a pull from it. |
| ConservationTheorems.DeliveredAnswersOwnRequest | client/src/pype_client/service_client.py:123-159 | With services that answer by the headers they received, every response taken for a client answers a request that client had enqueued. |
| ConservationTheorems.EveryRequestInExactlyOnePlace | server/src/pype_server/routers/services.py:51-101 | In every state an honest run reaches, each accepted request is in exactly one place: a service queue, in transit, in a service's hands, a pending put, an entry's queue, in transit back, a cache, the caller's hands, or dropped; no other request is anywhere. |
| ConservationTheorems.StepKeepsAccounted | server/src/pype_server/routers/services.py:51-101 | Every honest step moves at most one request, forward, and moves no other. |
| ConservationTheorems.RequestsOnlyMoveOn | server/src/pype_server/routers/services.py:51-101 | A request's place only moves on along an honest run; with the caller or dropped it stays. |
| ClientRuns.RunIsReplay | client/src/pype_client/pype_client.py:206-261 | Any run does to a client's cache and to what it has returned exactly what the client's own events do, whatever happens around them. |
| ClientRuns.GetHasARun | client/src/pype_client/pype_client.py:245-261 | `get_response` on responses on the wire is an honest run of the protocol whose events for the client are exactly those of `get_response`: a pop if the response is cached, otherwise the polled responses, each to the caller exactly if it is the one waited for and to the cache if not; the cache left and what is returned are those of Collect.Get. |
| ClientRuns.GatherHasARun | client/src/pype_client/pype_client.py:314-371 | So are the any-, all- and quorum-calls: the events of the run are that every polled response goes to the cache, and then that exactly the wanted ones that are cached are popped, if the loop has returned. |
| ClientRuns.CallHasARun | client/src/pype_client/pype_client.py:206-233 | So is `call`: the event of the response its POST brings, if any, and then those of `get_response` for the time left. |
| ClientRuns.GetIsARun | client/src/pype_client/pype_client.py:245-261 | In every run in which the client does what `get_response` does, with anything else in between, cache and returned responses are those of Collect.Get. |
| ClientRuns.GatherIsARun | client/src/pype_client/pype_client.py:314-371 | The same for the collect calls. |
| ClientRuns.CallIsARun | client/src/pype_client/pype_client.py:206-233 | The same for `call`. |
| ClientRuns.NeverReturnedTwice | client/src/pype_client/pype_client.py:245-261 | In an honest run, once a response has been returned to its caller no `get_response` for the same id returns again. |
| ClientRuns.NeverGatheredTwice | client/src/pype_client/pype_client.py:314-371 | Nor does any any-, all- or quorum-call return a response with that id again. |
| ClientRuns.NeverCalledTwice | client/src/pype_client/pype_client.py:206-233 | Nor does `call` for that id, whatever its POST brings. |
| ClientRuns.ReturnedIsWithCaller | client/src/pype_client/pype_client.py:206-261 | In an honest run, what a call has returned answers an accepted request, and is with its caller and nowhere else. |
| Backlog.ArrivalsUseUpBacklog | server/src/pype_server/routers/clients.py:70-94 | In every run: the responses that arrive at a client, and those still waiting for it at the end on the queues of its entries or on the wire, are as many as waited at the start and were put meanwhile. |
| Backlog.StepBacklog | server/src/pype_server/routers/clients.py:49-94 | Every step changes what waits for a client by the response it puts for it or that arrives, and by nothing else: evictions, logoffs and timeouts lose none. |
| Backlog.LoopPollsBring | client/src/pype_client/pype_client.py:324-334 | With a finite timeout every poll of a collect call but the last brings a response. |
| Backlog.GetPollsWithinBacklog | client/src/pype_client/pype_client.py:250-261 | In any run, a `get_response` with a timeout polls at most once more than responses wait for its client at the start or are put for it meanwhile; with n waiting and none put, at most n + 1 times. |
| Backlog.GatherPollsWithinBacklog | client/src/pype_client/pype_client.py:314-334 | The same for the any-, all- and quorum-calls. |
| Backlog.CallPollsWithinBacklog | client/src/pype_client/pype_client.py:206-233 | The same for `call`, besides its POST. |
| Conservation.PutRequestMoves | server/src/pype_server/routers/services.py:72-85 | An enqueued request is on its service queue and nowhere else. |
| Conservation.TakeRequestMoves | server/src/pype_server/routers/services.py:132-144 | A pulled request leaves its queue for the service. |
| Conservation.PostResponseMoves | server/src/pype_server/routers/clients.py:40-49 | An answer leaves the service's hands for a pending put, or is dropped when its timeout is refused. |
| Conservation.PutResponseMoves | server/src/pype_server/routers/clients.py:49-52 | A put that succeeds moves the answer into the queue of the entry held. |
| Conservation.RefuseResponseMoves | server/src/pype_server/routers/clients.py:49-51 | A 503 drops the answer: neither server nor client keeps it. |
| Conservation.TakeResponseMoves | server/src/pype_server/routers/clients.py:82-94 | A taken response leaves its entry for the client. |
| Conservation.CollectResponseMoves | client/src/pype_client/pype_client.py:259-261 | A response that arrives goes to the caller or to the cache, not both; ClientRuns says which. |
| Sweeping.CeilDivIsCeiling | server/src/pype_server/reaper.py:48-48 | The batch arithmetic is the ceiling of a division. |
| Sweeping.BatchIsLeast | server/src/pype_server/reaper.py:47-49 | The batch is no smaller than the minimum, covers the registry in one target's worth of ticks, and is the least such number. |
| Sweeping.TicksPerSweepIffFits | server/src/pype_server/reaper.py:47-47 | The number of ticks a sweep is planned for is the only t of at least 1 such that t periods fit into the target (or t is 1) and t + 1 do not. |
| Sweeping.BatchIsLeastInTarget | server/src/pype_server/reaper.py:42-49 | The batch is the least, not below the minimum, that covers the registry in as many ticks as fit into the target. |
| Reaper.ClientQueueReaper.EffectiveBatchSize | server/src/pype_server/reaper.py:42-49 | The least batch, not below the minimum, with which as many ticks as fit into the target, one each period, would cover the registry as it is at this tick. |
| Reaper.ClientQueueReaper.EvictStale | server/src/pype_server/reaper.py:64-71 | The loop, which looks entries up one by one while it removes others, evicts exactly the keys stale when it started. |
| Reaper.ClientQueueReaper.Tick | server/src/pype_server/reaper.py:51-73 | A tick moves the cursor as Sweeping says, removes exactly the stale examined entries, and returns the drop in registry size. |
| SweepTheorems.FinishesIffNothingLeft | server/src/pype_server/reaper.py:54-73 | The cursor reaches the end of its snapshot within k ticks exactly when the batches of those ticks cover it. |
| SweepTheorems.TargetAlwaysMetIff | server/src/pype_server/reaper.py:14-24 | Counted in the ticks that fit into the target (Sweeping.TicksPerSweepIffFits): a sweep takes no more of them, whatever the registry does, if and only if that is one tick or the snapshot has at most one key more than ticks * min_batch. |
| SweepTime.TargetMetInTimeIff | server/src/pype_server/reaper.py:14-24 | Against the clock, with one tick each period: a sweep of n keys takes no longer from its first tick to its last than the target, whatever the registry does, if and only if the target is shorter than a period or n <= ceil(n / p) + p * min_batch for the p whole periods of the target. |
| SweepTheorems.AllStaleRun | server/src/pype_server/reaper.py:47-72 | For every larger registry, a run of one tick each period, with nothing but stale entries and evictions, that misses the target. |
| LateSweep.LateSweepRun | server/src/pype_server/reaper.py:47-73 | The same as a run of the whole system: n clients poll once and are never seen again, only ticks and time follow, one tick each period, and after the ticks of a whole target the sweep is not over and a client stale from the first tick on is still registered. |
| SweepTime.SweepLateByAnyTime | server/src/pype_server/reaper.py:14-24 | With a target of at least two periods no time is enough: for every d, and every number of clients from some number on, a run of the system with one tick each period, in which the first sweep takes longer than d and a client stale all the time is still registered. |
| LateSweep.QuietRunIsARun | server/src/pype_server/reaper.py:51-73 | Every run of ticks in which only the reaper touches the registry is a run of the system with exactly these ticks. |
| SweepTheorems.UnfinishedSweepLeavesAKey | server/src/pype_server/reaper.py:54-73 | If only the reaper removes entries, the last key of the snapshot is registered until the sweep is over. |
| SweepTheorems.SteadySweepMeetsTarget | server/src/pype_server/reaper.py:47-49 | The target is met if no tick finds the registry smaller than the snapshot. |
| SweepTime.SteadySweepInTime | server/src/pype_server/reaper.py:47-49 | Against the clock: with one tick each period and no tick that finds the registry smaller than the snapshot, the sweep is over one period before the target, or at its first tick. |
| SweepTheorems.SweepAlwaysEnds | server/src/pype_server/reaper.py:42-73 | In any case a sweep of n keys ends within ceil(n / min_batch) ticks. |
| SweepTheorems.SweepDecay | server/src/pype_server/reaper.py:42-73 | If only the reaper removes entries, after k ticks unexamined * t^k <= n * (t-1)^k. |
| SweepTheorems.SweepEndsAfterDecay | server/src/pype_server/reaper.py:42-73 | So a sweep ends one target after the decay has brought it down to t minimum batches. |
| SweepTime.SweepEndsAfterDecayInTime | server/src/pype_server/reaper.py:42-73 | Against the clock: within the k periods of the decay and one target. |
| SweepTime.InTimeIffWithin | server/src/pype_server/reaper.py:51-92 | With one tick each period, being over within d means being over within one tick more than d has whole periods. |
| SweepTheorems.EachKeyExaminedOnce | server/src/pype_server/reaper.py:64-72 | Each snapshot key is examined by exactly one tick of the sweep, and evicted there exactly when an entry is then present, recreated or not, whose own `last_seen` is over the threshold. |
| SweepTheorems.SweepEvicts | server/src/pype_server/reaper.py:54-73 | A whole sweep finds absent or evicts every key that is over the threshold whenever it is registered. |
| SweepTheorems.EventualEviction | server/src/pype_server/reaper.py:54-73 | Wherever the current sweep stands, a key that is over the threshold whenever it is registered is found absent or evicted by some tick of the sweep after it, however much is created, bumped or removed between the ticks. |
| SweepTheorems.NextRefresh | server/src/pype_server/reaper.py:54-56 | The current sweep ends within ceil(left / min_batch) ticks. |
| SweepTheorems.NextSweepEnds | server/src/pype_server/reaper.py:54-73 | The next one ends within ceil(n / min_batch) ticks for the n keys of its snapshot. |
| SweepRuns.TicksAreARun | server/src/pype_server/reaper.py:51-73 | The ticks of any run of the system are a run of the sweep and move the reaper's cursor as the sweep says. |
| SweepRuns.StaleEntryIsDetached | server/src/pype_server/reaper.py:54-73 | In every run of the system, an entry, by reference, that has passed the threshold and is never bumped again is detached by the end of the sweep after the current one. |
| SweepRuns.StaleEntryIsDetachedAfter | server/src/pype_server/reaper.py:54-73 | The same by the number of ticks: after the current sweep, as many as the minimum batch needs for the keys registered then. |
| SweepRuns.StaleEntryIsDetachedInTime | server/src/pype_server/reaper.py:54-73 | The same by time, with one tick each period: from the first tick of the next sweep, one period less than those ticks take. |
| SweepBounds.Decay | server/src/pype_server/reaper.py:47-49 | The arithmetic of the decay, for any batches that each take a t-th part of what is left. |
| SweepBounds.ShrinkingSweepIsLate | server/src/pype_server/reaper.py:47-49 | The arithmetic of the missed target, for all minimum batches, t >= 2 and n >= t * min_batch + 2. |

## Left out

- FastAPI routing, HTTP parsing and error wrapping: a request arrives and a reply is delivered, or the stream says it failed. A lost reply breaks conservation, and the code has no answer to that.
- JWTs and the randomness of ids: the claimed id or name is a parameter, and client ids are distinct.
- asyncio's wake-up order and the cancellation of waits: any waiting handler may be served next, and a wait may end without an item at its deadline even if one has just arrived.
- A blocked wait of the server is a state of the protocol, not a suspended method: `Handlers` has the stretches before and after it. The stretch of a POST to a client between its body and its put changes no store and has no method; it is the step DoAnswer.
- CollectTheorems.AllIsGetEach: assumes distinct response ids not already cached; a service that answers twice overwrites the cached response.
- ConservationTheorems.EveryRequestInExactlyOnePlace: assumes services that answer each pulled request at most once with its own ids, clients that do not reuse ids, and reliable HTTP. A response accepted into a detached entry counts as being in that entry; `LifeCycle.DetachedOnlyToOldHolders` says who can still take it.
- Content types and payloads are carried and never looked at; payload decoding and the default content type are not modelled.
- Floating-point clock error: clocks are exact, with truncation toward zero and the clamp at zero kept.
- The HTTP logoff sent by `close`, which is best effort: on the server it is the step Logoff.
- Configuration loading, IP detection, logging, the demo and the task that runs the reaper.
