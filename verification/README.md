# ARF verification project

ARF is a Rust workspace for running language-model agents: nodes talk over a broadcast bus, an engine drives a ReAct
loop over it, a tool executor runs sets of dependent calls, and a backend layer presents several file stores as one
tree. This project models those four parts in Dafny and proves what they promise.

`dafny verify dfyconfig.toml` checks everything.

## What is modelled

**Tool executor** (`Dag`, `Kahn`, `Executor`). `Dag` says what a set of calls means as a graph, without reference to
any algorithm: chains, cycles, and the round in which a call settles. `Kahn` is the imperative code: the recursive
cycle search over its two mutable sets, the in-degree map, the dependents map and the layer queue. `Executor` runs
the layers and cascades cancellation. A tool is an arbitrary function from a call to success, error, panic or
timeout; since every statement quantifies over all such functions, a tool that answers differently the next time is
covered too. The order inside a layer is arbitrary. The in-degrees and the dependents are those of any set of calls,
and so is the sorting into layers, which ends without a result where a count would fall below zero. What each call
is owed is stated for distinct ids; what holds for any ids is stated beside it.

**File stores** (`Paths`, `Glob`, `StateStore`, `Composite`, `CompositeBackends`). Path normal form, the glob
matcher against a declarative meaning, the in-memory store, and the refinement: a tree of stores on distinct
prefixes answers every run of read, write, edit and search like one flat map, provided no operation names a mount
point. The proviso is exact: on every mount point but the root some run tells the two apart, because the code hands
the mount point itself to the child untranslated. A child's write and edit answers name the child's own path;
`FromOutside` translates them, and nothing else, before they are compared.

**Bus** (`Messages`, `Bus`, `Delivery`, `Barriers`). `Bus` has the message loop as a class whose every branch is
proved to be a step of a relation on states, and the properties of all runs of that relation. `Delivery` is the
transition system of rings, forwarding tasks, inbound channels and a node handle, with every interleaving of their
steps. A ring may overwrite what a slow task has not read; the positions skipped are recorded as gaps and the main
invariant is an equation: received, queued and held messages are exactly the wanted ones outside the gaps.
`Barriers` has one barrier's collection of acknowledgements, and the runs of any number of barriers over one log.

**Engine** (`Conversation`, `Histories`, `SoundHistories`, `Runs`, `RunLaws`, `TurnLaws`, `RunTheorems`, `Stages`,
`Cancels`, `Strays`, `Budgets`, `Leaks`, `Waits`, `Checkpoints`, `Restarts`, `Sessions`, `Engines`, `Outbox`,
`Dedup`, `Discovery`, `Registry`). `Engines` is the mutable engine: the ReAct loop with its waiting, permission
gating, checkpoints and cancellation, the session's log file, the duplicate memory and the discovery cache. Each of
its methods is proved to compute a function of `Runs`, whose arguments are the state and an explicit environment:
the messages still to come and the processors that fail on them, the look at the cancellation token from which on it
is set, and the outcome of each send, each write to the log file, each checkpoint and each middleware call. So every
statement about a run is a statement about its inputs. The engine runs on an asynchronous runtime, as its code
requires; there a blocking lock panics, and `Panicked` is the outcome of a run that unwinds.

`Histories` says what an engine did, act by act. Writing a line to the log file takes two acts, its text and its
end, and a process can stop between any two acts, also in the middle of a text. `SoundHistories` says which
histories are sound and what holds of every part of one; `RunLaws` and `TurnLaws` prove that every piece of a run
keeps its history sound and its wait events in balance with the waits that ended badly; `Stages` says which
checkpoints a run consults, and what it does between which, `Cancels` what a cancellation does; `RunTheorems`,
`Strays`, `Budgets`, `Restarts` and `Sessions` draw the conclusions, and `Leaks` has the runs that show what does
not hold.

Functions and predicates that the modelled code calls are compiled, those that only say what it means are ghost;
what a compiled one computes is said by a lemma in ghost terms.

Uuids are natural numbers drawn in rising order, which is all that freshness is used for; an application may bring
its own ids and reuse them. A message's correlation id is a field of its own; the payload holds the other fields.
Times are natural numbers. Payloads are a small JSON type.

## What does not hold, and exactly when it does

- A path equal to a mount point breaks the refinement (`Composite.MountPointTells`, for every one but the root); on
  all other paths it holds (`Composite.CompositeIsFlat`).
- A child backend answers a write or an edit under its own path. The composite's own answer is the flat map's iff
  the operation is a read or a search, or its path routes to the default store or to a child mounted at "/"
  (`Composite.RawAnswerIff`, over runs `Composite.RunRawIff`).
- A node that keeps up still loses what is broadcast between its announcement and its subscription
  (`Delivery.LostBeforeSubscribing`); it has everything since its announcement iff nothing wanted was broadcast
  there (`Delivery.NothingSinceOnlineIff`).
- A message of a type not awaited never reaches the handlers: on the way to them the wait takes a lock with a
  blocking call, which panics on an asynchronous runtime, and the wait event stays registered. A wait panics iff it
  takes such a message and that is no duplicate reply (`Waits.WaitPanicsIff`), a run iff one of its waits does
  (`RunTheorems.PanicsIffUntimely`; `Leaks.PanicHappens` is one). An engine whose model asks for no tools is safe if
  nothing but answers and duplicate replies comes (`Strays.WelcomeIsTimely`, `Strays.WelcomeRunRestores`).
- A run that ends Stopped or with a bus error can leave a wait event registered, because a batch of tool calls goes
  on after an error and one error is reported (`Leaks.BusErrorHappens`, `Leaks.StoppedHappens`). It leaves none iff
  no processor failed and no wait found the handle closed (`RunTheorems.RestoredIff`). A caller is safe whose
  processors do not fail, who cancels before the messages run out, whose store does not fail, and to whom no message
  comes out of turn (`RunTheorems.CarefulRunRestores`); none of the four conditions can be dropped (`Leaks`).
- The turn budget compares the counter modulo 2^32. It holds while the counter and what the messages to come can add
  to it stay below that (`Budgets.BudgetHolds`); at 2^32 a run has its whole budget again (`Budgets.WrappedBudget`).
  From a counter at or above the limit a run begins a model turn iff the counter modulo 2^32 is below it and nothing
  else stops the run before (`Budgets.OverspentIff`).
- A node handle can report its channels closed with a message left in one, when a task pushes and ends between the
  try of the channel and the look whether it is closed (`Delivery.ClosedWithMessageLeft`); nothing is left iff no
  task does (`Delivery.ClosedLeavesNothingIff`).
- A process that stops between an event's text and the end of its line leaves a line that swallows the next record:
  that one is written and its message sent, with success, and neither is found after a restart
  (`Restarts.CrashTakesNextRecord`). A record is found iff the last line had ended when it was written
  (`Restarts.CommandIsFoundIff`); the whole file reads back as written iff no event shares its line
  (`Histories.ReadsBackIffClean`).
- A first send that reuses an id breaks the order of that id's attempts, on which the two stores' agreement rests,
  and nothing else does (`SoundHistories.RisesIffSentAnewOnce`, `Outbox.StoresAgree`).
- A handoff stays in the outbox until a reply with its id is recorded, and the human's answer is not recorded as
  one, so an answered handoff is sent again after a restart (`Restarts.HandoffStaysPending`).
- A resent message keeps its payload iff that payload is one its type serialises to (`Outbox.ReconstructKeeps`);
  entries of any other type are counted but never resent.
- A second declared resource on the same MCP node replaces the first one's filter; all owned tools are offered to
  the model iff no resource that offers something is followed by another on its node (`Registry.OwnedIsOfferedIff`).
- The discovery cache is filled from a snapshot of the graph taken earlier. Its routes are current iff every
  snapshot it was filled from since the last change heard still selects the same nodes
  (`Discovery.AgreesIffSnapshotsDo`). So it can be stale before a change is announced or heard
  (`Discovery.StaleUntilHeard`), after a lookup was overtaken by a change (`Discovery.StaleAfterOvertaking`), and
  for good after the listener's first lag (`Discovery.StaleAfterLag`); with every change heard and no lookup
  overtaken it is not (`Discovery.SettledAgrees`).
- A lagging barrier listener ends its barrier before the deadline (`Barriers.LagEndsCollection`).
- Nothing checks that the calls of a set have different ids. A count falls below zero, in a set whose ids can be
  ordered at all, iff some id that waits for nothing is carried by two calls and a call waits for it
  (`Kahn.KahnSort`; `Executor.RepeatedRootHappens` is one). Otherwise the order of dependencies is kept, but for a
  repeated id the first call with it is run for all of them (`Executor.Execute`).
- Deleting "/" removes nothing below it (`StateStore.DeleteRootMissesChildren`).
- Reading drops a final newline and carriage returns before newlines (`StateStore.ReadsBackIff`).

## Model

| member | source | states |
|---|---|---|
| Executor.Execute | crates/arf-mcp/src/executor.rs:15-114 | for every call set: one result per call in input order, under the call's id, each what the tool of the first call with that id did, value, timeout or failure, or a cancellation; an invalid set starts nothing and answers every call with an error; a valid one that can be ordered fails, for a count below zero, iff it has a repeated root that some call waits for. With distinct ids every result is the one its call is owed, and tools start only for due calls, after all their blockers, which all succeeded |
| Executor.OwedAnswersCall | crates/arf-mcp/src/executor.rs:94-108 | the result at position i carries call i's id and tool; it reports success, with what the tool returned, iff every call of a lower layer succeeds and so does the call itself; a call in a deeper layer than the first failure is reported cancelled |
| Executor.DependenciesCameFirst | crates/arf-mcp/src/executor.rs:54-92 | every transitive `blocked_by` dependency of a started tool was started earlier and succeeded |
| Executor.SuccessIsClosed | crates/arf-mcp/src/executor.rs:54-92 | a reported success implies a reported success of every transitive dependency |
| Executor.ValidateBidirectionalLock | crates/arf-mcp/src/executor.rs:205-222 | no error iff whenever a lists b under `blocking` and b exists, b lists a under `blocked_by`; otherwise one error result per call |
| Executor.ExecuteOne | crates/arf-mcp/src/executor.rs:118-203 | the answer to one call, for every tool: success with value v iff the tool exists, returned v and did not exceed the timeout; cancelled as "timeout" iff one is set and exceeded; else an error with the failure's message, "panic: " and its text, or "tool not found: " and the name |
| Executor.ReportsIff | crates/arf-mcp/src/executor.rs:118-203 | of an answer to one call: it is a success with v iff the tool returned v in time, cancelled iff it was late, an error iff the tool is missing or failed in time |
| Executor.RunLayer | crates/arf-mcp/src/executor.rs:55-71 | starts one tool per entry of the layer, in any order, and yields each entry's own outcome |
| Executor.Record | crates/arf-mcp/src/executor.rs:73-85 | stores every result of a layer and reports a failure iff one of them is not a success |
| Executor.RunLayers | crates/arf-mcp/src/executor.rs:51-92 | stops after the first layer with a failure and cascades from it; unless there is a repeated root no tool starts before all that its calls wait for has started and succeeded; with distinct ids the table gives every call what it is owed |
| Executor.CancelBlocked | crates/arf-mcp/src/executor.rs:358-396 | one expansion step: adds exactly the missing entries of what a failed call blocks, changes none, and names that call as the upstream |
| Executor.CascadeCancel | crates/arf-mcp/src/executor.rs:358-396 | terminates; existing entries stay; each added entry is cancelled, names a direct upstream that is itself no success, and is reached by a walk along `blocking` from an original failure; nothing reachable is left without an entry |
| Executor.CascadeIsExact | crates/arf-mcp/src/executor.rs:358-396 | after a failing layer, an entry is added for exactly the ids downstream of a failing call, and none of them was due to run |
| Executor.Assemble | crates/arf-mcp/src/executor.rs:94-108 | a call without an entry is reported cancelled |
| Executor.RepeatedRootHappens | crates/arf-mcp/src/executor.rs:304-353 | a set that passes every check and can be ordered, but has a repeated root that a call waits for |
| Kahn.BuildInDegree | crates/arf-mcp/src/executor.rs:226-233 | each count adds up the `blocked_by` entries of all calls with that id, repeats included; for distinct ids it is the number of entries still open when nothing is done |
| Kahn.CycleSearch.DfsCycle | crates/arf-mcp/src/executor.rs:271-296 | recursion ends because every call visits a new id; a cycle is reported only if there is one, and a search that reports none leaves all it visited acyclic |
| Kahn.DetectCycle | crates/arf-mcp/src/executor.rs:239-267 | no problem reported iff every `blocked_by` id exists and the relation has no cycle |
| Kahn.BuildDependents | crates/arf-mcp/src/executor.rs:304-353 | the reverse map lists x under b as often as all calls with id x list b |
| Kahn.Release | crates/arf-mcp/src/executor.rs:304-353 | takes one off a count for each time an id is listed as waiting, and queues those whose count reaches zero; it stops, without going below zero, only if there is a repeated root |
| Kahn.ReleaseLayer | crates/arf-mcp/src/executor.rs:304-353 | draining one layer takes exactly its nodes off the counts and queues exactly the ids whose count reaches zero, once each; it stops only for a repeated root |
| Kahn.OverdrawnIsRepeated | crates/arf-mcp/src/executor.rs:304-353 | if more would be taken from a count than it holds, some listed id without entries was queued twice |
| Kahn.RepeatedIsNotDrained | crates/arf-mcp/src/executor.rs:304-353 | a set that can be ordered is not drained to the end if it has a repeated root |
| Kahn.QueueIsReady | crates/arf-mcp/src/executor.rs:304-353 | without a repeated root, whatever waits in the queue has all its blockers, of all calls with its id, behind it |
| Kahn.DrainedIsAtLayer | crates/arf-mcp/src/executor.rs:304-353 | with distinct ids the queue between two layers is, without repeats, the next round of settling ids |
| Kahn.KahnSort | crates/arf-mcp/src/executor.rs:304-353 | for every call set: a count falls below zero only if some id without entries is carried by two calls and listed in some `blocked_by`, and iff so if the calls can be ordered; otherwise each layer waits only for layers before it, and all ids of an orderable set are in some layer. For distinct ids layer n lists, without repeats, exactly the ids that settle in round n |
| Dag.TopologicalMeansAcyclic | crates/arf-mcp/src/executor.rs:235-267 | an order of all ids that puts blockers first rules out a cycle |
| Dag.AcyclicSettles | crates/arf-mcp/src/executor.rs:300-353 | without cycles every id settles within as many rounds as there are ids |
| Dag.LayersPartition | crates/arf-mcp/src/executor.rs:300-353 | every call sits in exactly one layer |
| Dag.LayerEquation | crates/arf-mcp/src/executor.rs:300-353 | layer 0 are the calls without blockers; a call is in layer n+1 iff all its blockers are in layers up to n and one is in layer n |
| Dag.LayerIsLongestChain | crates/arf-mcp/src/executor.rs:300-353 | a call's layer is the length of the longest chain of blockers hanging off it |
| Paths.New | crates/arf-backend/src/path.rs:32-81 | accepts and normalises exactly as the specification function does |
| Paths.RejectedIff | crates/arf-backend/src/path.rs:32-81 | a raw path is refused iff it is empty, holds a NUL or a backslash, or has a ".." segment; what is kept are valid segments of the input |
| Paths.NormalizeIdempotent | crates/arf-backend/src/path.rs:32-81 | normalising a normal path gives it back; the non-empty, non-"." segments are kept in order |
| Paths.RenderRoundTrip | crates/arf-backend/src/path.rs:32-81 | rendering a list of valid segments and splitting the result gives the list back |
| Paths.NormalIsRender | crates/arf-backend/src/path.rs:32-81 | a normal path is the rendering of its segments, so it is determined by them |
| Paths.AncestorIsSegmentPrefix | crates/arf-backend/src/path.rs:90-97 | `is_ancestor_of` on normal paths is exactly "segment list is a prefix" |
| Paths.AncestorsFormChain | crates/arf-backend/src/path.rs:90-97 | of two ancestors of one path, one is an ancestor of the other |
| Paths.TranslateSegments | crates/arf-backend/src/path.rs:100-104 | translating a path strictly below a prefix drops exactly the prefix's segments |
| Paths.RebuildTranslate | crates/arf-backend/src/composite.rs:279-286 | rebuilding a translated path gives back every path strictly below the prefix |
| Paths.TranslateRebuild | crates/arf-backend/src/composite.rs:279-286 | translating a rebuilt path gives back every non-root child path |
| Paths.MountPointDoesNotRoundTrip | crates/arf-backend/src/composite.rs:60-65 | a concrete prefix that is passed on untranslated and so rebuilds to another path |
| Glob.GlobIsExact | crates/arf-backend/src/state.rs:356-383 | the matcher holds iff the path splits along the pattern's tokens: "**" any run, "*" a run without "/", "?" one byte, else the byte itself |
| StateStore.UniqueReplacement | crates/arf-backend/src/state.rs:177-221 | on a text with at most one occurrence, replacing all and replacing the first are the same edit |
| StateStore.ReplaceCuts | crates/arf-backend/src/state.rs:177-221 | replacing all joins, by the new text, the pieces that the old text joins; no match starts inside a piece; an empty old text stands before each character and at the end |
| StateStore.CutsOnce | crates/arf-backend/src/state.rs:177-221 | there is one way only to cut a text like that |
| StateStore.DeleteIsSubtree | crates/arf-backend/src/state.rs:223-246 | for a path other than the root, delete removes exactly the files the path is an ancestor of |
| StateStore.DeleteRootMissesChildren | crates/arf-backend/src/state.rs:223-246 | deleting the root removes nothing below it and fails unless the root itself is a file |
| StateStore.ListingIsBelow | crates/arf-backend/src/state.rs:93-124 | a key is listed under a directory iff it is another path that has the directory's segments as a prefix |
| StateStore.ReadsBackIff | crates/arf-backend/src/state.rs:126-175 | a written file reads back unchanged iff it has no final newline and no carriage return before a newline |
| StateStore.PagesJoin | crates/arf-backend/src/state.rs:126-156 | two consecutive pages joined by a line break are the page over both |
| StateStore.LinesCut | crates/arf-backend/src/state.rs:126-156 | the lines of a text are its pieces between line ends, each without a carriage return right before the end; the last piece is a line, as it is, unless it is empty |
| StateStore.ReplaceLength | crates/arf-backend/src/state.rs:177-221 | replacing all trades each counted occurrence of the old text for one of the new |
| StateStore.StateBackend.Read | crates/arf-backend/src/state.rs:126-156 | an error iff the file is missing; else the requested page of its lines with its stamps, and the whole text, asked for from the start without limit, iff that text is lossless |
| StateStore.StateBackend.Write | crates/arf-backend/src/state.rs:158-175 | only this path changes: the text and the modification time are new, the creation time is kept, or set on the first rewrite |
| StateStore.StateBackend.Edit | crates/arf-backend/src/state.rs:177-221 | on success the old text is cut at each leftmost match, the new text is the same pieces with the new string between them, only this path changes, and the count is of the matches; without replace-all there was exactly one; a failure changes nothing and says why |
| StateStore.StateBackend.Delete | crates/arf-backend/src/state.rs:223-246 | removes the path and all it is an ancestor of, of the root only the root itself, changes nothing else, and fails iff there was nothing to remove |
| StateStore.StateBackend.Grep | crates/arf-backend/src/state.rs:276-309 | lists exactly once each line that holds the pattern, of each file whose path begins with the scope and splits along the filter |
| Composite.RouteIsLongest | crates/arf-backend/src/composite.rs:56-74 | the first match in the sorted list is the one mounted ancestor that all mounted ancestors of the path are ancestors of |
| Composite.RouteIgnoresMountOrder | crates/arf-backend/src/composite.rs:43-54 | two sorted lists of the same prefixes route every path to the same prefix |
| Composite.InsertRouteSorts | crates/arf-backend/src/composite.rs:43-54 | mounting keeps the routes sorted, longest first, and adds exactly the new one |
| Composite.StoreRepresents | crates/arf-backend/src/composite.rs:104-107 | storing through the composite keeps it representing the flat map with the same store |
| Composite.GrepRepresents | crates/arf-backend/src/composite.rs:167-205 | the merged matches of all stores are the matches of the flat map |
| Composite.StepRefines | crates/arf-backend/src/composite.rs:94-120 | one read, write, edit or search: same answer as the flat map once a child's path is read from outside, and the states still correspond |
| Composite.CompositeIsFlat | crates/arf-backend/src/composite.rs:43-205 | started empty, on distinct prefixes, every run of operations on paths that are no mount point is answered like the run on one flat map, a child's paths read from outside |
| Composite.MountPointTells | crates/arf-backend/src/composite.rs:60-65 | for every mount point but the root some run on that path is answered differently, so the condition of CompositeIsFlat is exact |
| Composite.RawAnswerIff | crates/arf-backend/src/composite.rs:94-120 | the composite's own answer is the flat map's iff the operation is a read or a search, or its path routes to the default store or to a child mounted at "/" |
| Composite.RunRawIff | crates/arf-backend/src/composite.rs:94-205 | a whole run is answered literally like the flat map's iff each of its operations is |
| CompositeBackends.CompositeBackend.WithRoute | crates/arf-backend/src/composite.rs:43-54 | inserts the route at its sorted place |
| CompositeBackends.CompositeBackend.Resolve | crates/arf-backend/src/composite.rs:56-74 | returns the routed backend and the translated path |
| CompositeBackends.CompositeBackend.Read | crates/arf-backend/src/composite.rs:94-102 | answers as the composite's step |
| CompositeBackends.CompositeBackend.Write | crates/arf-backend/src/composite.rs:104-107 | changes exactly the routed backend, as the composite's step |
| CompositeBackends.CompositeBackend.Edit | crates/arf-backend/src/composite.rs:109-120 | changes exactly the routed backend, as the composite's step |
| CompositeBackends.CompositeBackend.Grep | crates/arf-backend/src/composite.rs:167-205 | the merged list is, as a multiset, the flat map's matches |
| Bus.StepKeepsInStep | crates/arf-bus/src/lib.rs:408-494 | every command and every tick keeps: replaying the bus's own node_online and node_offline rebuilds the key set of the node map, and no id is announced online twice without an offline between |
| Bus.ReachableInStep | crates/arf-bus/src/lib.rs:394-562 | so in every reachable state |
| Bus.LastAckIsLatest | crates/arf-bus/src/lib.rs:475-481 | an online node's stored time is that of its latest registration or acknowledgement |
| Bus.TickRemovesExactlySilent | crates/arf-bus/src/heartbeat.rs:40-64 | a node survives a tick iff some sign of life is no older than the timeout; so right after a tick every remaining node acked in time |
| Bus.MessageLoop.HandleSend | crates/arf-bus/src/lib.rs:412-457 | refuses iff a directed message has no online target, naming the targets; otherwise broadcasts once, counts, and reports how many nodes are online and how many of the targets are, or for a broadcast how many nodes want it |
| Bus.MessageLoop.HandleConnect | crates/arf-bus/src/lib.rs:498-539 | refuses an id that is online; otherwise registers it with the current time and announces it |
| Bus.MessageLoop.HandleDisconnect | crates/arf-bus/src/lib.rs:542-562 | removes the id and announces it gone, also when it was not online |
| Bus.MessageLoop.HandleHeartbeatAck | crates/arf-bus/src/lib.rs:475-481 | moves the time of an online node, nothing else |
| Bus.MessageLoop.HandleHeartbeatTick | crates/arf-bus/src/heartbeat.rs:20-65 | announces the heartbeat, then removes and announces exactly the timed-out nodes, each once, in some order |
| Delivery.StepKeepsInv | crates/arf-bus/src/connection.rs:364-398 | every publish, subscription, read, lag, push and receive keeps: received + queued + held = what the forwarding task kept of the log it has read |
| Delivery.ConservedOutsideGaps | crates/arf-bus/src/connection.rs:364-398 | in every reachable state a lag is the only loss: received, queued and held messages are exactly the wanted ones outside the lagged-over positions, and the acks sent are the heartbeats there |
| Delivery.ReceivedInOrder | crates/arf-bus/src/connection.rs:219-258 | each subscription's part of what is received is its bus's log at strictly increasing positions after the node's own node_online; each message is of a type the filter names, if it names any, and addressed as the filter asks; none is a heartbeat |
| Delivery.KeepingUpLosesNothing | crates/arf-bus/src/connection.rs:364-398 | a forwarding task never further behind than the ring reaches, once caught up with an empty queue, has delivered every wanted message since it subscribed |
| Delivery.NothingSinceOnlineIff | crates/arf-bus/src/connection.rs:420-434 | such a handle received everything wanted since its own announcement iff nothing wanted was broadcast between the announcement and the subscription |
| Delivery.LostBeforeSubscribing | crates/arf-bus/src/connection.rs:420-434 | a run without any lag in which a message of that gap is never received |
| Delivery.KeepingUpLeavesNoGaps | crates/arf-bus/src/connection.rs:394-394 | such a forwarding task never skips a position |
| Delivery.ForwardTask | crates/arf-bus/src/connection.rs:364-398 | the loop forwards the wanted messages of what it received, in order, acks each heartbeat, and ends at the first Closed or when the handle is dropped |
| Delivery.StepMayBecome | crates/arf-bus/src/connection.rs:364-398 | what other tasks do between two polls keeps the handle's history and only extends its queues |
| Delivery.NodeHandle.Poll | crates/arf-bus/src/connection.rs:264-282 | takes the first message of the first non-empty queue; reports Closed iff no forwarding task ran at the look at its channel, and then leaves nothing behind iff no task pushed between the try of its channel and that look; all while other tasks run between its polls |
| Delivery.ClosedLeavesNothingIff | crates/arf-bus/src/connection.rs:264-282 | a poll that reports Closed leaves no message iff none was pushed between a try and its look; so it leaves none if no task was running when it began |
| Delivery.ClosedWithMessageLeft | crates/arf-bus/src/connection.rs:264-282 | a whole run in which a task pushes and ends between the two, so that Closed is reported with a message left |
| Barriers.Barrier | crates/arf-bus/src/lib.rs:287-361 | acked and missing partition the participants, acked being exactly those with an ack carrying this id before the first failed wait; timed out iff someone is missing |
| Barriers.Undisturbed | crates/arf-bus/src/lib.rs:329-346 | dropping everything that is no ack with this id does not change who acknowledged |
| Barriers.AcksBelongToOneCall | crates/arf-bus/src/lib.rs:292-298 | in every run of any number of barriers on one log no ack counts for two barriers, and each counted ack was sent after its barrier's request |
| Barriers.CollectsItsStretch | crates/arf-bus/src/lib.rs:323-351 | a participant is acknowledged iff an ack of its is in the log between subscription and the end of the wait |
| Barriers.NothingMissingIff | crates/arf-bus/src/lib.rs:323-361 | nothing is missing, and the barrier did not time out, iff every participant's ack is in that stretch |
| Barriers.ReceiptsAreIndependent | crates/arf-bus/src/lib.rs:287-361 | the acks behind a finished barrier's receipt count for no other barrier of the run |
| Barriers.LagEndsCollection | crates/arf-bus/src/lib.rs:348-349 | a lagging listener ends the collection, and an ack already waiting goes unheard |
| Dedup.InboundDedupCache.CheckAndRecord | crates/arf-engine/src/dedup.rs:27-35 | true iff the id is among the last max(1, capacity) recorded; a hit changes nothing; the size never exceeds the capacity |
| Dedup.RecordedFarApart | crates/arf-engine/src/dedup.rs:27-35 | in every run equal recorded ids are more than max(1, capacity) places apart |
| Dedup.PassesFarApart | crates/arf-engine/src/dedup.rs:27-35 | between two passes of one id at least max(1, capacity) others passed, the first that many pairwise different and different from it |
| Dedup.HitDoesNotRefresh | crates/arf-engine/src/dedup.rs:27-35 | an id that was just hit can be evicted by the next new id |
| Discovery.DiscoveryCache.GetOrCompute | crates/arf-engine/src/checkpoint.rs:41-54 | answers a cached entry as it is; otherwise computes, stores and answers the matches in graph order |
| Discovery.DiscoveryCache.ResolveRoute | crates/arf-engine/src/checkpoint.rs:87-96 | answers from the cache, or else from the snapshot and fills the cache; on a cache current for the snapshot the answer is the uncached one |
| Discovery.DiscoveryCache.Listen | crates/arf-engine/src/engine.rs:126-130 | empties the cache on each lifecycle message and ends for good at the first failed receive |
| Discovery.RecipientsAreTheMatches | crates/arf-engine/src/checkpoint.rs:99-117 | the uncached resolution lists the ids of exactly the nodes whose capabilities hold every required text, in graph order |
| Discovery.CoherentIffAgrees | crates/arf-engine/src/checkpoint.rs:87-108 | a cache answers all routes like the uncached resolution iff all its entries are current |
| Discovery.AgreesIffSnapshotsDo | crates/arf-engine/src/engine.rs:532-535 | at every moment of every run of graph changes, announcements, invalidations, snapshots and fillings: each route resolves as without a cache iff each snapshot the cache was filled from since the last message heard selects what the graph does now |
| Discovery.SettledAgrees | crates/arf-engine/src/engine.rs:532-535 | so once the listener has heard of every change each route resolves as without a cache, provided no lookup was overtaken between its snapshot and its filling |
| Discovery.StaleAfterOvertaking | crates/arf-engine/src/engine.rs:532-535 | the race: snapshot, departure, announcement heard, filling; everything heard, and a route still resolves to the node that left |
| Discovery.StaleUntilHeard | crates/arf-engine/src/checkpoint.rs:23-62 | an entry is stale while the change is not announced, and while it is announced but unread |
| Discovery.EntriesOutliveListener | crates/arf-engine/src/engine.rs:126-130 | after the listener has ended, an entry never changes again |
| Discovery.StaleAfterLag | crates/arf-engine/src/engine.rs:126-130 | so after one lag a route can resolve to a node that has left, with every change announced and no lookup overtaken |
| Discovery.Evaluate | crates/arf-engine/src/checkpoint.rs:120-153 | the loop builds, for any cache and snapshot, one message for each rule of this trigger that fires, in order, to the ids its route names, those cached for it, or else those of the matches; or it names the first type without a route |
| Discovery.EvaluatedMeans | crates/arf-engine/src/checkpoint.rs:120-153 | succeeds iff every fired rule's type is routed, with one message per fired rule, in order, each to what the cache answered before or else to the snapshot's matches; otherwise names the first unrouted type |
| Discovery.FiredInOrder | crates/arf-engine/src/checkpoint.rs:120-153 | the fired rules are those of this trigger that fire, all of them and in order |
| Discovery.CurrentCacheRoutesPurely | crates/arf-engine/src/checkpoint.rs:120-153 | on a cache current for the snapshot every message goes to the snapshot's matches |
| Registry.ParseDeclaredFilter | crates/arf-engine/src/registry.rs:316-359 | everything iff "all" stands as a value or in a list of tools or skills; otherwise exactly the non-empty names of both lists, or nothing if there are none |
| Registry.ResolveModel | crates/arf-engine/src/registry.rs:255-314 | the first model node of the provider that lists the model or no models at all, if there is one; otherwise the error says whether the provider matched |
| Registry.BoundIsChosen | crates/arf-engine/src/registry.rs:86-125 | a resource gets the first node of its type that has one of the names it asks for, if it asks for names |
| Registry.IndexTools | crates/arf-engine/src/registry.rs:86-111 | fails iff an accepted name is already taken or repeated; otherwise indexes every accepted name |
| Registry.OccurrencesTaken | crates/arf-engine/src/registry.rs:86-111 | the names entered are exactly those taken, each from one place: a resource, and a tool of the node it gets |
| Registry.UnambiguousIff | crates/arf-engine/src/registry.rs:86-111 | names are unambiguous iff none is taken at two places |
| Registry.Build | crates/arf-engine/src/registry.rs:48-125 | succeeds iff some node serves the model, every resource suits some node, and no accepted tool name is taken at two places; a failure names the first resource to blame. A node is bound under the name and filter of the last resource that gets it, and a tool is owned by the node some resource takes it from |
| Registry.OwnerIff | crates/arf-engine/src/registry.rs:133-135 | n owns t iff some mcp resource gets n, accepts t, and n lists t |
| Registry.ToolsForModel | crates/arf-engine/src/registry.rs:138-166 | the concatenation, in some order of the mcp nodes, of each node's accepted tools |
| Registry.AdvertisedPlaces | crates/arf-engine/src/registry.rs:138-166 | a node contributes the specs of its accepted tools, in order, with name, description and parameters as listed or their defaults |
| Registry.AdvertisedIsOwned | crates/arf-engine/src/registry.rs:138-166 | on an unchanged graph a tool that node n contributes is owned by n, which lists it |
| Registry.OfferedOnce | crates/arf-engine/src/registry.rs:138-166 | on an unchanged graph no tool name is offered twice, whatever the order |
| Registry.OwnedIsOfferedIff | crates/arf-engine/src/registry.rs:112-112 | every owned tool is offered iff no mcp resource that offers something is followed by another mcp resource on the same node |
| Outbox.ReconstructKeeps | crates/arf-engine/src/message_reconstruct.rs:22-86 | a rebuilt message keeps type, id and targets; it keeps the payload iff that is one its type serialises to |
| Outbox.ReconstructFailsIff | crates/arf-engine/src/message_reconstruct.rs:22-86 | rebuilding fails iff the type is unknown or a required field is no string |
| Outbox.PendingFromFile | crates/arf-session/src/jsonl_store.rs:180-254 | one entry per id with a send and no reply, with the highest attempt and the last content, in order of the first record's time |
| Outbox.StoresAgree | crates/arf-session/src/lib.rs:881-937 | while an id's attempts rise, the database query and the file store derive the same entry for it |
| Conversation.EveryToolMessageIsPaired | crates/arf-engine/src/engine.rs:999-1166 | in a list of rounds each tool message answers a call of the last assistant message before it, at the place its position says |
| Conversation.EveryCallIsAnswered | crates/arf-engine/src/engine.rs:959-983 | in a list of rounds each call of each assistant message has its answer |
| Conversation.Need | crates/arf-core/src/wait_event.rs:9-18 | the least positive number of responses at which the strategy triggers |
| Conversation.CompletesOnce | crates/arf-engine/src/engine.rs:1354-1365 | whatever the input, at most one of its prefixes completes an event |
| Conversation.CompletesHarvests | crates/arf-engine/src/engine.rs:1354-1365 | a wait that completes took exactly as many responses as its strategy asks for, in order, all there were, the last of them last |
| Conversation.OthersNeverCount | crates/arf-engine/src/engine.rs:1299-1328 | a response with another id or type never counts, so a late one to an older event never satisfies a newer |
| Histories.ReadsBackIffClean | crates/arf-session/src/jsonl_store.rs:155-178 | the log file reads back as everything written iff no event shares its line with another piece of text |
| Histories.GluedEventsVanish | crates/arf-session/src/jsonl_store.rs:155-178 | an event written to a line that was not ended takes that line's event along: a reader finds neither |
| Histories.AnswerPlace | crates/arf-engine/src/engine.rs:1275-1366 | the answer to an id stands after the first message that used the id, and no other of its type and id was received between |
| Histories.LookupIsFirst | crates/arf-engine/src/engine.rs:985-996 | a tool's permission is that of its first entry by name; a tool without an entry is allowed |
| Histories.ParsedInOrder | crates/arf-engine/src/engine.rs:913-924 | the calls of a model answer stand at rising places of its list, each with the id, name, arguments and target of the item there; an item at no such place lacks one of them |
| Histories.ContentSaid | crates/arf-engine/src/engine.rs:900-912 | the text of an answer is the content of its message, or empty if that is no text |
| SoundHistories.CrashKeepsSound | crates/arf-engine/src/engine.rs:640-665 | cut at any act, also between an event's text and the end of its line, with or without torn text left behind, a sound history stays sound |
| SoundHistories.RecordedFirst | crates/arf-engine/src/engine.rs:632-665 | each peer message or handoff on the bus has its record at an earlier place of the history |
| SoundHistories.RisesIffSentAnewOnce | crates/arf-engine/src/engine.rs:640-665 | in the log of a sound history the attempts of an id rise strictly iff no first send reused the id |
| SoundHistories.ExecutionIsCleared | crates/arf-engine/src/engine.rs:1012-1065 | a tool execution goes to the call's own target, else the owner, else everyone, with the call's name and arguments; the tool's first entry, if it has one, says allow, or ask and the first response to this call's own request says allow: true |
| SoundHistories.RequestIsMeant | crates/arf-engine/src/engine.rs:1171-1214 | a permission request goes to everyone with the call's name, arguments and id, a model call to the model |
| SoundHistories.GrantsAreUsedOnce | crates/arf-engine/src/engine.rs:1171-1214 | one grant permits one execution |
| SoundHistories.MessageIsJustified | crates/arf-engine/src/engine.rs:1066-1166 | an assistant message says what the first model_response to its own call says, a tool message what the first tool_result to its own execution says, or that the call was denied, refused or cancelled |
| Waits.WaitIsShortest | crates/arf-engine/src/engine.rs:1268-1367 | success returns exactly the responses of an awaited type and the event's own id, as many as the strategy asks for, in the shortest stretch of input that holds them; a failure saw too few, or its processor failed on the last message taken; no message taken is of an unawaited type, duplicate replies aside, except the last one of a wait that panics |
| Waits.WaitPanicsIff | crates/arf-engine/src/engine.rs:234-247 | a wait panics, in the blocking lock on the way to the handlers, iff it takes a message of an unawaited type that is no duplicate reply |
| Waits.QueryAnswers | crates/arf-engine/src/engine.rs:565-607 | a query that succeeds took exactly one answer per recipient, or one, of the type that answers it and with its own id, in order, and nothing after the last |
| Waits.UnexpectedKeeps | crates/arf-engine/src/engine.rs:1299-1323 | the run survives a message of an unawaited type iff that is a reply already in the duplicate memory, where replies are looked up, and which then stays as it was |
| Waits.UnexpectedWrites | crates/arf-engine/src/engine.rs:755-792 | a reply nobody waits for goes on record, as it is, iff it has an id and is no duplicate |
| Waits.CountedWrites | crates/arf-engine/src/engine.rs:1344-1352 | a counted peer reply goes on record under its id and source, any other counted response does not |
| Waits.NoteWrites | crates/arf-engine/src/engine.rs:432-506 | a statistics event goes on record iff there is a store |
| RunLaws.WaitWent | crates/arf-engine/src/engine.rs:1340-1366 | success and cancellation unregister the event; a failing processor, a closed handle or a panic, and nothing else, leaves it; nothing is said or sent |
| RunLaws.WaitHears | crates/arf-engine/src/engine.rs:1268-1367 | what a successful wait returns first is the first answer to the id in the history |
| TurnLaws.SendAndAwaitLed | crates/arf-engine/src/engine.rs:1222-1257 | the result is the first answer to the request's own id, and the request was handed to the bus; wait events are left exactly by a failing processor, a closed handle or a panic |
| TurnLaws.PermissionLed | crates/arf-engine/src/engine.rs:1171-1214 | granted iff the first response to this very request says allow: true |
| TurnLaws.GateLed | crates/arf-engine/src/engine.rs:1012-1065 | a call passes only if its tool's first entry allows it, or there is none, or the entry asks and the first response to the call's own request grants it, for one execution; a denied or refused one gets one answer, and a result, that say so; a failed request changes no message |
| TurnLaws.ExecuteLed | crates/arf-engine/src/engine.rs:1066-1166 | success appends the answer of the first result, a cancellation the interruption, another failure nothing |
| TurnLaws.ToolTurnsLed | crates/arf-engine/src/engine.rs:959-983 | whatever fails short of a panic, every call is dealt with and counted as a turn unless it was cancelled; however the batch ends, the wait events left are as many as the waits that leave one; if nothing fails exactly one answer each is appended, in order |
| TurnLaws.QueryLed | crates/arf-engine/src/engine.rs:565-607 | a query leaves exactly its own event registered iff its record fails, its processor fails, the handle is closed or the run panics |
| TurnLaws.CommandLed | crates/arf-engine/src/engine.rs:614-630 | record, then send, for any id, also a reused one; nothing is handed to the bus if the record fails, else the message is; no wait event changes |
| Checkpoints.CheckSends | crates/arf-engine/src/engine.rs:516-557 | a checkpoint that succeeds first saved the conversation, then handed to the bus, in order, one message per rule of its trigger that fires, with the rule's type, id and body, to the ids its route names, has cached or matches; one that fails, a beginning of that list |
| TurnLaws.CheckLed | crates/arf-engine/src/engine.rs:516-557 | a checkpoint adds no message and begins no turn, and its error accounts for the wait event it may leave |
| TurnLaws.ModelTurnLed | crates/arf-engine/src/engine.rs:818-952 | counts the turn first; success appends one assistant message, with the content and, in order, the tool calls of the first answer to its own call; an abort or a failure nothing |
| RunTheorems.RunKept | crates/arf-engine/src/engine.rs:329-429 | a run, whatever its end, keeps the history sound and the wait events in balance with the faults; on success the budget is not spent, appended are the user message, full rounds and the final assistant message, absent only after an abort, and one turn is counted for each call and each model turn; it fails for its budget only if that is spent |
| RunTheorems.RestoredIff | crates/arf-engine/src/engine.rs:402-421 | a run restores the wait events iff no wait in it ended with a failing processor, a closed handle, an unrecorded query or a panic; so always after Ok, never after a processor's error or a panic, and after Stopped or a bus error iff no processor failed and no handle was found closed |
| RunTheorems.PanicsIffUntimely | crates/arf-engine/src/engine.rs:1299-1323 | a run panics iff it takes a message of a type not awaited then that is no reply the memory holds at the start |
| Stages.RunSpells | crates/arf-engine/src/engine.rs:353-428 | the checkpoints a run consults spell a beginning of (before_model_call after_model_call before_tool_exec after_tool_exec)* before_model_call after_model_call round_end, and the whole word if it succeeds; model calls, executions, permission requests, rule messages and conversation messages stand right after the checkpoints they belong to |
| Cancels.StoppedIffNoticed | crates/arf-engine/src/engine.rs:353-428 | a run reports that it was stopped iff one of its looks at the cancellation token found it set |
| Cancels.CancelledBatch | crates/arf-engine/src/engine.rs:964-983 | calls a batch comes to after a cancellation are answered as cancelled, in order, and nothing else happens: nothing is sent and no turn counted |
| RunTheorems.CarefulRunRestores | crates/arf-engine/src/engine.rs:329-429 | if no processor fails on a message to come, somebody cancels before the messages run out, no write fails, and every message taken is of a type awaited then or a duplicate reply, the wait events are restored, however the run ends |
| Strays.WelcomeIsTimely | crates/arf-engine/src/engine.rs:1299-1323 | on the input alone: if every message to come is a duplicate reply or a model answer asking at most for denied calls, and no rule waits for an answer, no message strays and the run does not panic |
| Strays.WelcomeRunRestores | crates/arf-engine/src/engine.rs:329-429 | on the input alone: for such an engine, with processors and a store that do not fail and a cancellation before the messages run out, a run restores its wait events, however it ends |
| RunTheorems.MessagesAreJustified | crates/arf-engine/src/engine.rs:329-429 | every message a run adds is said at a point of the run where its own request's first answer, a denial, a refusal or a cancellation justifies it |
| RunTheorems.ExecutionsAreCleared | crates/arf-engine/src/engine.rs:329-429 | every tool_exec of a run is a checkpoint rule's own or a tool turn's; of a tool turn's, none is of a tool whose first entry denies it, and one whose entry asks was granted by the first response to its own request, on which no other execution rests |
| Leaks.BusErrorLeaks | crates/arf-engine/src/engine.rs:419-421 | two calls, the first refused by the bus, the second's processor failing: the run ends with a bus error and leaves the second's wait event |
| Leaks.StoppedLeaks | crates/arf-engine/src/engine.rs:413-417 | one call that finds the handle closed, then a cancellation: the run ends Stopped and leaves the call's wait event |
| Leaks.StrayLeaks | crates/arf-engine/src/engine.rs:1299-1323 | a message of another type comes first: the run panics in its first wait and leaves the model call's wait event |
| Leaks.BusErrorHappens | crates/arf-engine/src/engine.rs:419-421 | a concrete such run, meeting every condition of `CarefulRunRestores` but the one on processors |
| Leaks.StoppedHappens | crates/arf-engine/src/engine.rs:413-417 | a concrete such run, meeting every condition but the one on cancellation |
| Leaks.UnrecordedHappens | crates/arf-engine/src/engine.rs:586-587 | a concrete run, meeting every condition but the one on writes, that leaves a query's wait event |
| Leaks.PanicHappens | crates/arf-engine/src/engine.rs:234-247 | a concrete such run, meeting every condition but the one on strays |
| Budgets.BudgetHolds | crates/arf-engine/src/engine.rs:353-364 | if the counter, plus one turn and one per tool call for each message to come, stays below 2^32, a run begins no more model turns than its budget had left |
| Budgets.OverspentIff | crates/arf-engine/src/engine.rs:353-364 | from a counter at or above the limit, with no budget left, a run begins a model turn iff the store lets it start, nobody has cancelled, the counter modulo 2^32 is below the limit and the first checkpoint succeeds |
| Budgets.WrappedBudget | crates/arf-engine/src/engine.rs:360-364 | from a counter at 2^32, far above the limit, a run begins a model turn and succeeds |
| Restarts.CommandIsFoundIff | crates/arf-session/src/jsonl_store.rs:155-178 | a command that succeeds was recorded and sent, and a later reader finds the record iff the file's last line had ended |
| Restarts.CrashTakesNextRecord | crates/arf-session/src/jsonl_store.rs:155-178 | after a crash between an event's text and the end of its line the next command succeeds, is sent, and neither record is found: it is not pending |
| Restarts.HandoffStaysPending | crates/arf-engine/src/engine.rs:673-745 | a handoff on a file whose last line had ended is pending iff no reply with its id is read back; an answered one stays pending unless a peer reply with its id came or a reply was there before |
| Restarts.HandoffAnswers | crates/arf-engine/src/engine.rs:673-745 | a handoff answers the text in the first reply to this very handoff, the last message it takes |
| Restarts.HandoffHands | crates/arf-engine/src/engine.rs:673-745 | a handoff hands over, under a new id and to the user's node, the question, its context and the options, or nothing, and then it fails |
| Restarts.AnsweredIsSettled | crates/arf-engine/src/engine.rs:1330-1352 | with every line written in full, a peer message whose query was answered is not pending afterwards |
| Restarts.ResendTries | crates/arf-engine/src/engine.rs:1416-1462 | tries each entry that can be rebuilt, once, in the listed order |
| Restarts.ResendReattempts | crates/arf-engine/src/engine.rs:1430-1460 | a resend of one entry adds to the record the next attempt with the same content iff it was sent and written, and nothing otherwise |
| Restarts.PendingIsTriedAsRecorded | crates/arf-engine/src/engine.rs:1416-1462 | every pending send with a payload of its type is tried with the recorded id, targets and payload; if the store cannot list its outbox the resend fails and nothing changes |
| Restarts.ResendLed | crates/arf-engine/src/engine.rs:1430-1460 | a resend keeps the history sound: what it sends is on record, and each next attempt is above all before |
| Sessions.SessionWell | crates/arf-engine/src/engine.rs:295-327 | over any sequence of runs, handoffs, resends and crashes at any act the history stays sound |
| Sessions.SessionRecordsFirst | crates/arf-engine/src/engine.rs:632-665 | so in every session of a new engine each peer message or handoff on the bus was recorded before |
| Engines.Engine.WaitForStrategy | crates/arf-engine/src/engine.rs:1268-1367 | the loop returns exactly the awaited responses to its own id, as many as the strategy asks for, of the shortest stretch that holds them; it panics iff it takes a message of an unawaited type that is no duplicate reply; it unregisters the event except after a failing processor, a closed handle or a panic |
| Engines.Engine.SendAndAwaitOne | crates/arf-engine/src/engine.rs:1222-1257 | for a request under a new id: success returns the first answer to that id, the books balance, and nothing is said |
| Engines.Engine.AskPermission | crates/arf-engine/src/engine.rs:1171-1214 | grants iff the first response to this very request says allow: true, and the grant is yet unused |
| Engines.Engine.CheckPermission | crates/arf-engine/src/engine.rs:1012-1065 | lets a call pass only if its tool's first entry allows it, or there is none, or it asks and the call's own request was granted; a denied or refused one gets one answer that says so |
| Engines.Engine.ExecuteCall | crates/arf-engine/src/engine.rs:1066-1166 | appends the error or else the content of the first result of this execution, the interruption after a cancellation, nothing after any other failure |
| Engines.Engine.DoToolTurns | crates/arf-engine/src/engine.rs:959-983 | the loop deals with every call, whatever fails short of a panic, and appends exactly one answer each if nothing does; begun after a cancellation it answers every call as cancelled and does nothing else |
| Engines.Engine.PublishAndAwaitQuery | crates/arf-engine/src/engine.rs:565-607 | success returns one answer per recipient, or one, of the type that answers the query and with its id; leaves its event registered iff its record fails, its processor fails, the handle is closed or the run panics |
| Engines.Engine.EvaluateAndDispatch | crates/arf-engine/src/engine.rs:516-557 | saves, then hands over one message per firing rule of its trigger, in order, each as its rule and route say, or a beginning of that list if it fails; adds no message and begins no turn |
| Engines.Engine.DoModelTurn | crates/arf-engine/src/engine.rs:818-952 | counts the turn; success appends one assistant message with the content and, in order, the tool calls of the first answer to its own call |
| Engines.Engine.DoPass | crates/arf-engine/src/engine.rs:353-428 | begins at most one model turn, only with budget left; a pass that goes on adds one full round and has budget left; begun after a cancellation it does nothing |
| Engines.Engine.RunInner | crates/arf-engine/src/engine.rs:329-429 | on success: budget not spent, appended are the user message, full rounds and the final assistant message, and every turn is counted; a run fails for its budget only if that is spent; the checkpoints are consulted in their order; the run reports that it was stopped iff it found the token set; the wait events are restored iff no wait left one; the run panics iff it takes a stray; no more model turns than the budget had left while the counter is below 2^32 |
| Engines.Engine.HandoffToHuman | crates/arf-engine/src/engine.rs:673-745 | hands over the question, context and options to the user's node under a new id, or fails; success answers the text of the first reply to it |
| Engines.Engine.ResendPendingOutbound | crates/arf-engine/src/engine.rs:1416-1462 | lists the log file's outbox, oldest first, tries each entry that can be rebuilt, in that order, and counts the entries; fails, changing nothing, if the outbox cannot be listed |

## Left out

- Executor.Execute: a count that falls below zero stops a checked build and wraps around in an unchecked one; the
  model ends there and has no continuation. For ids that cannot be ordered, which a repeated id can hide from the
  cycle check, the condition for that is proved in one direction.
- Outbox.PendingFromFile: a tear inside a multi-byte character makes the whole file unreadable; the listing then
  fails, which `Runs` has as an outcome of its own. Attempt numbers are unbounded, the code's are 32 bits.
- Outbox.StoresAgree: the database query is taken by its meaning, including that its bare columns come from the row
  with the highest attempt; rows without an id or with an unreadable one are not modelled.
- Discovery.Evaluate: the listener may empty the cache while rules are evaluated; in `Runs` it does so between
  checkpoints, and every interleaving is in the runs of `Discovery` instead.
- Engines.Engine.RunInner: the prompt sent to the model (system prefix, skills, middleware edits), the usage
  counters and the payloads of statistics events are not modelled; a middleware sees the state but cannot change it.
- The session manager's own lines in the log file, written before a session's first run.
- Delivery.NodeHandle.Poll: models `try_recv`; the blocking `recv` takes messages by the same step, in an order the
  transition system leaves open.
- Executor.Execute: the cancel hook of a tool that timed out is not modelled; it is called after the call's result
  is decided.
- StateStore.StateBackend.Read: line numbers and offsets are unbounded naturals; the code casts them from and to 32
  bits.
- CompositeBackends.CompositeBackend.Grep: searches without scope and file filter; a scope is matched as a plain
  string prefix by the child, which does not respect directory boundaries.
- Listing, globbing and deleting through the composite, and `upload_files`, whose results come grouped by backend.
- `skills_text` and its cache, whose key depends on lengths only.
- File-system and shell backends, model providers, remote tools, scripts, HTTP, YAML and the Python bindings:
  operating system or network.
- tokio: the broadcast ring, the bounded channels and the scheduler are taken as an ordered log that may be lagged
  over, FIFO queues and arbitrary interleaving. A run that blocks forever because nothing arrives and nobody cancels
  has no outcome to speak of.
- The bus's shutdown command and the draining of its own spare receiver: they end the loop or keep the ring moving,
  and change neither the node map nor the log.
- Compaction, configuration validation and the statistics: one-function facts. The handler registry: no message of a
  wait reaches it.
- Waits.WaitPanicsIff: on a thread of its own, outside any asynchronous runtime, a blocking lock does not panic; the
  engine is not run that way.
- Paths and globs are strings of bytes, file contents strings of Unicode scalars.
