# Verified models of the WoT chat runtime

Four parts of the system keep state through many interleaved steps, and each has a
guarantee that no single function body shows. This project models them and proves those
guarantees for every input, every run or every history.

**Subscriptions of the WoT runtime.** `StableKey` (on `JsonText` and `TextOrder`) is the canonical
printer behind subscription keys; two requests share a key exactly when they ask for the
same subscription. `SubscriptionProtocol` is the table of subscriptions as a transition
system, one action per section of code between two awaits, with every device
subscription ever opened and how often `stop` was called on it. `SubscriptionTheorems`
is what all runs guarantee, and `SubscriptionEvents` what is published, and what removing one
and stopping all do. `SubscriptionTable` is the table as the runtime keeps it: two
maps, and pending objects shared with running setups, each method proved to take the
step the protocol describes.

**Code-execution sessions.** `WorkerFamily` is the fork protocol of one session: live
processes, dead ones nobody has reaped, pipe contents, unread child results, results that
make their reader raise, and interruptions a program leaves in its process. `SessionProtocol`
adds the pool, its entries, the execution lock, arbitrary cancellation and shutdown;
`SessionInvariant` is the invariant of every run without interruptions, `SessionTheorems` what
follows from it, `SessionAnswers` what callers are told, `SessionRuns` the runs in which things go wrong, `SessionExactly` the exact
conditions over all runs and programs, and `SessionPool` the pool as a class over shared
entries. `FileStore`, `FileSave`, `FilePublish` and
`FileCleanup` describe the artifact store, and `FileArtifacts` is the store changed in
place.

**Chat message conversion.** `ThreadModel` is the conversion as a fold over messages, and
`ThreadMeaning` says, without it, what the messages say and which of them belong together.
`ThreadOutline`, `ThreadKeys`, `ThreadIds`, `ThreadPlacement`, `ThreadTheorems` and `ThreadConservation` prove what holds of every message
list. `ThreadHeap` and `ThreadConversion` are the conversion as it runs: part objects
that later tool results still write to, found through a map of wire ids.
`ThreadConverter` is the caching converter, which hands old objects out again.

**Virtual Things.** `BindingShapes` decides when a change is metadata only,
`VirtualModel` is the controller over its tracked Things and the catalog,
`VirtualTheorems` is what runs and failure-free passes guarantee, `VirtualLaws` what becomes of
the Thing of one definition, and `VirtualManager` is
the controller with its map of active objects.

Where the code falls short of the property one would like, the model keeps the code and
the project states exactly when the property holds:

- A device subscription can be orphaned exactly when a setup timeout is configured
  (`OrphanFreeExactly`); the default is none.
- A program can leave an interruption in its process, such as an alarm whose handler raises.
  A worker so interrupted while it waits for a request sends an error that nobody asked for,
  which the pool takes for the reply to the next request, and the callers after that read their
  predecessors' replies (`StaleReplies`). Replies answer their requests, and the lock is
  released with an empty pipe, in every run exactly when no program leaves one
  (`ReplyPairingExactly`, `LockCleanExactly`). It does not help if only failing programs do: a
  child can be interrupted after its program has ended and before it exits
  (`StraySettledRun`), and then takes requests beside the worker that waits for it.
- A program reported as failed stays applied in a second process that can take the next
  request, or the pool loses track of the owner, exactly when a program leaves an interruption
  or a successful result can make one of its readers raise: it is sent by pickling, and may
  hold an object only the child can rebuild (`OwnerExactly`, `FaithfulExactly`,
  `OwnedKeptExactly`). Rollback and owner tracking are proved for all other programs.
- The liveness check keeps a session nobody owns exactly while its dead worker has not been
  reaped, because the system then still knows the pid (`DropsExactly`,
  `UnreapedWorkerIsKept`); the exchange that begins fails on the pipe.
- A failed publication leaves something behind exactly when the exception arrives after a file
  has moved and before its id is recorded, or another one arrives in the undo before all there
  was is removed; and it leaves an artifact readable exactly when the undo does not get to the
  file of an item that had been moved whole (`PublishedNone`, `InterruptedOnce`,
  `UndoInterrupted`).
- A failed save leaves its file behind exactly when removing it raises (`FailedSaveUndone`);
  what is left stays within the quotas and is never published (`LeftoverNotPublished`).
- Cleaning up can bring an older file of the same name to light (`CleanupInvisible`,
  `OlderFileUncovered`).
- A pass of the controller leaves the catalog equal to the tracked Things exactly when the
  Things already at their version were in it before (`CatalogConverges`); a registration
  that failed after the Thing was tracked is not repaired by a later pass
  (`UnregisteredForGood`).
- A Thing is produced and never destroyed exactly when setting a handler or exposing it fails
  (`NoThingLeftBehind`); no later pass and no shutdown finds it.
- `stableSerialize` does not tell an array holding one `undefined` from an empty array,
  nor an out-of-range number from null (`Collisions`, `StableSerializeExact`).
- A `subscription_failed` event does not mean that the subscription is gone
  (`FailedStaysActive`).

`dafny verify dfyconfig.toml` checks the whole project.

## Model

| member | source | states |
|---|---|---|
| JsonText.PrintCancel | apps/wot-runtime/src/services/subscriptions.ts:138-151 | A printed JSON value followed by anything that may follow one can be read back in only one way, strings quoted as in section 7 of RFC 8259 |
| StableKey.StableSerializeExact | apps/wot-runtime/src/services/subscriptions.ts:138-151 | Two values get one text exactly when they agree up to object key order at every depth, after replacing the two kinds of value that print like others |
| StableKey.StableSerializeCanonical | apps/wot-runtime/src/services/subscriptions.ts:138-151 | On JSON trees of finite numbers: equal texts if and only if equal up to key order at every depth |
| StableKey.Collisions | apps/wot-runtime/src/services/subscriptions.ts:138-151 | The two families of different values with one text |
| StableKey.SubscriptionKeyExact | apps/wot-runtime/src/services/subscriptions.ts:200-210 | Two requests have one key exactly when Thing, affordance, operation, namespace, variables and input agree up to key order, and both select no form, by any falsy value, or both the same |
| StableKey.SelectorsSeparate | apps/wot-runtime/src/services/subscriptions.ts:207 | Requests that select a form by an object share a key only if the selectors are equal up to key order, and never with one that selects none |
| SubscriptionProtocol.InvStep | apps/wot-runtime/src/services/subscriptions.ts:341-517 | Every step keeps the two maps in bijection, the records in agreement with the running setups, and every device subscription accounted for |
| SubscriptionTheorems.IndexesAgree | apps/wot-runtime/src/services/subscriptions.ts:341-360 | In every reachable state each record's key leads to its id, and each key leads to a record that has it |
| SubscriptionTheorems.NoOrphans | apps/wot-runtime/src/services/subscriptions.ts:410-424 | Without a setup timeout, in every reachable state each device subscription that was opened and not stopped is the one an active record holds, or is about to be picked up by its setup; at most one per key |
| SubscriptionTheorems.OrphanFreeExactly | apps/wot-runtime/src/services/subscriptions.ts:112-118 | No run ever orphans a device subscription if and only if no setup timeout is set |
| SubscriptionTheorems.LateAnswerLeaks | apps/wot-runtime/src/services/subscriptions.ts:90-107 | The run that orphans one: the wait times out, then the device answers |
| SubscriptionTheorems.StoppedExactlyOnce | apps/wot-runtime/src/services/subscriptions.ts:612-661 | Stop is called at most once per device subscription, and exactly once on each ever opened when the table is empty and nothing is in flight |
| SubscriptionTheorems.LateDeviceIsStopped | apps/wot-runtime/src/services/subscriptions.ts:410-417 | One step: a setup that completes after its record was removed stops the device subscription and leaves the table alone |
| SubscriptionTheorems.NoResurrection | apps/wot-runtime/src/services/subscriptions.ts:612-661 | Over any run, an id taken out of the table never returns, and a status only moves from pending to active |
| SubscriptionTheorems.EnsuredOnce | apps/wot-runtime/src/services/subscriptions.ts:527-560 | While a subscription is in the table, every ensure under its key returns its id, reports nothing created and changes nothing |
| SubscriptionTheorems.CreatedOnlyIfAbsent | apps/wot-runtime/src/services/subscriptions.ts:538-560 | One step: an ensure reports created exactly when no subscription has its key, and then adds one pending record under both indexes |
| SubscriptionTheorems.RequestsShareSubscription | apps/wot-runtime/src/services/subscriptions.ts:325-336 | Two requests in a row get one id exactly when they ask for the same subscription |
| SubscriptionTheorems.StoppedOnce | apps/wot-runtime/src/services/subscriptions.ts:637-660 | Over any run `subscription_stopped` is published at most once per id, and only for an id that became active and has left the table |
| SubscriptionTheorems.FailedStaysActive | apps/wot-runtime/src/services/subscriptions.ts:424-438 | One step: a failed publish of `subscription_started` emits `subscription_failed` and leaves the record active |
| SubscriptionEvents.EventsTellAll | apps/wot-runtime/src/services/subscriptions.ts:410-439 | In every run in which no publication and no stop fails, the events about a subscription say exactly how far it has come: started if announced, failed if its setup ended without and was not cancelled, stopped if it was active, left the table and was taken down |
| SubscriptionEvents.CancelledIsSilent | apps/wot-runtime/src/services/subscriptions.ts:426-439 | In every run, whatever fails, a cancelled setup has published nothing, and a start is published only for a subscription that became active and was announced |
| SubscriptionEvents.PublishedExactly | apps/wot-runtime/src/services/subscriptions.ts:412-439 | What each single step publishes: a failure unless cancelled, a start, a stop, or nothing |
| SubscriptionEvents.StopFailurePublished | apps/wot-runtime/src/services/subscriptions.ts:632-660 | When `stop` fails, removing publishes nothing and stop-all publishes the stop all the same |
| SubscriptionEvents.RemovedForGood | apps/wot-runtime/src/services/subscriptions.ts:612-639 | Removing answers exactly whether the id was in the table; the id and its key leave, a pending setup is cancelled, an active device subscription stopped, nothing else changes; after any further run, removing it again answers no |
| SubscriptionEvents.StopAllEmpties | apps/wot-runtime/src/services/subscriptions.ts:645-661 | Stop-all leaves both maps empty, every pending setup cancelled and every held device subscription stopped, and leaves teardowns under way alone |
| SubscriptionEvents.ShutdownIsFinal | apps/wot-runtime/src/services/subscriptions.ts:645-661 | After stop-all the table stays empty as long as nobody ensures anything, and without a setup timeout every device subscription ever opened ends stopped exactly once |
| SubscriptionEvents.EnsureAnswers | apps/wot-runtime/src/services/subscriptions.ts:527-604 | A request without Thing or name is refused and changes nothing; any other gets an id that leads to a record with its own key, created exactly if that record is new |
| SubscriptionEvents.RequestRecorded | apps/wot-runtime/src/services/subscriptions.ts:542-556 | What is recorded is what was requested, and its setup starts |
| SubscriptionEvents.SetupsMayFail | apps/wot-runtime/src/services/subscriptions.ts:90-118 | A setup that waits may fail at any time, and time out exactly if a timeout is set |
| SubscriptionTable.SubscriptionRuntime.ForgetSubscription | apps/wot-runtime/src/services/subscriptions.ts:349-360 | Removes the record and the key that leads to it, returns the removed entry, changes nothing for an unknown id |
| SubscriptionTable.SubscriptionRuntime.EnsureSubscription | apps/wot-runtime/src/services/subscriptions.ts:527-604 | The two maps, the shared pending objects and the response end as the ensure step of the protocol says, invalid requests included |
| SubscriptionTable.SubscriptionRuntime.FailSetup | apps/wot-runtime/src/services/subscriptions.ts:426-439 | The catch block takes the failure step: forget the record only if it is still this pending object, publish only if not cancelled |
| SubscriptionTable.SubscriptionRuntime.DeviceAnswers | apps/wot-runtime/src/services/subscriptions.ts:389-408 | A device that opens a subscription hands it to the setup waiting for it, as the protocol's step says |
| SubscriptionTable.SubscriptionRuntime.ResumeSetup | apps/wot-runtime/src/services/subscriptions.ts:410-424 | A completed setup takes the resume step: stop an unwanted device subscription, or replace the pending object by an active record |
| SubscriptionTable.SubscriptionRuntime.StopSettled | apps/wot-runtime/src/services/subscriptions.ts:412-416 | Once the unwanted device subscription is stopped, the record goes only if it is still this pending object |
| SubscriptionTable.SubscriptionRuntime.AnnounceSettled | apps/wot-runtime/src/services/subscriptions.ts:424-439 | A published start ends the setup; a failed publish takes the catch block, which finds an active record and leaves it |
| SubscriptionTable.SubscriptionRuntime.RemoveSubscription | apps/wot-runtime/src/services/subscriptions.ts:612-639 | Removing takes the remove step: the entry leaves the table, a pending one is cancelled through the shared object, an active one is stopped |
| SubscriptionTable.SubscriptionRuntime.StopAllSubscriptions | apps/wot-runtime/src/services/subscriptions.ts:645-661 | The loop over all records takes the one stop-all step: both maps empty, every pending object cancelled, every held device subscription stopped |
| WorkerFamily.StepKeepsFamily | apps/code-executor/code_executor/worker.py:34-217 | When no program leaves an interruption, every step of every process, a parent that raises after the fork included, keeps at most one process at work beside the child it waits for, and at most one execution queued |
| WorkerFamily.StepKeepsHandover | apps/code-executor/code_executor/worker.py:133-195 | If besides no successful result makes its parent raise, every step also keeps any two live processes parent and child, and every result on its way true to the program |
| WorkerFamily.SingleOwner | apps/code-executor/code_executor/worker.py:34-63 | In such a state at most one live process can consume the next request, and while one is queued it is the only live process |
| SessionInvariant.InvStep | apps/code-executor/code_executor/session_pool.py:90-224 | When no program leaves an interruption, every pool section, pipe step, unreadable reply, worker step, cancellation and shutdown keeps the invariant |
| SessionTheorems.ReplyPairing | apps/code-executor/code_executor/session_pool.py:105-140 | One half: without interruptions, a reply read on an entry, pooled or retired, answers the execution just sent on it |
| SessionTheorems.LockReleasedClean | apps/code-executor/code_executor/session_pool.py:111-138 | One half: without interruptions, the lock is released only with an empty pipe or with the entry out of the pool |
| SessionTheorems.OneOwner | apps/code-executor/code_executor/worker.py:46-63 | One half: without interruptions, and with successes their parents can read, in every reachable state at most one process of a session can consume a request |
| SessionTheorems.OwnedSessionIsKept | apps/code-executor/code_executor/session_pool.py:90-103 | One half: with readable results and no interruptions, the liveness check never drops a session whose owner is alive |
| SessionExactly.ReplyPairingExactly | apps/code-executor/code_executor/session_pool.py:147-178 | In every run, however often callers are cancelled and whatever results do to their readers, a reply read on an entry answers the execution just sent on it, if and only if no program leaves an interruption |
| SessionExactly.LockCleanExactly | apps/code-executor/code_executor/session_pool.py:111-138 | In every run the execution lock is released, and found free in the pool, only with an empty pipe or with the entry out of the pool, if and only if no program leaves an interruption |
| SessionExactly.OwnerExactly | apps/code-executor/code_executor/worker.py:46-68 | No run ever has two processes of one session, retired ones included, that can consume a request, or one at work while a request is queued, if and only if no program leaves an interruption and no successful result can make its parent raise |
| SessionExactly.FaithfulExactly | apps/code-executor/code_executor/worker.py:71-97 | In every run the worker pid between exchanges names whoever can consume a request, and its environment is the fold of the programs reported as ok, all of which succeeded, if and only if no program leaves an interruption and no successful result can make the parent or the pool raise |
| SessionExactly.OwnedKeptExactly | apps/code-executor/code_executor/session_pool.py:90-103 | No run ever drops a session that somebody owns, under the same condition and no other |
| SessionRuns.StaleReplies | apps/code-executor/code_executor/worker.py:35-68 | The run in which an alarm left by a successful program raises while its process waits for a request: the lock is free with an error on the pipe, the next caller is told of it although its program then runs and takes over, and the caller after that is told the outcome of its predecessor's program |
| SessionRuns.StraySettledRun | apps/code-executor/code_executor/worker.py:46-68 | The run in which a child, its program ended, is interrupted before it exits or returns to the loop: its error is taken for the reply, and it can take the next request while the worker the pool knows still waits for it |
| SessionRuns.RaisingParentRun | apps/code-executor/code_executor/worker.py:67-68 | The run in which the parent raises on a result it cannot rebuild: two processes receive, and a program reported as failed stays applied |
| SessionRuns.RaisingPoolRun | apps/code-executor/code_executor/session_pool.py:157-178 | The run in which the pool raises on the reply: the entry stays in the pool with a worker pid that is not the owner's |
| SessionTheorems.RollbackRefinement | apps/code-executor/code_executor/worker.py:71-97 | With readable results and no interruptions, between exchanges the owner's environment is the fold, in order, of exactly the programs reported as ok, and each of those did succeed |
| SessionTheorems.ExecutionEffect | apps/code-executor/code_executor/session_pool.py:105-145 | Under the same conditions, when a caller is about to be told, exactly its own program was applied if the reply is ok and nothing otherwise; the caller is told ok exactly if not cancelled and the reply is ok |
| SessionAnswers.CallerTold | apps/code-executor/code_executor/session_pool.py:127-145 | Under the same conditions, a caller is told that its program failed, or succeeded, only if it did, in the environment the session had before; it is told of a failure exactly if the reply says so, of an error exactly if the reply has no status, and of its cancellation exactly if it was cancelled |
| SessionAnswers.ToldByStatus | apps/code-executor/code_executor/session_pool.py:127-145 | What the caller is told once the exchange has ended, case by case |
| SessionAnswers.ToldExactly | apps/code-executor/code_executor/worker.py:75-217 | While no process dies or runs out of time and nothing but programs raises, every caller that is not cancelled is told exactly whether its program succeeded |
| SessionTheorems.RaisedEffect | apps/code-executor/code_executor/session_pool.py:111-131 | Under the same conditions, a caller told of an error because its reply could not be read had nothing applied |
| SessionTheorems.OwnerTracked | apps/code-executor/code_executor/session_pool.py:127-131 | Under the same conditions, the worker pid of a pooled entry whose lock is free names the owner, promoted children and cancelled successes included, and counts as alive exactly if it is the owner or dead and unreaped |
| SessionTheorems.DropsExactly | apps/code-executor/code_executor/processes.py:10-19 | Under the same conditions, the liveness check drops exactly the sessions nobody owns if and only if the worker pid is not that of a dead, unreaped process |
| SessionRuns.UnreapedWorkerIsKept | apps/code-executor/code_executor/session_pool.py:78-88 | The run in which the first worker dies before anything ran: unreaped, its session is kept and an exchange begins; reaped, it is dropped |
| SessionTheorems.CapacityAndIsolation | apps/code-executor/code_executor/session_pool.py:39-76 | No run, interrupted or not, exceeds the session limit, and no two sessions share a worker family |
| SessionAnswers.CreatedWhileRoom | apps/code-executor/code_executor/session_pool.py:39-76 | A session is given a worker of its own exactly if it has none and there is room |
| SessionAnswers.ShutDownLeaves | apps/code-executor/code_executor/session_pool.py:180-215 | Shutting down takes exactly this session out of the pool and asks its worker to stop, unless the pipe is closed |
| SessionAnswers.ShutDownEnds | apps/code-executor/code_executor/worker.py:36-38 | Once the owner of an idle session has read that, nobody owns the session |
| SessionAnswers.RetiredForGood | apps/code-executor/code_executor/session_pool.py:180-194 | An entry that has left the pool never comes back, in any run |
| SessionAnswers.AdmittedExactly | apps/code-executor/code_executor/session_pool.py:90-103 | An exchange begins, not cancelled, exactly if the session still has this entry and the system knows its worker; with the worker gone the session is dropped and the pipe closed; with another entry nothing happens |
| SessionAnswers.FailedExchangeRetires | apps/code-executor/code_executor/session_pool.py:157-194 | When the watchdog fires or the pipe fails, exactly this entry leaves the pool, its worker is asked to stop if the pipe is open, the caller is told of an error, or of its cancellation, and the lock is free again |
| SessionAnswers.CancellationNoted | apps/code-executor/code_executor/session_pool.py:117-122 | A cancellation during the exchange is noted and changes nothing else |
| SessionAnswers.TerminatedEnds | apps/code-executor/code_executor/session_pool.py:196-215 | A retired worker that is killed is gone, and its pipe closed |
| SessionRuns.NothingApplied | apps/code-executor/code_executor/worker.py:133-217 | The runs in which a program runs out of time, its process dies, or it fails: the caller is told of an error, or of the failure, and the session goes on with the worker and the environment it had |
| SessionAnswers.ParentAnswers | apps/code-executor/code_executor/worker.py:148-217 | A parent promotes its child exactly if it reported success and is still there, passes a failure on, answers with an error otherwise, and reaps a child that does not take over |
| SessionAnswers.KilledAndReaped | apps/code-executor/code_executor/worker.py:153-167 | A child that ran out of time is killed and reaped, and its parent answers with an error |
| SessionAnswers.ChildEnds | apps/code-executor/code_executor/worker.py:100-130 | A child goes on with the session exactly if its program succeeded and its parent still reads the result |
| SessionAnswers.ChildStrays | apps/code-executor/code_executor/worker.py:46-68 | A child interrupted after its program ended receives requests and has sent an error nobody asked for |
| SessionAnswers.InterruptedAnywhere | apps/code-executor/code_executor/worker.py:35-68 | What an interruption does to a process at rest, at work, or on its way out |
| SessionAnswers.ReplySent | apps/code-executor/code_executor/worker.py:54-63 | The parent hands over exactly if its reply promotes the child, and ends on a closed pipe |
| SessionAnswers.RaisingParents | apps/code-executor/code_executor/worker.py:67-68 | A parent that raises on the result of its child answers with an error that names no owner, and leaves the child alone |
| SessionAnswers.ProcessesEnd | apps/code-executor/code_executor/worker.py:54-63 | A parent that has handed over exits, and stays in the process table until reaped |
| SessionAnswers.ClosedPipeEnds | apps/code-executor/code_executor/worker.py:65-66 | A receiver ends when its pipe is closed and empty |
| SessionPool.Pool.GetOrCreateSession | apps/code-executor/code_executor/session_pool.py:39-76 | Returns the existing entry, or creates one while there is room, as the protocol's step says |
| SessionPool.Pool.BeginExecution | apps/code-executor/code_executor/session_pool.py:95-103 | Under the locks, starts over when the session has another entry by now, drops the session whose worker pid is gone, or begins the exchange, for any answer of the system about the pid |
| SessionPool.Pool.NoteCancellation | apps/code-executor/code_executor/session_pool.py:117-122 | A cancellation during the exchange is noted and changes nothing else |
| SessionPool.Pool.ShutdownSession | apps/code-executor/code_executor/session_pool.py:180-185 | Removes the session and asks its worker to stop; an unknown session changes nothing |
| SessionPool.Pool.SettleExchange | apps/code-executor/code_executor/session_pool.py:127-145 | Records the owner named by the reply before a cancellation is raised, releases the lock, and returns what the caller is told |
| SessionPool.Pool.ShutdownByEntry | apps/code-executor/code_executor/session_pool.py:187-194 | The search loop removes the session of this very entry and asks its worker to stop, or does nothing if it is gone |
| ThreadIds.FirstFreeIsFree | apps/ui/src/lib/thread-messages.ts:222-228 | The renaming loop ends within one try more than there are ids in use, on the first free candidate |
| ThreadKeys.CandidateReads | apps/ui/src/lib/thread-messages.ts:222-228 | The ids tried are the id itself and then, after a colon, the numbers from two on in decimal |
| ThreadIds.UniquePartIds | apps/ui/src/lib/thread-messages.ts:203-395 | In the conversion of any message list, the tool-call parts at any two places, synthetic ones included, have different ids |
| ThreadPlacement.ClosedTurnRanked | apps/ui/src/lib/thread-messages.ts:235-301 | A closed turn lists genuine parts and views in strictly increasing rank: run by run, parts before the artifact views of their run, file views closing the last run before trailing summaries |
| ThreadPlacement.ClosedTurnComplete | apps/ui/src/lib/thread-messages.ts:244-299 | It holds every part, the artifact view of exactly the finished calls of the two artifact tools and the file view of exactly the calls that ran code, did not fail and made files, each view with the result and arguments of its call |
| ThreadPlacement.Conservative | apps/ui/src/lib/thread-messages.ts:235-301 | Erasing the synthetic views from a closed turn gives back exactly its part sequence |
| ThreadPlacement.ArtifactSits | apps/ui/src/lib/thread-messages.ts:244-275 | Each artifact view sits after its own call and before the next text or summary |
| ThreadPlacement.FilesSit | apps/ui/src/lib/thread-messages.ts:276-300 | All file views sit together, immediately before the maximal trailing run of summaries |
| ThreadPlacement.TurnCloses | apps/ui/src/lib/thread-messages.ts:235-311 | Closing a turn puts exactly one message behind the others, under its id: its own parts and the views due, each once, in increasing rank; an empty turn leaves none |
| ThreadConservation.NothingLostOrReordered | apps/ui/src/lib/thread-messages.ts:320-395 | Read from front to back, the output says exactly what the messages say, in their order and under the same roles: strings and text blocks as text, reasoning blocks and detached reasoning as reasoning, summaries, and the calls that have an id and a name; every other part is an artifact or file view |
| ThreadOutline.ShownTogether | apps/ui/src/lib/thread-messages.ts:302-391 | The output has one message for each user or system message that says something, under its role and id, and one for all the assistant says between two of those, under the id of the first message in which it speaks; each holds what those messages say, in order |
| ThreadConservation.CallsSaidOnce | apps/ui/src/lib/thread-messages.ts:371-375 | In what the messages say, every emitted call occurs exactly once, in the order of emission |
| ThreadConservation.ResultJoin | apps/ui/src/lib/thread-messages.ts:320-335 | In that reading each emitted call stands at its own place with the decoded content of the last tool message under its wire id that arrives after it and before the next call reusing the id, with none if there is none, and as an error once any of them failed |
| ThreadTheorems.SomeReuse | apps/ui/src/lib/thread-messages.ts:371-375 | Every emitted call has such a window: up to the next call under its wire id, or to the end |
| ThreadTheorems.SummaryJoins | apps/ui/src/lib/thread-messages.ts:355-363 | A device summary joins the turn as a part with its interactions, keyed by its message's id, or by the number of messages so far |
| ThreadTheorems.PrefixStability | apps/ui/src/lib/thread-messages.ts:337-348 | After a human or system message, if later reports answer their own calls, the conversion of the earlier list is a prefix of the longer conversion |
| ThreadHeap.SamePartShows | apps/ui/src/lib/thread-messages.ts:406-426 | Parts taken for the same by identity of results and shallow equality of arguments have the same whole content |
| ThreadHeap.SamePartExactly | apps/ui/src/lib/thread-messages.ts:406-426 | When parts are taken for the same: texts by content, calls and views exactly if id, name, error, the very result and each very argument agree |
| ThreadConversion.Conversion.UniquePartId | apps/ui/src/lib/thread-messages.ts:222-228 | The loop returns the first candidate not in use and marks it as used |
| ThreadConversion.Conversion.PlaceParts | apps/ui/src/lib/thread-messages.ts:244-276 | The loop over the parts places them, and creates artifact views, as the plain conversion says |
| ThreadConversion.Conversion.CloseTurn | apps/ui/src/lib/thread-messages.ts:235-311 | Closing a turn in place ends in the state of the plain conversion, for the same part objects |
| ThreadConversion.Conversion.Report | apps/ui/src/lib/thread-messages.ts:323-335 | A tool result is written to the object of the call it answers, wherever that is by now, and nowhere else |
| ThreadConversion.Conversion.EmitCall | apps/ui/src/lib/thread-messages.ts:371-375 | An emitted call joins the map under its wire id and gets an id of its own |
| ThreadConversion.Conversion.Read | apps/ui/src/lib/thread-messages.ts:320-391 | Reading one message in place is one step of the fold |
| ThreadConversion.ToContentParts | apps/ui/src/lib/thread-messages.ts:143-171 | The loop over content blocks yields the text and reasoning parts of the plain conversion |
| ThreadConversion.ConvertThreadMessages | apps/ui/src/lib/thread-messages.ts:203-395 | The result shows the plain conversion of the messages and consists of new call objects only |
| ThreadConverter.Reuse | apps/ui/src/lib/thread-messages.ts:460-475 | A message with old parts taken over exactly where they are the same still shows the new message |
| ThreadConverter.ReuseAll | apps/ui/src/lib/thread-messages.ts:460-475 | Message by message, exactly the parts that are the same as the old ones at their places are taken over, under the same role and id |
| ThreadConverter.Converter.Convert | apps/ui/src/lib/thread-messages.ts:434-485 | Whatever old messages, parts and cached results it reuses, the result shows the plain conversion of the current snapshot |
| ThreadConverter.ConvertOnce | apps/ui/src/lib/thread-messages.ts:397-401 | The conversion without a memory shows the plain conversion |
| ThreadConverter.ConvertHistory | apps/ui/src/lib/thread-messages.ts:434-485 | At the end of any history of snapshots, every result handed out along the way still shows the plain conversion of its own snapshot |
| FileStore.ValidIdExactly | apps/code-executor/code_executor/file_artifacts.py:25-29 | Which ids are valid, sign by sign |
| FileStore.ValidIdsAreHarmless | apps/code-executor/code_executor/file_artifacts.py:25-29 | A valid id holds nothing that leads out of a directory |
| FileStore.SavedIdsAreValid | apps/code-executor/code_executor/file_artifacts.py:95-98 | Every id that a save makes is valid |
| FileStore.ExecutionNames | apps/code-executor/code_executor/file_artifacts.py:49-55 | Executions are named by exactly 32 lower-case hexadecimal digits |
| FileStore.OlderFilesDescribed | apps/code-executor/code_executor/file_artifacts.py:162-219 | Bad ids and linked manifests are refused; without a manifest an older file is found whatever its age and described by its own bytes |
| FileSave.DrainWhole | apps/code-executor/code_executor/file_artifacts.py:103-113 | Bytes that come in chunks of any sizes are read to the last one if they fit the limit, and refused otherwise |
| FileSave.SaveKeepsQuota | apps/code-executor/code_executor/file_artifacts.py:86-132 | Every save, failed and badly undone ones included, keeps count, each size and the total within the three limits |
| FileSave.QuotaOverRuns | apps/code-executor/code_executor/file_artifacts.py:86-132 | So does any sequence of saves |
| FileSave.FailedSaveUndone | apps/code-executor/code_executor/file_artifacts.py:129-132 | A failed save under a fresh id leaves the stage's files as they were if and only if no removal of what it had created raised; what is left otherwise is a file of that id and no readable manifest |
| FileSave.SaveReadsLittle | apps/code-executor/code_executor/file_artifacts.py:103-111 | A stream that hands out no more than it is asked for is read at most one byte beyond what the limits leave |
| FileSave.SaveBytesExact | apps/code-executor/code_executor/file_artifacts.py:86-128 | Bytes, in whatever chunks a stream hands them out, are saved exactly as given, with their size and digest, if and only if count and both sizes leave room |
| FileSave.SaveSucceedsExactly | apps/code-executor/code_executor/file_artifacts.py:86-132 | A save succeeds if and only if there is room, the file opens under a fresh id, the stream ends within the limits and the manifest is written; a stage that changes bears the time of the save |
| FileSave.SaveKeepsOthers | apps/code-executor/code_executor/file_artifacts.py:86-132 | No save touches another file of its stage, or its manifest |
| FileSave.SaveStaysInStage | apps/code-executor/code_executor/file_artifacts.py:57-86 | A malformed save, or one whose stage is refused, does nothing; any other saves into the stage as it is and changes nothing else |
| FileSave.AsksForLittle | apps/code-executor/code_executor/file_artifacts.py:105 | Each read asks for at least one byte, at most 65536, and at most one beyond the limit |
| FilePublish.PublishedAll | apps/code-executor/code_executor/file_artifacts.py:134-152 | A successful publication makes every listed artifact readable with the staged bytes, from its publication until it expires, and describes it by its manifest |
| FilePublish.PublishSucceedsExactly | apps/code-executor/code_executor/file_artifacts.py:137-152 | A publication succeeds if and only if every item is staged once as a regular file with a readable manifest under a valid id, is described before it expires, and no exception arrives at any step |
| FilePublish.PublishedNone | apps/code-executor/code_executor/file_artifacts.py:153-157 | A failed publication of fresh ids leaves both stores as they were if and only if it was not interrupted between moving and recording a file and the undo removed all there was, and leaves none of the ids readable if and only if the undo got to the file of every item moved whole |
| FilePublish.InterruptedOnce | apps/code-executor/code_executor/file_artifacts.py:149-150 | An exception between moving and recording does leave the file in the store, not readable |
| FilePublish.UndoInterrupted | apps/code-executor/code_executor/file_artifacts.py:153-157 | An exception in the undo does leave an artifact readable: one good item, one with an invalid id, and a removal that raises |
| FilePublish.LeftReadable | apps/code-executor/code_executor/file_artifacts.py:153-157 | What such an undo leaves readable is whole: the staged bytes, until they expire |
| FilePublish.NothingEarly | apps/code-executor/code_executor/file_artifacts.py:138-157 | At no step of publishing or undoing is a fresh id readable before its data has moved, or with other bytes than staged |
| FilePublish.MovesTouchStage | apps/code-executor/code_executor/file_artifacts.py:149-151 | Moving a file or manifest out of a stage changes the time of the stage |
| FilePublish.OutcomeOfStage | apps/code-executor/code_executor/file_artifacts.py:134-152 | Whether a publication succeeds, and what it says, depends on the stage alone |
| FilePublish.PublishElsewhere | apps/code-executor/code_executor/file_artifacts.py:134-157 | A publication touches no other execution's stage and no other artifact |
| FileCleanup.CleanupInvisible | apps/code-executor/code_executor/file_artifacts.py:222-234 | From then on everything reads as before cleaning up, except exactly where dropping a manifest uncovers an older file |
| FileCleanup.OlderFileUncovered | apps/code-executor/code_executor/file_artifacts.py:168-180 | The exception happens: bytes saved and published under the name of an older file, and cleaned up once expired, leave that name reading as the older file |
| FileCleanup.CleanupComplete | apps/code-executor/code_executor/file_artifacts.py:222-246 | Nothing expired, no manifest without a file and no abandoned stage is left, and cleaning up again changes nothing |
| FileCleanup.StagesKept | apps/code-executor/code_executor/file_artifacts.py:235-246 | A stage is kept unchanged exactly if it is a link or not older than the artifact retention or the execution timeout and a minute |
| FileCleanup.EntriesKept | apps/code-executor/code_executor/file_artifacts.py:222-234 | Exactly the regular files past their retention go, and exactly the manifests whose name no longer leads to a regular file |
| FileCleanup.SavedStageSurvives | apps/code-executor/code_executor/file_artifacts.py:235-246 | A stage in which a file was just saved survives cleaning up while its execution may be under way |
| FileCleanup.LiveStagePublished | apps/code-executor/code_executor/file_artifacts.py:134-246 | Cleaning up between saves and publication, inside the timeout, changes neither whether the publication succeeds nor what it describes |
| FileCleanup.PublishedSurvives | apps/code-executor/code_executor/file_artifacts.py:134-234 | A published artifact reads the same through any cleaning up before it expires |
| FileCleanup.LeftoverNotPublished | apps/code-executor/code_executor/file_artifacts.py:129-152 | What a failed save leaves in a stage makes any publication that lists it fail |
| FileCleanup.SavedPublishedDescribed | apps/code-executor/code_executor/file_artifacts.py:57-220 | What is saved and then published is described as the save reported it, with the size and digest of the bytes read back |
| FileArtifacts.FileArtifacts.Save | apps/code-executor/code_executor/file_artifacts.py:57-132 | The save with its measuring and reading loops does to the store what the specification says, error paths and failing removals included |
| FileArtifacts.FileArtifacts.Publish | apps/code-executor/code_executor/file_artifacts.py:134-157 | The publishing loop with its undo does to the store what the specification says, for an exception at any step of either |
| FileArtifacts.FileArtifacts.Discard | apps/code-executor/code_executor/file_artifacts.py:159-160 | Removes the whole stage of an execution and nothing else; a bad execution id or a linked stage is refused |
| FileArtifacts.FileArtifacts.Cleanup | apps/code-executor/code_executor/file_artifacts.py:222-246 | The three loops remove expired files, then manifests without a file, then abandoned stages |
| BindingShapes.ShapeKeyExact | apps/virtual-servient/src/manager.ts:44-51 | Two bindings have one key exactly when affordance, kind and trigger agree, triggers as the JSON trees that `JSON.stringify` writes for them |
| BindingShapes.ShapeKeepsJson | apps/virtual-servient/src/manager.ts:44-51 | A trigger that is JSON already, as stored definitions are, is compared as it is |
| BindingShapes.BindingsShapeEqualExact | apps/virtual-servient/src/manager.ts:58-68 | Two binding lists count as equal exactly when each shape occurs equally often in both |
| VirtualTheorems.NothingRunsUntracked | apps/virtual-servient/src/manager.ts:70-217 | Over any run, whatever fails, exactly the timers and subscriptions of tracked Things are running, and no two Things share one |
| VirtualTheorems.ShutdownStopsAll | apps/virtual-servient/src/manager.ts:295-299 | After any run a shutdown leaves nothing tracked and nothing running |
| VirtualTheorems.NoThingLeftBehind | apps/virtual-servient/src/manager.ts:155-236 | Over any run, whatever fails, every Thing produced and not destroyed is tracked if and only if no definition reconciled along the way failed between producing its Thing and tracking it, other than by its canary; nothing later makes up for one that did |
| VirtualTheorems.Converges | apps/virtual-servient/src/manager.ts:220-236 | A failure-free pass over distinct ids tracks exactly the active definitions minus those whose canary ran and failed, each at its definition's version |
| VirtualTheorems.CatalogConverges | apps/virtual-servient/src/manager.ts:211-215 | Afterwards the catalog's virtual ids equal the tracked ones exactly if the up-to-date ones were in it before and no untracked, unlisted virtual id is still stored |
| VirtualTheorems.UnregisteredForGood | apps/virtual-servient/src/manager.ts:211-215 | The failing case happens: after a registration that fails once the Thing is tracked, even a pass without failures leaves the catalog without it |
| VirtualTheorems.SecondPassIdle | apps/virtual-servient/src/manager.ts:220-236 | A second pass produces and destroys one Thing for each canary that failed in the first and does nothing else; so it changes nothing exactly if none failed |
| VirtualTheorems.PassSpares | apps/virtual-servient/src/manager.ts:243-266 | Whatever fails and whatever list comes back, a catalog entry that is neither tracked nor listed stays if it is no virtual Thing or its definition is still stored or cannot be looked up |
| VirtualLaws.KeptExactly | apps/virtual-servient/src/manager.ts:121-129 | With nothing failing, a definition under a new version keeps its Thing, timers and subscriptions if and only if each shape of binding occurs as often as before; otherwise the old Thing is destroyed, nothing of it runs, and a new one made from the definition is tracked |
| VirtualLaws.ThingsFitDefinitions | apps/virtual-servient/src/manager.ts:103-217 | Over any run, whatever fails, every tracked Thing was made from bindings of exactly the shapes its current definition has |
| VirtualLaws.ProducedExactly | apps/virtual-servient/src/manager.ts:103-129 | An active definition that is not tracked gets a Thing made from it, and one tracked at its version is left alone |
| VirtualLaws.DeletedEnds | apps/virtual-servient/src/manager.ts:103-117 | A deleted or inactive definition: its Thing is destroyed, nothing of it runs, it leaves the catalog exactly if deleting there does not fail, and nothing else changes |
| VirtualLaws.ReproduceFails | apps/virtual-servient/src/manager.ts:155-217 | Where making a Thing anew can fail, and what is tracked and registered then |
| VirtualLaws.FailedUpdateRetried | apps/virtual-servient/src/manager.ts:136-152 | A metadata change that cannot be registered changes nothing, so that it is tried again |
| VirtualLaws.FailedSweepEndsPass | apps/virtual-servient/src/manager.ts:243-266 | A lookup that fails during the sweep ends the pass before any definition is reconciled |
| VirtualLaws.StopAllListed | apps/virtual-servient/src/manager.ts:222-234 | Stopping a set of Things takes exactly those out of the catalog whose deletion there does not fail |
| VirtualLaws.VirtualNames | apps/virtual-servient/src/clients/wotbot.ts:148-165 | The virtual ids are those under their prefix |
| VirtualManager.Manager.ApplyMetadataOnlyChange | apps/virtual-servient/src/manager.ts:136-152 | Updates version, definition and TD of the tracked object in place only after the catalog has the new TD; timers and subscriptions stay |
| VirtualManager.Manager.ReproduceThing | apps/virtual-servient/src/manager.ts:155-217 | Replaces the Thing as the model says: stopped without touching the catalog, tracked before triggers and registration, withdrawn if its canary fails |
| VirtualManager.Manager.ReconcileDefinition | apps/virtual-servient/src/manager.ts:103-129 | Takes the model's branch for deleted, inactive, current, metadata-only and changed definitions |
| VirtualManager.Manager.ReconcileEverything | apps/virtual-servient/src/manager.ts:220-236 | The pass with its three loops does to the map of active objects and the catalog what the model says, up to the first failure |

## Left out

- Network, Redis, HTTP, file-system calls and operating-system processes are steps that succeed or fail arbitrarily; time is a parameter.
- Running a program is an arbitrary function of program and environment, which also says whether reading its result may raise in the parent or in the pool and whether it leaves an interruption; interruptions while the program runs are part of its outcome. Stdout, plots, records and reports of an execution are not modelled, nor programs that fork or use the session's pipes themselves.
- A process that is interrupted has written a message whole or not at all.
- Exceptions after the fork other than interruptions and those a result causes in its readers: polling the result pipe and waiting for the child do not raise by themselves.
- The `os.fork`-less branch of `worker_loop`, permission errors when asking for or killing a process, reuse of process ids, and idle times: `cleanup_idle` is a shutdown of any session at any time.
- Cancellation of the communication task itself by a closing event loop.
- A failure of `publish` inside `execute` after a successful exchange: the exchange is settled by then, and `FilePublish` says what a failure does to the store.
- Trimming of request fields and decoding of payload envelopes and URI variables happen before a request enters the model; a byte buffer inside a key counts as the object of its indexes.
- `subscription_requested` events, payload events, and failure events from the device's own error callback; a `stop` that throws synchronously.
- SubscriptionTable.SubscriptionRuntime: a setup that times out is a step of the protocol but has no method here, because a timed-out wait runs the same catch block as `FailSetup`.
- SessionPool.Pool: sending, reading the pipe and the watchdog are steps of the protocol; the class holds the sections that change the pool and its entries.
- Parsing of tool results and summaries, and the test for file artifacts, are arbitrary functions of the content.
- ThreadHeap: scalars are values up to `===`, so 0 and -0 are one value; text and reasoning parts and messages have no identity, so handing out an equal one counts as handing out the old one; decoded records are compared by identity and texts by content, as in the code.
- ThreadConverter.Converter.Convert: says nothing about which new parts are the same as old ones, only that exactly those are taken over (see `ReuseAll`); weak references are plain maps.
- Filename cleaning and MIME checks of `save` are a flag; the digest is an arbitrary function of the bytes; directories in place of files do not occur.
- FileSave: a write that fails leaves none of its chunk in the file.
- Thing Description contents, forms and the handlers of produced Things; a stop or destroy that fails counts as done, as its error is swallowed.
- VirtualTheorems.Converges: needs a pass without failures, run on its own; concurrent passes and the definition event loop are not modelled.
- VirtualModel: within one pass each request about one Thing succeeds or fails the same way each time.
- React rendering, hooks, routes, API clients, configuration, authentication, form selection, caches and formatters: this code keeps no state the four parts depend on.
