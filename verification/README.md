# Hotel planning: a verification model

The repository is a hotel planning program: a planning board of reservations, tools that edit it, a database backend
that replicates its content to observers, a small library of asynchronous streams and futures, and, vendored with its
test framework, a bipartite matching algorithm. This project models the parts with the most intricate state in Dafny
and proves what they are for.

| file | models |
|---|---|
| `Matching.dfy` | maximum bipartite matching by augmenting searches |
| `Streams.dfy`, `Futures.dfy` | streams and futures, with every interleaving of producer, consumer, canceller and executors |
| `Cancellation.dfy`, `ThreadedExecutor.dfy` | the cancellation token and the executor with a thread of its own |
| `Reservations.dfy`, `Occupancy.dfy`, `Planning.dfy` | reservations, what it means for a room to be free, the planning board with its index |
| `NewReservationTool.dfy`, `MoveReservationTool.dfy` | the two editing tools under arbitrary runs of events and board changes |
| `Storage.dfy`, `SqliteStorage.dfy` | the reservation tables, what is written to them and what loading makes of them |
| `Changes.dfy`, `StorageEffects.dfy`, `Replication.dfy`, `ViewsAndTables.dfy`, `Answers.dfy` | differentials, their replay, operations and batches, when lists that replay them agree with the tables, and what the answers to operations say |
| `DataStreams.dfy`, `SqliteBackend.dfy`, `BackendRuns.dfy`, `BackendProgress.dfy` | the stream and worker classes, and every interleaving of the worker with the main thread |
| `ChangeIntegrator.dfy`, `Integration.dfy` | coalesced change events, alone and together with the backend |
| `Framing.dfy`, `Sending.dfy` | message frames on a connection and the queue of messages to send |
| `Common.dfy`, `Runs.dfy` | shared vocabulary, and runs of state machines |

Objects that the program updates in place are classes, and their methods are proved against functions on their state.
Where several threads or a stream of events act on that state, the same functions are the steps of a state machine
whose runs are arbitrary sequences of events; every region under a lock, every look at a shared flag without one, and
every event handler is one step. The theorems are about all runs.

Five properties hold only under a condition, and the condition is proved exact:

- Over any run an observer of all reservations is in step with the committed tables at every moment, counting the
  changes on their way to it, exactly if every batch that commits leaves it in step
  (`BackendRuns.InStepThroughoutIff`). A batch does so exactly if every reservation that the observer then shows can be
  given back by the tables, having valid atoms, no owner, a status with a text and a description without NUL, and no
  reservation that it does not show has atoms in them (`ViewsAndTables.CommitInStepIff`). It is enough, and for a
  single operation exact, that stored reservations are of that kind and that an update neither empties a stored
  reservation nor names a deleted one (`Replication.ExecuteInStepIff`, `ViewsAndTables.InStepCommitsInStep`). Batches
  that are rolled back may contain anything. A deletion prepares two statements of which only the first is executed, so
  the row of a deleted reservation stays, and an update of it succeeds without any observer being told to add it
  (`Replication.DeletedComesBack`). The converse directions are about operations without null periods, whose rows the
  query may return in more than one order.
- A frame is read back as its message exactly if the message is shorter than 2^32 bytes (`Framing.FrameIsReadIff`).
- A dragged reservation would be accepted at every moment of a run exactly if, whenever a drag began, the reservation
  pressed was the first on the board with its identifier, and whenever the ghost entered its original room, that room
  was free of everything but the reservation to be replaced (`MoveReservationTools.ReleasableThroughoutIff`). The tool
  checks the latter for every room but the original one. It holds throughout if the original stays on the board
  (`MoveReservationTools.ConsiderateIsSafe`); if it does not, the tool can be made to commit an overlap
  (`MoveReservationTools.RemovedOriginalBreaksRelease`).
- fas/future.h:178 says that continuations which have not started when a future is reset are not executed. A job looks
  at the cancellation token and then calls its function without a lock, so a function can start after the reset has
  returned (`Futures.StartsAfterCancel`): exactly if its job was between the look and the call
  (`Futures.StartAfterCancelIff`), and then once.
- The same holds of the stages of a stream: after a reset a stage still receives a value exactly if the job before it
  was between its look at the token and the call (`Streams.ValueAfterCancelIff`), and then one
  (`Streams.CanceledRunsStop`); `Streams.DeliversAfterCancel` is a run in which that happens.

Dates are day numbers in the range of the date library, periods are half-open. Parameters stand for what the model
does not see: the current day, the row under the mouse, whether shift is held, the name entered in a dialog, and what
the date library answers when asked whether the special period of a reservation without atoms is null.

## Model

| member | source | states |
|---|---|---|
| `BipartiteMatching.MaxBipartiteMatchState.TryAugment` | extern/googletest-release-1.8.0/googlemock/src/gmock-matchers.cc:259-285 | terminates; on success the left node and all nodes matched before are matched, with both arrays mutually inverse and the dead nodes of earlier searches untouched; on failure nothing changes and everything it explored is closed under edges |
| `BipartiteMatching.MaxBipartiteMatchState.Compute` | extern/googletest-release-1.8.0/googlemock/src/gmock-matchers.cc:207-238 | the result is a matching along edges of the graph, and no matching is larger, although each left node is searched from once |
| `BipartiteMatching.MaxBipartiteMatchState.ReadPairs` | extern/googletest-release-1.8.0/googlemock/src/gmock-matchers.cc:231-237 | the pairs read off are a matching and are exactly the matched left nodes |
| `BipartiteMatching.AugmentThrough` | extern/googletest-release-1.8.0/googlemock/src/gmock-matchers.cc:277-281 | an edge into a matched right node extends the augmentation found behind it, whatever that one rearranged |
| `BipartiteMatching.Spread` | extern/googletest-release-1.8.0/googlemock/src/gmock-matchers.cc:214-221 | a failed search enlarges the pair of dead node sets that no later search can get out of |
| `BipartiteMatching.CoverBound` | extern/googletest-release-1.8.0/googlemock/src/gmock-matchers.cc:206-238 | no matching is larger than a set of nodes that touches all of its pairs |
| `BipartiteMatching.CoverAttained` | extern/googletest-release-1.8.0/googlemock/src/gmock-matchers.cc:214-237 | the dead right nodes and the live left nodes touch every edge of the graph and are no more than the pairs found |
| `BipartiteMatching.FindMaxBipartiteMatching` | extern/googletest-release-1.8.0/googlemock/src/gmock-matchers.cc:307-310 | for every graph, a matching of maximum size |
| `BipartiteMatching.FindPairing` | extern/googletest-release-1.8.0/googlemock/src/gmock-matchers.cc:328-357 | true exactly if some matching covers every matcher |
| `Streams.StreamState.PopValue` | fas/stream.h:55-66 | takes the oldest item, if any, and marks the state as busy with it |
| `Streams.StreamState.FinishedProcessingPoppedValue` | fas/stream.h:68-74 | ends the processing and says whether the caller has to run the continuation again |
| `Streams.StreamState.PushValue` | fas/stream.h:76-87 | appends, and makes the caller run the continuation exactly if the queue was empty, nothing was in process and there is one |
| `Streams.StreamState.Close` | fas/stream.h:89-101 | appends the end of the stream, with the same hand-over as a value |
| `Streams.StreamState.Chain` | fas/stream.h:106-116 | attaches the continuation, and makes the caller run it exactly if items are waiting |
| `Streams.AssertionsNeverFail` | fas/stream.h:55-116 | in every reachable state none of the assertions of the locked regions can fail: nothing is pushed after the end, no continuation runs on an empty or busy state, none is attached twice |
| `Streams.StepKeepsInv` | fas/stream.h:150-186 | the run token: exactly one thread is to run a continuation if it is attached, idle and has an item, and otherwise none; each stage holds exactly the mapped items that left the stage before it |
| `Streams.Reachable` | fas/stream.h:242-296 | over every trace, the first stage has seen exactly what the producer sent |
| `Streams.ReceivesPrefix` | fas/stream.h:150-186 | what a stage has received is a prefix of the mapped input, and the whole of it once the stage has ended |
| `Streams.PipelineDeliversInOrder` | fas/stream.h:55-186 | under every interleaving, every order of jobs and cancellation at any time: each stage has received a prefix, in order, of the mapped input, and all of it if it has received the end; what cancellation stops is the matter of `Streams.CanceledRunsStop` |
| `Streams.QuiescentIsComplete` | fas/stream.h:150-186 | with no obligation left and no cancellation, every stage has received everything and every queue with a continuation is empty |
| `Streams.StepCosts` | fas/stream.h:150-186 | every step of a continuation or a job lowers the amount of work left |
| `Streams.WorkIsBounded` | fas/queueexecutor.h:27-57 | any run of the executors, in any order of jobs, ends after a bounded number of steps |
| `Streams.Drains` | fas/queueexecutor.h:27-57 | from every reachable state the outstanding work can be run to the end |
| `Streams.SomethingToDo` | fas/stream.h:55-116 | a pipeline that is not quiescent has a step to make: no hand-over is lost |
| `Streams.AtMostOneJob` | fas/stream.h:55-116 | each stage has at most one outstanding hand-over or job, and a hand-over exactly if the run token says so |
| `Streams.GetsTakeInOrder` | fas/stream.h:229-239 | calls of get take the items that wait in their order and touch nothing else |
| `Streams.ConsumerGetsAll` | fas/stream.h:150-239 | once nothing is outstanding, a consumer who gets what waits has been given the whole input, mapped by every stage, and the end with it |
| `Streams.NoValueAfterCancel` | fas/stream.h:171-179 | however a cancelled pipeline goes on, each stage after the first receives at most one more value, and only if the job before it had already looked at the token; what it has received stays |
| `Streams.ValueAfterCancelIff` | fas/stream.h:171-179 | in a cancelled pipeline some run still brings a value to a stage exactly if the job before it is between its look at the token and the call |
| `Streams.CanceledRunsStop` | fas/stream.h:171-221 | over every run of the program, from the moment of its cancellation: at most one value more per stage, and only under that condition |
| `Streams.DeliversAfterCancel` | fas/stream.h:172-176 | a run in which a value arrives after the cancellation |
| `Futures.FutureState.Next` | fas/future.h:45-49 | hands out the stored continuation, once |
| `Futures.FutureState.Chain` | fas/future.h:50-59 | stores the continuation of a pending state, and hands that of a completed one back |
| `Futures.FutureState.SetValue` | fas/future.h:60-68 | completes a pending state with a value |
| `Futures.FutureState.SetCanceled` | fas/future.h:69-77 | completes a pending state as cancelled |
| `Futures.AssertionsNeverFail` | fas/future.h:45-88 | with then racing resolve and cancellation at any time, no state is set twice, no continuation is attached twice, and no value is extracted from a cancelled state |
| `Futures.StepKeepsInv` | fas/future.h:119-143 | the continuation of a stage is in exactly one place until it has completed the next stage |
| `Futures.ValuesAreComposed` | fas/future.h:119-143 | a stage with a value holds the composition of the functions up to it, each started once |
| `Futures.CanceledStagesAreASuffix` | fas/future.h:119-143 | completed stages are a prefix of the chain, and behind a cancelled stage every completed one is cancelled |
| `Futures.QuiescentIsComplete` | fas/future.cpp:5-9 | with no obligation left, a resolved chain is completed throughout, with the composed values if it was not cancelled |
| `Futures.StepCosts` | fas/future.cpp:5-9 | every step of a continuation lowers the amount of work left |
| `Futures.WorkIsBounded` | fas/future.cpp:5-9 | the steps of the continuations are bounded |
| `Futures.NoStartAfterCancel` | fas/future.h:132-137 | after cancellation, over every run, only a function whose job had already looked at the token starts, and only once |
| `Futures.StartAfterCancelIff` | fas/future.h:132-137 | in a cancelled chain some run still starts a function exactly if its job is between its look at the token and the call |
| `Futures.StartsAfterCancel` | fas/future.h:132-137 | a run in which a function starts after the cancellation, against what the comment on reset promises |
| `Futures.FirstStageHoldsResolved` | fas/future.h:250-254 | the first stage holds the value the promise was resolved with |
| `Futures.ChainIsSafe` | fas/future.h:180-254 | over every run: each state set at most once, each function started at most once, cancelled only after cancellation, and a value only as the composition of the functions on the resolved value |
| `Cancellation.CallbacksRunOnce` | fas/cancellation.h:34-57 | no callback runs before cancellation, none more often than it subscribed, and after cancellation each exactly as often, also if it subscribes during the cancellation |
| `Cancellation.CalledAsSubscribed` | fas/cancellation.h:34-57 | once someone has cancelled and is through, what has been called are exactly the callbacks that were ever passed in, however the calls were interleaved; if nobody has, none |
| `Cancellation.CancellationTokenState.Cancel` | fas/cancellation.h:34-43 | the first cancellation runs all callbacks in order and clears them, a later one changes nothing |
| `Cancellation.CancellationTokenState.Subscribe` | fas/cancellation.h:45-57 | a callback runs at once on a cancelled token and is kept otherwise |
| `ThreadedExecutors.NeverSleepsOnWork` | fas/threadedexecutor.h:28-63 | jobs run in spawn order and at most once; a sleeping thread with no notification due has nothing to do |
| `ThreadedExecutors.StepKeepsInv` | fas/threadedexecutor.h:47-75 | whenever the thread sleeps with a job or the end before it, a notification is still due |
| `ThreadedExecutors.RunsAreBounded` | fas/threadedexecutor.h:47-63 | without new jobs the executor comes to rest |
| `ThreadedExecutors.StopsOnlyWhenDone` | fas/threadedexecutor.h:47-75 | at rest it has run every job, or has ended because it was told to |
| `ThreadedExecutors.RunsWhatWasSpawned` | fas/threadedexecutor.h:28-75 | once nothing is left to do, the jobs run are exactly those that the callers spawned, in order, unless one of them called stop; then the thread has ended |
| `ThreadedExecutors.StartsNothingAfterStop` | fas/threadedexecutor.h:52-60 | once told to stop, over any run, the executor starts no further job, whatever waits or is still spawned |
| `ThreadedExecutors.ThreadedExecutor.Spawn` | fas/threadedexecutor.h:28-38 | the locked region is the machine's step, and asks for a notification exactly if one becomes due |
| `ThreadedExecutors.ThreadedExecutor.Take` | fas/threadedexecutor.h:52-60 | the locked region of the thread is the machine's step |
| `Reservations.Reservation.AddAtom` | hotel/reservation.cpp:23-34 | to an empty or valid list an atom is added exactly if the longer list is valid, and that list is the result; otherwise it is refused and nothing changes |
| `Reservations.Reservation.AddContinuation` | hotel/reservation.cpp:38-49 | an atom from the end of the last one is added exactly if the longer list is valid, and that list is the result; otherwise, or without a last atom, it is refused and nothing changes |
| `Reservations.Reservation.JoinAdjacentAtoms` | hotel/reservation.cpp:51-66 | the erasing loop terminates with the joined list |
| `Reservations.JoinKeepsMeaning` | hotel/reservation.cpp:51-66 | joining keeps validity, the room of every day and the length, and leaves no neighbours in the same room |
| `Reservations.JoinIsCanonical` | hotel/reservation.cpp:51-66 | two valid reservations have the same room on every day exactly if they join to the same atoms |
| `Reservations.JoinedIsUnique` | hotel/reservation.cpp:51-66 | joined lists with the same rooms are equal |
| `Reservations.RoomOnRange` | hotel/reservation.cpp:112-138 | a valid reservation has a room on exactly the days from its first begin to its last end |
| `Reservations.AtomsAscend` | hotel/reservation.cpp:112-130 | the atoms of a valid reservation do not overlap one another |
| `Reservations.RoomOnAppended` | hotel/reservation.cpp:23-34 | a further atom gives its room to its own days and leaves the others as they are |
| `Reservations.LengthCountsDays` | hotel/reservation.cpp:132-138 | the length is the number of days on which there is a room |
| `Reservations.Reservation.IsValid` | hotel/reservation.cpp:112-130 | decides validity |
| `Reservations.Reservation.IntersectsWith` | hotel/reservation.cpp:102-110 | true exactly if two atoms share a room and a day |
| `Occupancy.IntersectsIffSharedDay` | hotel/planning.cpp:105-115 | two periods intersect exactly if they share a day |
| `Occupancy.IntersectIffSharedRoom` | hotel/reservation.cpp:102-110 | valid reservations intersect exactly if some day finds both in the same room |
| `Occupancy.FreeRunIsFreeDays` | hotel/planning.cpp:117-133 | a number is the count of free days exactly if that many days are free and the next one is not, or none follows |
| `Occupancy.FreeDaysAreFree` | hotel/planning.cpp:105-133 | the count of free days agrees with the linear check: a period is free exactly if it is no longer than the count |
| `Occupancy.AddKeepsDisjoint` | hotel/planning.cpp:95-103 | checking each atom against the board keeps all reservations disjoint |
| `Occupancy.DisjointCanBeAdded` | hotel/planning.cpp:95-103 | and never refuses a reservation that is |
| `Planning.PlanningBoard.IsFree` | hotel/planning.cpp:105-115 | the check of the room's index decides whether any atom on the board intersects the period in that room |
| `Planning.PlanningBoard.CanAddReservation` | hotel/planning.cpp:95-103 | true exactly for a valid reservation all of whose atoms are free |
| `Planning.PlanningBoard.GetAvailableDaysFrom` | hotel/planning.cpp:117-133 | the bisection over atom ends finds exactly the number of free days, and the maximum int if no atom follows |
| `Planning.PlanningBoard.BisectionMeetsFreeDays` | hotel/planning.cpp:123-132 | the first atom that ends after the date decides the number of free days |
| `Planning.PlanningBoard.RowBeyond` | hotel/planning.cpp:206-213 | in an index sorted by begin and disjoint, the ends are sorted too |
| `Planning.PlanningBoard.GetPlanningExtent` | hotel/planning.cpp:180-204 | the least period covering all reservations, or the empty one at the current day |
| `Planning.PlanningBoard.InsertAtom` | hotel/planning.cpp:206-213 | the room's index stays exact, sorted and disjoint |
| `Planning.PlanningBoard.AddReservation` | hotel/planning.cpp:31-46 | adds at the end exactly a reservation that fits, and otherwise changes nothing; every index stays exact, sorted and disjoint |
| `Planning.PlanningBoard.RemoveReservation` | hotel/planning.cpp:48-67 | removes exactly this reservation and its atoms |
| `Planning.PlanningBoard.RemoveReservationById` | hotel/planning.cpp:69-87 | removes exactly the first reservation with the identifier and its atoms |
| `Planning.PlanningBoard.Clear` | hotel/planning.cpp:89-93 | leaves a valid empty board |
| `Planning.AddThenRemove` | hotel/planning.cpp:31-67 | removing what was just added restores the board and, for all arguments, whether a room is free, its number of free days, and the extent |
| `Planning.AddThenRemoveByIdIff` | hotel/planning.cpp:69-87 | removing by identifier takes back what was just added exactly if no reservation had the identifier before |
| `Planning.AddThenRemoveById` | hotel/planning.cpp:31-87 | the same of the board: its contents are as before exactly if nothing was added or the identifier was new |
| `NewReservationTools.NewReservationTool.ComputeMaximumDate` | gui/planningwidget/newreservationtool.cpp:206-230 | the narrowing loop finds the first day taken on the board or by a ghost |
| `NewReservationTools.NewReservationTool.MousePressEvent` | gui/planningwidget/newreservationtool.cpp:52-78 | a new ghost exactly over a room with a free day |
| `NewReservationTools.NewReservationTool.MouseMoveEvent` | gui/planningwidget/newreservationtool.cpp:91-144 | the last atom is replaced, or one in another room appended, clamped to the free days |
| `NewReservationTools.NewReservationTool.MouseReleaseEvent` | gui/planningwidget/newreservationtool.cpp:80-89 | the current ghost is kept unless it is empty |
| `NewReservationTools.NewReservationTool.BackspacePressed` | gui/planningwidget/newreservationtool.cpp:157-161 | drops the last ghost, and nothing during a drag |
| `NewReservationTools.NewReservationTool.EscapePressed` | gui/planningwidget/newreservationtool.cpp:152-156 | drops all ghosts, and nothing during a drag |
| `NewReservationTools.NewReservationTool.EnterPressed` | gui/planningwidget/newreservationtool.cpp:162-186 | queues each ghost, in order, as a new reservation with the description entered and its atoms, unless a drag is under way or no description was entered; the board would accept them one after another |
| `NewReservationTools.NewReservationTool.ReservationAdded` | gui/planningwidget/newreservationtool.cpp:36-50 | drops exactly the ghosts that the new reservation intersects |
| `NewReservationTools.DragKeepsOk` | gui/planningwidget/newreservationtool.cpp:91-144 | adding the atom never throws, and the dragged ghost stays clear of the board and of the other ghosts |
| `NewReservationTools.PressStartsIff` | gui/planningwidget/newreservationtool.cpp:62-69 | a press begins a ghost in the room and on the day under the mouse, exactly if neither the board nor a ghost holds the room on that day |
| `NewReservationTools.DragDraws` | gui/planningwidget/newreservationtool.cpp:91-144 | day by day: before the stroke begins the ghost keeps its rooms; from there on it holds the room of the stroke on exactly the days before the date under the mouse up to which no day is taken on the board or by a ghost |
| `NewReservationTools.MovesDraw` | gui/planningwidget/newreservationtool.cpp:91-144 | over any moves within one room only the last position counts: the ghost holds the room from the day pressed to there, as far as that is free |
| `NewReservationTools.DrawnIsQueued` | gui/planningwidget/newreservationtool.cpp:52-189 | press, any drag within the room, release and a description: what is queued are the earlier ghosts and one new reservation from the day pressed to the last date or the first day taken; with backspace instead, everything is as before |
| `NewReservationTools.EmptyDragIsForgottenIff` | gui/planningwidget/newreservationtool.cpp:80-89 | a drag that ends on or before the day pressed leaves everything as before, exactly if the special period of a reservation without atoms counts as null |
| `NewReservationTools.OnlyDrawnIsQueued` | gui/planningwidget/newreservationtool.cpp:80-186 | over any run, if it does, no empty ghost is kept and every reservation queued is valid |
| `NewReservationTools.GhostsAreNotLost` | gui/planningwidget/newreservationtool.cpp:80-189 | over any run, a released ghost is still there or has been queued with its atoms as a new reservation, unless it was discarded by a key, unloading, or a reservation that intersects it |
| `NewReservationTools.EscapeDropsAll` | gui/planningwidget/newreservationtool.cpp:152-161 | escape does what dropping the ghosts one by one does |
| `NewReservationTools.AddedDropsIff` | gui/planningwidget/newreservationtool.cpp:36-50 | a new reservation makes the tool give up exactly the ghosts with which it shares a room on some day |
| `NewReservationTools.StepKeepsOk` | gui/planningwidget/newreservationtool.cpp:36-189 | every event and every board change keeps ghosts and board mutually disjoint |
| `NewReservationTools.CompatibleAreAccepted` | hotel/planning.cpp:95-103 | reservations that are disjoint from the board and from each other are accepted one after another |
| `NewReservationTools.GhostsAlwaysFit` | gui/planningwidget/newreservationtool.cpp:36-230 | after any run of press, drag, release, key, add and remove events, all ghosts with atoms, the dragged one included, could be added to the board one after another, and no drag of the run has thrown |
| `NewReservationTools.Context.AddReservation` | gui/planningwidget/context.cpp:37-44 | the tool is told before the board changes, whether or not the board accepts |
| `NewReservationTools.Context.RemoveReservation` | gui/planningwidget/context.cpp:52-57 | the board loses the reservation and the tool keeps its ghosts |
| `NewReservationTools.RemoveTakesBackAdd` | gui/planningwidget/context.cpp:37-57 | a reservation accepted under a new identifier is on the board, and removing that identifier takes exactly it away again |
| `MoveReservationTools.MoveReservationTool.AtomMousePressEvent` | gui/planningwidget/movereservationtool.cpp:37-59 | starts a drag with a temporary copy of the reservation, unless one is under way |
| `MoveReservationTools.MoveReservationTool.MouseMoveEvent` | gui/planningwidget/movereservationtool.cpp:75-96 | moves the atom exactly to a free room or back to its own |
| `MoveReservationTools.MoveReservationTool.MouseReleaseEvent` | gui/planningwidget/movereservationtool.cpp:61-73 | queues the joined copy with its original status |
| `MoveReservationTools.MoveReservationTool.ReservationAdded` | gui/planningwidget/movereservationtool.cpp:30-35 | gives up the drag exactly if the new reservation intersects the copy |
| `MoveReservationTools.MoveKeepsClearIff` | gui/planningwidget/movereservationtool.cpp:88-93 | a move keeps the copy clear of the others exactly if the room is free of them for the period |
| `MoveReservationTools.StepKeepsOk` | gui/planningwidget/movereservationtool.cpp:30-96 | while the original stays on the board, every event keeps the copy clear of everything else |
| `MoveReservationTools.JoinKeepsClear` | hotel/reservation.cpp:51-66 | joining changes nothing about what a reservation intersects |
| `MoveReservationTools.CommittedFits` | gui/planningwidget/movereservationtool.cpp:61-73 | the committed reservation occupies the rooms of the copy, and the board accepts it in place of the original |
| `MoveReservationTools.ReleaseIsAccepted` | gui/planningwidget/movereservationtool.cpp:30-96 | after any run in which the original stays, the release gives a valid reservation that the board accepts once the original is removed |
| `MoveReservationTools.ReleaseUpdatesOriginal` | gui/planningwidget/movereservationtool.cpp:61-73 | a release ends the drag and queues exactly one update of the original on the board: the same identifier, revision, status and other data, and the same rooms but for the nights of the atom pressed |
| `MoveReservationTools.MoveIsQueued` | gui/planningwidget/movereservationtool.cpp:37-96 | press, any moves and release: all that changes is that one such update is queued, with the atom in the last room under the mouse that was free or its own; with unloading instead, everything is as before |
| `MoveReservationTools.QueuedPerRelease` | gui/planningwidget/movereservationtool.cpp:30-96 | over any run, also if the original goes away: each release during a drag queues one update of the reservation that was pressed, as it was then, and no other event queues anything |
| `MoveReservationTools.AddDropsIff` | gui/planningwidget/movereservationtool.cpp:30-35 | the drag is given up exactly if the new reservation shares a room on some day with the ghost |
| `MoveReservationTools.ReleasableIffClear` | gui/planningwidget/movereservationtool.cpp:61-73 | whether the original is there or not, the board accepts a release exactly if the ghost misses everything but the reservation it replaces |
| `MoveReservationTools.StepReleasableIff` | gui/planningwidget/movereservationtool.cpp:30-96 | an event leaves the ghost releasable exactly if it is safe: a press takes the first reservation with the identifier, the original room is entered only while free of the others |
| `MoveReservationTools.ReleasableThroughoutIff` | gui/planningwidget/movereservationtool.cpp:30-96 | over any run, with the original coming and going, a release would be accepted at every moment exactly if every event was safe |
| `MoveReservationTools.ConsiderateIsSafe` | gui/planningwidget/movereservationtool.cpp:88-93 | while the original stays on the board every event is safe |
| `MoveReservationTools.RemovedOriginalBreaksRelease` | gui/planningwidget/movereservationtool.cpp:88-93 | if the original is removed and its place taken during the drag, moving back commits an overlap |
| `Storage.StatusRoundTrip` | persistence/sqlite/sqlitestorage.cpp:20-65 | a status survives its text exactly if it is not Temporary |
| `Storage.TextIsWholeIff` | persistence/sqlite/sqlitestatement.cpp:72-77 | a text comes back whole exactly if it contains no NUL, at which reading stops |
| `StorageEffects.HeaderRoundTrip` | persistence/sqlite/sqlitestorage.cpp:165-216 | everything of a reservation but its atoms comes back from its row exactly if it has no owner, a status with a text and a description without NUL |
| `Storage.OneContinuation` | hotel/reservation.cpp:38-49 | in the fold a continuation is accepted and rebuilds the begin date that the fold ignores |
| `Storage.FoldGroup` | persistence/sqlite/sqlitestorage.cpp:173-208 | the rows of one reservation fold back into exactly that reservation |
| `Storage.LoadAllIsContent` | persistence/sqlite/sqlitestorage.cpp:166-216 | rows that were written in order are regrouped into their reservations, by identifier; no continuation throws |
| `Storage.ShuffledLoadsAlike` | persistence/sqlite/sqlitestorage.cpp:434-443 | in whatever order the atom rows lie in the table, ordering by reservation and date gives the same reservations, all of them or one |
| `StorageEffects.ListRoundTrip` | persistence/sqlite/sqlitestorage.cpp:165-216 | every list of storable reservations survives being stored as rows, shuffled, ordered by reservation and date, and regrouped, with its new identifiers |
| `Storage.LoadByIdIsStored` | persistence/sqlite/sqlitestorage.cpp:277-315 | loading one reservation finds it exactly if loading all does |
| `SqliteStorages.SqliteStorage.StoreNewReservationAndAtoms` | persistence/sqlite/sqlitestorage.cpp:339-352 | a row and the atoms in order, with the next identifiers and revision 1 |
| `SqliteStorages.SqliteStorage.UpdateReservation` | persistence/sqlite/sqlitestorage.cpp:369-392 | replaces row and atoms exactly if identifier and revision match, and otherwise changes nothing |
| `SqliteStorages.SqliteStorage.DeleteReservationById` | persistence/sqlite/sqlitestorage.cpp:450-451 | the atoms go and the row stays |
| `SqliteStorages.SqliteStorage.LoadAllReservations` | persistence/sqlite/sqlitestorage.cpp:166-216 | the row loop is the fold |
| `SqliteStorages.SqliteStorage.LoadReservationById` | persistence/sqlite/sqlitestorage.cpp:277-315 | the row loop is the same fold on one reservation's rows |
| `SqliteStorages.SqliteStorage.RollbackTransaction` | persistence/sqlite/sqlitestorage.cpp:414-416 | restores the tables as they were when the transaction began |
| `StorageEffects.StoreNewEffect` | persistence/sqlite/sqlitestorage.cpp:339-352 | storing appends the reservation, as it was given back, to what loading returns |
| `StorageEffects.UpdateEffect` | persistence/sqlite/sqlitestorage.cpp:369-392 | updating replaces the reservation in its place in what loading returns |
| `StorageEffects.DeleteEffect` | persistence/sqlite/sqlitestorage.cpp:101-104 | deleting takes exactly this reservation out of what loading returns |
| `StorageEffects.StoreNewInStepIff` | persistence/sqlite/sqlitestorage.cpp:339-352 | adding the published reservation to a list gives what loading returns exactly if it is storable |
| `StorageEffects.UpdateInStepIff` | persistence/sqlite/sqlitestorage.cpp:369-392 | overwriting with the published reservation gives what loading returns exactly if the update neither revives nor empties a reservation and is storable |
| `Changes.VectorDataStreamObserver.AddItems` | persistence/datastreamobserver.h:59-62 | appends the items in order |
| `Changes.VectorDataStreamObserver.UpdateItems` | persistence/datastreamobserver.h:63-73 | each item overwrites the first with its identifier and is dropped if there is none |
| `Changes.VectorDataStreamObserver.RemoveItems` | persistence/datastreamobserver.h:74-79 | removes exactly the items with these identifiers, keeping the order |
| `Changes.ReplayConcat` | persistence/changequeue.cpp:15-35 | replaying in two rounds is replaying at once |
| `Changes.FilterCommutes` | persistence/sqlite/sqlitebackend.cpp:62-138 | for every change, what the handler for one identifier sends does to the filtered list what the change does to the whole list |
| `Changes.ToldIffMentioned` | persistence/sqlite/sqlitebackend.cpp:62-138 | a stream for one identifier is told of a change exactly if the change mentions that identifier, once, and of nothing else |
| `DataStreams.DataStream.ApplyChange` | persistence/datastream.h:70-86 | the observer replays the change, and a disconnected stream ignores it |
| `DataStreams.ChangeQueue.ApplyStreamChanges` | persistence/changequeue.cpp:15-35 | every listening observer replays the queued changes of its streams, each once and in order, the queue is emptied and disconnected streams are dropped |
| `DataStreams.OnlyStreamOf` | persistence/changequeue.cpp:15-35 | for an observer of one stream these are that stream's changes |
| `DataStreams.ChangeQueue.AddChanges` | persistence/changequeue.cpp:37-46 | a list of changes is queued contiguously |
| `DataStreams.ChangeQueue.HasUninitializedStreams` | persistence/changequeue.cpp:9-13 | true exactly if some stream lacks its initial data |
| `SqliteBackends.Handle` | persistence/sqlite/sqlitebackend.cpp:29-124 | the default handler passes everything on, the other one filters and sends nothing empty |
| `SqliteBackends.LoadFor` | persistence/sqlite/sqlitebackend.cpp:53-59 | a new stream is sent its part of the tables, then the mark that it is complete, unless loading throws |
| `SqliteBackends.DataStreamManager.Initialize` | persistence/sqlite/sqlitebackend.cpp:164-187 | the new streams become active behind the others, and their snapshots are queued in order, up to the first whose loading throws |
| `SqliteBackends.WellFormedIsLoadable` | persistence/sqlite/sqlitebackend.cpp:164-187 | from well-formed tables, which every reachable state has, all of them are |
| `SqliteBackends.DataStreamManager.ForeachStream` | persistence/sqlite/sqlitebackend.cpp:194-234 | every active stream is told, in order |
| `SqliteBackends.DataStreamManager.RemoveStream` | persistence/sqlite/sqlitebackend.cpp:156-162 | the stream leaves both lists and the others keep their order |
| `SqliteBackends.SqliteBackend.CreateStream` | persistence/sqlite/sqlitebackend.cpp:288-304 | a connected stream with the next identifier, known to the change queue and waiting for its snapshot |
| `SqliteBackends.SqliteBackend.ExecuteOperation` | persistence/sqlite/sqlitebackend.cpp:362-468 | every operation changes the tables, answers and tells the active streams as the state machine says, error answers included |
| `SqliteBackends.SqliteBackend.ProcessBatch` | persistence/sqlite/sqlitebackend.cpp:326-358 | a batch commits all of its operations and queues all of their changes contiguously and in order, or leaves tables and queue as they were: the tables are then those of the serial execution |
| `Replication.EveryIsShown` | persistence/sqlite/sqlitebackend.cpp:189-234 | what is published to one stream does to its part of a list what the changes do to the list |
| `SqliteBackends.BatchIsShown` | persistence/sqlite/sqlitebackend.cpp:326-358 | a stream whose observer and queued changes show the tables still does after a committed batch in step |
| `SqliteBackends.PublishToIsPublishAll` | persistence/sqlite/sqlitebackend.cpp:189-234 | the loop over the active streams and the step of the state machine publish the same |
| `Replication.ExecuteEffect` | persistence/sqlite/sqlitebackend.cpp:362-468 | every operation in step does to what loading returns what its change does to a list |
| `Replication.ExecuteInStepIff` | persistence/sqlite/sqlitebackend.cpp:362-468 | and being in step is the exact condition for that, for operations without null periods |
| `Replication.DeletedComesBack` | persistence/sqlite/sqlitestorage.cpp:450-451 | after a deletion an update from the old revision succeeds and the observers' lists miss what loading returns |
| `Replication.StaleUpdateIsRefused` | persistence/sqlite/sqlitestorage.cpp:369-378 | of two updates made from the same revision the second is refused |
| `Replication.ResultsEndAtError` | persistence/sqlite/sqlitebackend.cpp:332-346 | a batch gives one result for each operation, or ends at the first error |
| `Replication.RunSnoc` | persistence/sqlite/sqlitebackend.cpp:332-346 | executing one operation more continues the results and the changes of the batch |
| `Replication.RunStops` | persistence/sqlite/sqlitebackend.cpp:341-345 | what comes after the first error of a batch is not executed |
| `Replication.BatchEffect` | persistence/sqlite/sqlitebackend.cpp:326-358 | replaying the changes of a committed batch onto what loading returned gives what it returns afterwards |
| `Replication.SnapshotShowsTheStore` | persistence/sqlite/sqlitebackend.cpp:53-59 | loading never fails, and a snapshot turns the empty list into the stream's part of the tables |
| `Replication.ForPublishAll` | persistence/sqlite/sqlitebackend.cpp:194-204 | every active stream is told exactly once, no other stream is |
| `Answers.StoreAnswersNewId` | persistence/sqlite/sqlitebackend.cpp:391-397 | a reservation is always stored; the answer carries an identifier not used since everything was last erased, the reservation is published under it with revision 1 and otherwise as given, and loading finds it there |
| `Answers.StoredUnderAnswer` | persistence/sqlite/sqlitebackend.cpp:391-397 | loading finds under the identifier answered the reservation as it was given, if that can be stored |
| `Answers.DeleteAnswersItsId` | persistence/sqlite/sqlitebackend.cpp:452-468 | a deletion answers with and publishes the identifier asked for, which loading then misses, and only that |
| `Answers.ResultAt` | persistence/sqlite/sqlitebackend.cpp:332-346 | each result of a batch is that of its own operation, on the tables left by those before it |
| `Answers.AnswersAreMeant` | persistence/sqlite/sqlitebackend.cpp:332-346 | so the identifiers in the results of a batch are, by position, those under which its reservations were stored or deleted |
| `Answers.IdsAreGivenOnce` | persistence/sqlite/sqlitestorage.cpp:342-345 | within a batch no identifier is answered twice, unless everything is erased in between |
| `Answers.UpdateSucceedsIff` | persistence/sqlite/sqlitebackend.cpp:411-450 | an update succeeds exactly if the tables have its revision, and is published as the next one; otherwise nothing is changed or published |
| `Answers.PublishedIsUpdatableIff` | persistence/sqlite/sqlitestorage.cpp:370-392 | after any operation that publishes a reservation, exactly the published revision can be updated |
| `Answers.ExecuteKeepsAtomIds` | persistence/sqlite/sqlitestorage.cpp:339-392 | every operation keeps the identifiers of the atoms apart |
| `Answers.PublishedAtomsAreRows` | persistence/sqlite/sqlitestorage.cpp:346-392 | the atoms of what is published have the identifiers of their rows, none of which was in use |
| `ViewsAndTables.BatchKeepsLinked` | persistence/sqlite/sqlitebackend.cpp:326-358 | whatever a batch executes, every reservation that observers show afterwards, in ascending order of identifiers, is what was last written under its identifier |
| `ViewsAndTables.CleanIsLoaded` | persistence/sqlite/sqlitestorage.cpp:165-216 | if all that is shown can be given back and nothing else has atoms, loading returns what is shown |
| `ViewsAndTables.CommitInStepIff` | persistence/sqlite/sqlitebackend.cpp:326-358 | after a committed batch loading returns what observers show exactly under that condition, whatever the single operations did on the way |
| `ViewsAndTables.InStepCommitsInStep` | persistence/sqlite/sqlitebackend.cpp:326-358 | which is met if every operation of the batch is in step when its turn comes |
| `BackendRuns.StepKeepsWired` | persistence/sqlite/sqlitebackend.cpp:164-360 | every step, whatever is executed, keeps: a stream waiting for its snapshot has been sent nothing, any other is going to be sent what the batch under way does to its part of a list, the working tables are those of the executed operations, and no batch is lost, repeated or overtaken |
| `BackendRuns.BatchesAreSerial` | persistence/sqlite/sqlitebackend.cpp:308-360 | over any run the committed tables are those of executing the batches one after another, in the order of queueing and each once, where a batch with an error changes nothing |
| `BackendRuns.StepKeepsInv` | persistence/sqlite/sqlitebackend.cpp:308-360 | every step of the worker and of the main thread, commits being in step, keeps: what a stream was sent shows the committed tables |
| `BackendRuns.ViewPlusPendingIsTheStore` | persistence/sqlite/sqlitebackend.cpp:164-360 | in every reachable state, for every stream with a snapshot, replaying its pending changes onto its observer's list gives exactly its part of what loading the committed tables returns, in the same order, wherever its creation fell among the batches, if the batches that commit are in step |
| `BackendRuns.QuietViewIsTheStore` | persistence/changequeue.cpp:15-35 | with nothing pending the observer's list is its part of the tables, and the stream is marked initialized |
| `BackendRuns.DeliveredOnceInOrder` | persistence/changequeue.cpp:15-54 | over any run, whatever is executed on whatever tables, every published change reaches a listening observer exactly once and in publication order |
| `BackendRuns.RevisionsAreUsedOnce` | persistence/sqlite/sqlitestorage.cpp:369-392 | over any run no two updates made from the same revision of a reservation succeed, until everything is erased, whatever else is executed |
| `BackendRuns.ByIdIsPartOfAll` | persistence/sqlite/sqlitebackend.cpp:62-138 | a stream for one reservation is at all times the filtered stream of all reservations, also when identifiers are used again after an erasure, if the batches that commit are in step |
| `BackendRuns.CommitShownIff` | persistence/sqlite/sqlitebackend.cpp:349-357 | a commit leaves a listening observer of all reservations in step, counting what is pending, exactly if the batch is |
| `BackendRuns.InStepThroughoutIff` | persistence/sqlite/sqlitebackend.cpp:308-360 | over any run such an observer is in step at every moment exactly if every batch that commits is, whatever the batches contain that are rolled back |
| `BackendProgress.WorkerRunsAreBounded` | persistence/sqlite/sqlitebackend.cpp:308-360 | left alone, the worker takes a bounded number of steps before it rests |
| `BackendProgress.WorkerGoesOn` | persistence/sqlite/sqlitebackend.cpp:308-360 | from well-formed tables it can take a step as long as a batch is unprocessed or a stream waits for its snapshot |
| `BackendProgress.RestingIsDone` | persistence/sqlite/sqlitebackend.cpp:308-360 | at rest every batch queued has been processed and every connected stream has had its snapshot |
| `BackendProgress.SettledViews` | persistence/sqlite/sqlitebackend.cpp:288-360 | in terms of what the callers did: with the worker at rest and nothing on its way, each stream that was created and not disconnected shows its part of what loading gives after all batches that were ever queued, one after another, if those that commit are in step |
| `BackendProgress.ConnectedAsAsked` | persistence/sqlite/sqlitebackend.cpp:288-306 | over any run an observer is connected from the creation of its stream until it is disconnected |
| `BackendProgress.DisconnectedIsLeftAlone` | persistence/changequeue.cpp:15-54 | once disconnected, an observer is not changed by any run |
| `BackendProgress.RemovedIsGone` | persistence/sqlite/sqlitebackend.cpp:306 | a stream removed between batches is out of both lists, with nothing left to be published to it |
| `BackendProgress.GoneIsToldNothing` | persistence/sqlite/sqlitebackend.cpp:189-234 | over any run nothing is ever published again to a stream that is gone |
| `ChangeIntegrators.NothingIsStranded` | gui/datasourcechangeintegrator.cpp:18-27 | with no event pending, no handler running and no publisher in its call, everything published has been applied, in order; at most two events are ever pending |
| `ChangeIntegrators.RunsAreBounded` | gui/datasourcechangeintegrator.cpp:18-27 | without further publishing, publishers and handler come to rest |
| `ChangeIntegrators.StopsOnlyWhenApplied` | gui/datasourcechangeintegrator.cpp:18-27 | and then everything that publishers have ever handed over has been applied, in order |
| `ChangeIntegrators.StepKeepsInv` | gui/datasourcechangeintegrator.cpp:18-27 | whenever changes wait, a publisher, a scheduled event or the handler is still going to take them, whatever the flag was before its first use |
| `ChangeIntegrators.ChangeIntegrator.EmitResultsAvailable` | gui/datasourcechangeintegrator.cpp:23-27 | emits exactly if no event is scheduled |
| `Integration.StepKeepsInv` | gui/datasourcechangeintegrator.cpp:18-27 | with the worker as the publisher and the event's handler as the one who applies, both machines keep their invariants and hold the same changes |
| `Integration.RestingViewsAreCurrent` | gui/datasourcechangeintegrator.cpp:8-27 | with no event pending, no handler running and no publisher at work, every listening observer's list equals its part of what loading the committed tables returns, whatever happened before the integrator was made |
| `Framing.HeaderRoundTrip` | persistence/net/netclientbackend.cpp:140-146 | the four header bytes hold the size modulo 2^32 |
| `Framing.FrameIsReadIff` | persistence/net/netclientbackend.cpp:131-161 | a frame is read back as its message exactly if that is shorter than 2^32 bytes |
| `Framing.PiecesDoNotMatter` | server/netclientsession.cpp:92-123 | reading depends on the bytes and not on the pieces in which they arrive |
| `Framing.PiecesAreReadInOrder` | server/netclientsession.cpp:92-123 | from any part of the frames, in any pieces, the first messages are read, and all of them once everything has arrived |
| `Framing.MessageReader.Receive` | server/netclientsession.cpp:92-123 | the two read handlers, calling one another, read everything that can be read |
| `Sending.StepKeepsInv` | persistence/net/netclientbackend.cpp:131-163 | at most one write is under way, it is the frame of the first waiting message, and what was written is the frames of the messages before it |
| `Sending.StallsIffWriteFailed` | persistence/net/netclientbackend.cpp:149-163 | over any run, messages wait on an open connection with no write under way exactly if a write has failed; the queue then stays stalled |
| `Sending.MessagesArriveInOrder` | persistence/net/netclientbackend.cpp:113-163 | whether submitted before or after the connection opens, the messages read at the other end are the first of those submitted, in order, none lost or repeated |
| `Sending.EverythingIsWritten` | persistence/net/netclientbackend.cpp:113-163 | from any state without a failed write, once the connection is up and as many writes have ended as messages wait, the frames of everything that was ever submitted have been written, in order |
| `Sending.NetClientBackend.Submit` | persistence/net/netclientbackend.cpp:248-258 | starts a write exactly if none is under way and the connection is open |
| `Sending.NetClientBackend.DoSubmitMessages` | persistence/net/netclientbackend.cpp:131-148 | the bytes written are the frame of the first waiting message |

## Left out

- Memory: lifetimes, shared ownership, weak references, and reads of raw continuation pointers after they are reset.
- Threads below the level of locked regions: mutexes, atomics and handlers are single steps; blocking waits appear as conditions under which a step is possible.
- Streams and futures: an outstanding obligation may make its next step at any time and in any order, which includes every order a call stack or an executor can produce; exceptions thrown by continuation functions are not modelled.
- Dates: the calendar and the special dates; adding the maximum int of days to a date is a number beyond every date, as the library's positive infinity is.
- `std::sort` is an insertion sort here; the atoms of one index have different begin dates, so every sort gives the same index.
- Changing a reservation through the pointers the planning board gives out: reservations on the board are owned and constant.
- The copy and move assignments of the board and its queries by period.
- The matrix of the matching is a set of edges, and the marker for an unused node is -1; the explanation printed by the pairing is not modelled.
- Hotels and persons in the database; the answer for an update of a person with identifier zero, which is also an error with another text; successful answers' messages.
- Streams with an unknown endpoint, and null streams.
- SQL: the text of the statements, ties in the order of rows with equal dates (only with null periods), failures to open the database; a loading that throws ends the worker thread and with it the run.
- JSON, sockets and the messages' meaning, and replication across the network, whose client does not handle cleared streams.
- The quit flag of the backend's thread, and its sleep: a thread with nothing to do may look again at any time.
- Widgets, layout geometry, painting, dialogs and highlighting; events arrive with room and date.
- Streams.StreamState.ResetContinuation: only drops the continuation after the end of the stream; its order relative to the other steps is in the state machine.
- Reservations.Reservation.RemoveLastAtom: only drops the last atom, and has no row of its own.
- DataStreams.ChangeQueue.ApplyStreamChanges: requires that different streams have different identifiers, as the backend gives them out; the runs give each stream an observer of its own.
- Streams and futures have one type of values for all stages; a sum type covers a pipeline whose stages change it.
