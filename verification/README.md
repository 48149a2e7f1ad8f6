# rsp verification

A Dafny model of the message path of *rsp*, a game server split into a User server, which holds client
sessions, and a Room server, which holds rooms, and proofs of what that path promises: from the bytes a
client connection carries, through the per-session job queue and the request table of the User server, over
an unreliable link, to the request registry, the strands and the room manager of the Room server, and back.

`dafny verify dfyconfig.toml` checks the whole project.

## What is modelled

| module | part of the system |
|---|---|
| `Basics` | shared definitions |
| `Framing` | length-prefixed frames in network byte order (Appendix B of RFC 791) and the incremental parser of a connection |
| `TcpConnection` | egress flow control: byte reservation by any number of threads, the strand-owned write queue, graceful and forced close |
| `QueuedRequests` | the Room server's registry of active and terminal requests, and the ticket that cancel and start race for |
| `Rooms` | rooms with their users, lifecycle and contents log, and the room manager with its two indexes |
| `RoomServer`, `RoomInvariants`, `RoomSteps`, `RoomChannel`, `RoomTheorems`, `RoomHistory`, `RoomAnswers`, `RoomExecutions`, `RoomRecords`, `RoomFrames`, `RoomWitnesses` | the Room server as a state machine, its invariants, what holds of every run, what the labels of a run say about each request, why it answers as it does, when it executes it, what its registry remembers, what each step changes and what it leaves alone, and runs that show the exceptions |
| `JobScheduler` | the per-session job queue |
| `PendingRequests` | the User server's table of requests that await a response |
| `UserServer`, `UserInvariants`, `UserSteps`, `UserCalls`, `UserTheorems`, `UserProgress`, `UserLines`, `UserTurns`, `UserRecords`, `UserTable`, `UserWitnesses`, `RoomJobs` | the User server as a state machine, its invariants, what holds of every run, and two runs |
| `EndToEnd`, `EndToEndLines`, `EndToEndCancels`, `EndToEndTimeouts`, `EndToEndWitnesses` | both servers joined by a network that may delay, reorder and lose messages; that every job gets done; cancels that overtake their asks; and what a timeout means |

Objects that a single thread or lock protects are classes whose methods change their fields; each method is
proved against a function on values. What several threads do together is a state machine whose steps are
those same functions: a label says which thread moves, a disabled label does nothing, and a run is any
sequence of labels. Every theorem about runs is for every sequence of labels.

How fine the steps are:

- Room server: a task on a strand takes up to four steps (win the ticket and change the membership; consult
  the manager; retire the ticket and answer; close an emptied room), and any other thread may move in
  between. Rooms may be spread over any number of strands in any way; the source builds its strands by
  copying one (`rsp-svr/room/include/room/room/room_manager.hpp:164-169`), which the model covers.
- Room server's channel thread: a message is one step. An ask is admitted, looks its room up and is posted, or
  is answered and finished, all at once; nothing that runs in between could tell, since cancels come through
  the same thread, posting goes to the end of a strand, and shutdown is called only after admission has
  stopped (`rsp-svr/room/include/room/room/room_manager.hpp:35-36`).
- User server and its request table: issuing an id with its table entry and handing the message to the channel
  are two steps; taking an entry and running its callback, which sends the cancel, are two steps; shutdown
  cancels one job per step. `expire` and `clear` hold their lock for a whole pass; here each id is a step of
  its own, so the model has more interleavings than the code.
- TCP connection: one atomic access per step of a thread; closing releases one buffer per step.

What is assumed:

- A channel does not duplicate messages, and no other User server has this one's routing identity.
- Request ids and continuation numbers do not wrap at 64 bits.
- Contents callbacks, `channel_.send` and posting to a strand do not throw.
- Room ids may collide when drawn, except in `RoomTheorems.OpenRoomsAreListed` and
  `RoomHistory.EmptiedRoomsAreDestroyed`, which say so.
- Times are arguments. Nothing about them is assumed, except that in `QueuedRequests.DuplicateSuppression`, which
  counts keys, they strictly increase; `QueuedRequests.RecordLasts` is the same law for any clock.

Where the code and what is said of it differ, the model follows the code:

- A terminal record is kept until its expiry if and only if no call crowds it out, that is, writes another
  record when all but one of the `capacity` places hold records that come after it in the order of expiry and
  key (`QueuedRequests.RecordLasts`). With strictly increasing call times that takes `capacity` further keys; with
  calls in the same clock tick the key order decides, and a key can be forgotten after a single further one
  (`QueuedRequests.TiesForgetEarly`).
- The cancel of a request may leave before the request itself, because `send_request` enters it in the table
  first and the timer may find it there (`UserTable.RunsAreTableRuns`, `UserWitnesses.CancelCanLead`).
- A cancel that reaches the Room server before its ask keeps the ask from being executed only while its record
  lasts (`EndToEndCancels.CancelOvertakesAsk`); `EndToEndWitnesses.CancelCanBeForgotten` is a run in which it
  does not last.
- A client that is told of a timeout is told failure, whether or not the Room executed the request
  (`EndToEndTimeouts.WhatATimeoutMeans`, `EndToEndTimeouts.TimeoutAfterJoin`).
- The leave that empties a room destroys it if and only if the room is still registered under its number
  (`RoomHistory.LastLeaveDestroys`): a second room drawn with the same number takes the registration away
  (`RoomWitnesses.NumberDrawnAgain`).
- A started request is answered, except a create that finds the manager stopping, which is retired without an
  answer (`RoomHistory.StartedFirst`, `RoomWitnesses.UnansweredCreate`).
- A request answered with failure may have changed its room: a join inserts and a leave erases the member
  before the manager's index is consulted (`RoomHistory.FailureIsExplained`).

## Model

| member | source | states |
|---|---|---|
| `EndToEnd.RepliesAreTrue` | rsp-svr/user/include/user/intranet/room_channel.hpp:62-90 | over every interleaving of both servers and delayed, reordered or lost messages: a client is told success only if exactly one Room request bears the job's id, it is what the client asked, to the room number asked for, it was executed exactly once and committed, in the room the client is told, and no cancel was sent for it; a failure answer was not committed to the manager's indexes; a response of the wrong kind never arrives |
| `EndToEnd.AnswersHappened` | rsp-svr/room/include/room/room/room_message_handler.hpp:59-128 | in the Room server's own run: a client is answered with success if and only if nothing went wrong with its request there; a success was true of one of its states; and a request whose client was told failure had changed its room all the same if and only if the manager's index refused, in one of its steps, the change it had made |
| `EndToEnd.CancelledInTime` | rsp-svr/user/include/user/intranet/room_channel.hpp:88-140 | a request that was waiting at the Room server when its cancel arrived is never executed or answered, and its client is told at most a timeout's failure |
| `EndToEndCancels.CancelOvertakesAsk` | rsp-libs/include/rsplib/message/queued_requests.hpp:51-70 | and one whose cancel arrives before it, whatever the clocks do: the ask brings a request if and only if the record of the cancel was crowded out in between, or a call in between or the ask itself is at or after its expiry, and there is room among the active ones; otherwise there is never such a request and its client is told at most a timeout's failure |
| `EndToEndWitnesses.CancelCanOvertake` | rsp-svr/user/include/user/intranet/room_channel.hpp:62-86 | a run in which that happens: the request times out between being issued and being sent, its cancel arrives first, and the ask then brings nothing |
| `EndToEndWitnesses.CancelCanBeForgotten` | rsp-libs/include/rsplib/message/queued_requests.hpp:91-100 | and one in which the record of that cancel is crowded out by another server's cancel, and the ask brings a request |
| `EndToEndTimeouts.WhatATimeoutMeans` | rsp-svr/user/include/user/intranet/room_channel.hpp:62-86 | a client told of a timeout is told failure, its request and one cancel have been sent, and the request was executed all the same if and only if the Room holds it and one of the Room's own labels created its room, or was the step in which its strand came to it, the room took it, and no cancel for it had come since its ask |
| `EndToEndTimeouts.TimeoutAfterJoin` | rsp-svr/user/include/user/job/job_join_room.hpp:60-96 | a run in which a client is told of a timeout and its join was executed |
| `EndToEnd.RepliesStayTrue` | rsp-svr/user/include/user/job/job_join_room.hpp:38-102 | what a client was told stays true over every continuation: same request behind it, still no cancel |
| `EndToEnd.RepliesBearTheLogin` | rsp-svr/user/include/user/job/job_join_room.hpp:42-44 | the Room request behind a reply is in the name of the last user the client's session had logged in before that job |
| `EndToEnd.HeadFinishesInEveryRun` | rsp-libs/include/rsplib/message/pending_requests.hpp:68-127 | whatever is lost, delayed or interleaved while the channel is not stopped: in every run that takes the job first in a session's line as far as its posted continuation, or to its shutdown, the job is over if and only if its strand has then taken the steps it still needed |
| `EndToEnd.HeadAlwaysFinishes` | rsp-libs/include/rsplib/message/pending_requests.hpp:89-103 | and such a run, to the end, can always be had with expiries, callbacks and steps of the session's own strand, and nothing else |
| `EndToEndLines.LinesFinishInEveryRun` | rsp-libs/include/rsplib/job/job_scheduler.hpp:39-104 | and so does every job in line: in every run made of turns, each of which gives the job that is then first its due, a job is over after as many turns as there were jobs up to it |
| `EndToEndLines.EveryJobAlwaysFinishes` | rsp-svr/user/include/user/session/session.hpp:116-123 | from every reachable state every job, in line or still to be pushed, can be finished by expiries, callbacks and steps of its own session's strand, and nothing else |
| `EndToEnd.UserProjection` | rsp-svr/user/include/user/intranet/room_channel.hpp:62-145 | what the User server does in a run of both is a run of its own, so what holds of every run of it holds end to end |
| `EndToEnd.RoomProjection` | rsp-svr/room/include/room/intranet/user_channel.hpp:73-121 | and so is what the Room server does |
| `EndToEnd.RunKeeps` | rsp-svr/room/include/room/intranet/user_channel.hpp:73-121 | every run keeps: each Room request of this route was sent by the job that issued its id, at most one per id, and each response taken is the Room's answer to that call |
| `RoomHistory.CancelledFirst` | rsp-libs/include/rsplib/message/queued_requests.hpp:27-42 | a request that still waited when a cancel message with its key had arrived is never executed, committed or answered in any continuation, and no step of its own touches users, routes, contents logs or the manager's indexes |
| `RoomHistory.StartedFirst` | rsp-svr/room/include/room/intranet/user_channel.hpp:91-113 | for every request, create included, and whatever follows the message that brought it: answered exactly once if it is over and its ticket started, unless it is a create that met a stopping manager, and never otherwise |
| `RoomWitnesses.UnansweredCreate` | rsp-svr/room/include/room/room/room_manager.hpp:69-70 | a run in which a create meets a stopping manager, is over and is never answered |
| `RoomHistory.RaceIsDecidedAtBegin` | rsp-svr/room/include/room/room/room.hpp:64-109 | a waiting request's ticket is cancelled if and only if a cancel message with its key arrived since the message that brought it, and when its strand comes to it, it starts if and only if none did |
| `RoomExecutions.ExecutedExactly` | rsp-svr/room/include/room/room/room.hpp:64-109 | in every run a request is executed if and only if one of the labels created its room, or was the step in which its strand came to it, the room took it, and no cancel with its key had arrived since the message that brought it |
| `RoomWitnesses.CancelWins` | rsp-svr/room/include/room/intranet/user_channel.hpp:73-75 | a run in which a cancel finds its join waiting and cancels it |
| `RoomHistory.EveryRequestWasBrought` | rsp-svr/room/include/room/intranet/user_channel.hpp:91-113 | every request in a run was brought by one of its ask messages |
| `RoomTheorems.NoLeakedTickets` | rsp-svr/room/include/room/intranet/user_channel.hpp:91-113 | in every reachable state the active keys are exactly those of requests whose completion has not run, one each; a new key is refused for capacity exactly when that many requests are really outstanding |
| `RoomRecords.RegistryProjection` | rsp-svr/room/include/room/intranet/user_channel.hpp:73-113 | the registry of every run of the Room server is what the calls its steps make leave of it, so what holds of every run of calls holds of it |
| `RoomRecords.RecordedKeysBringNothing` | rsp-libs/include/rsplib/message/queued_requests.hpp:51-59 | in every run a key with a terminal record, of a request that is over or of a cancel that came first, keeps it if and only if no call crowds it out and none comes at or after its expiry (if anything is retained at all); while it stays every ask with that key before its expiry changes nothing but expired records |
| `RoomRecords.CancelRecords` | rsp-libs/include/rsplib/message/queued_requests.hpp:61-70 | a cancel for a key neither active nor remembered leaves a record of it for the full retention, unless the capacity is zero |
| `RoomRecords.CompletionRecords` | rsp-libs/include/rsplib/message/queued_requests.hpp:72-81 | so does the completion of a request on its strand |
| `RoomRecords.ImmediateRecords` | rsp-svr/room/include/room/room/room_message_handler.hpp:49-84 | and that of a create, or of a request for a room that is not there, which is over when its message has been handled |
| `RoomTheorems.Drains` | rsp-libs/include/rsplib/message/queued_requests.hpp:51-81 | from every reachable state every way of running the strands drains them: no sequence of enabled strand steps exceeds the steps left to make, one that long leaves nothing, one can go on exactly while something is left, and then the registry holds no ticket |
| `RoomHistory.SuccessIsApplied` | rsp-svr/room/include/room/room/room_message_handler.hpp:59-84 | an answer of success was executed once under a started ticket, and in some state of the run, the one it committed, the instance was registered and open, the user was in it with the requester's route, and the user index led to it |
| `RoomHistory.FailureIsExplained` | rsp-svr/room/include/room/room/room_message_handler.hpp:76-127 | an answer of failure was not committed, and its request had been executed if and only if the manager's index refused it in one of its steps |
| `RoomAnswers.AnswersAreExact` | rsp-svr/room/include/room/room/room_message_handler.hpp:59-128 | in every run an answer is a success if and only if none of three things happened to its request: no room was registered under the number asked for, or none under the one its leaver was known to be in, when it arrived; its strand found the room not open, or the leaver not among its users; or, when the change had been made, the room was not registered under its number, or the leaver not known to be in it |
| `RoomAnswers.AskMisses` | rsp-svr/room/include/room/room/room_manager.hpp:80-121 | an admitted join waits in exactly the room registered under its number, a leave in exactly the one registered under the number its user is known to be in; if there is none it is over at once |
| `RoomHistory.UnexecutedLeavesNoTrace` | rsp-svr/room/include/room/room/room.hpp:70-103 | none of the steps of a request that was never executed touched a room or an index |
| `RoomTheorems.ContentsTellTheTruth` | rsp-svr/room/include/room/room/room.hpp:64-123 | folding the contents log from the owner gives exactly the users of every room not in the middle of a task; a room is destroyed at most once and hears nothing after; registered rooms are open and user mappings lead to registered rooms; released contents are used only if the manager is stopping |
| `RoomTheorems.ClosedForGood` | rsp-svr/room/include/room/room/room.hpp:177-193 | over every run the users and the contents log of a closed room never change again |
| `RoomFrames.IndexFrame` | rsp-svr/room/include/room/room/room_manager.hpp:64-159 | the manager's two indexes after every step, user by user and number by number: only a user's own create, own join or own leave that is accepted, the closing of the registered room they are known to be in, or shutdown changes where they are known to be; only a create, such a closing, or shutdown changes what is registered |
| `RoomFrames.PlaceIsKept` | rsp-svr/room/include/room/room/room_manager.hpp:148-155 | so over every run in which none of those happens to a user they stay where they were known to be, whatever others do |
| `RoomFrames.RoomFrame` | rsp-svr/room/include/room/room/room.hpp:64-193 | every room after every step: unchanged, or changed by the one task that ran in it, which touches only its own user's seat, and of which contents hear exactly what it did; a room that was not there is the one just created, with its owner alone |
| `RoomFrames.SeatIsKept` | rsp-svr/room/include/room/room/room.hpp:64-123 | so over every run in which none of a user's own joins and leaves begins in a room, and no kick of theirs runs there, their seat and route in it stay |
| `RoomFrames.KickTakesEffect` | rsp-svr/room/src/room/room.cpp:33-50 | in every reachable state a kick that its strand comes to in an open room takes its user away, contents hear of it exactly if they were a member, and every other member keeps their route |
| `RoomFrames.CloseTakesEffect` | rsp-svr/room/include/room/room/room.hpp:177-193 | a close that its strand comes to closes an open room, keeping its users, with one destroy event; a room that is not open stays as it is |
| `RoomFrames.TaskStays` | rsp-svr/room/include/room/room/room.hpp:155-160 | a notice, a kick or a close stays on its strand until the strand comes to it |
| `RoomFrames.PostedExactly` | rsp-svr/room/include/room/room/room_manager.hpp:37-54 | a kick is posted, behind everything there, exactly if its room is; shutdown collects exactly the registered rooms, once, and tells them to close in the order of their numbers |
| `RoomFrames.ShutdownCloses` | rsp-svr/room/include/room/room/room_manager.hpp:37-62 | whatever runs before and after shutdown, a room that was registered is closed, told to close, or about to be; once all have been told and no task is left it is closed, with a destroy event last |
| `RoomFrames.FaultsExactly` | rsp-svr/room/src/room/room.cpp:48-49 | released contents are used exactly if an announcement, or the kick of a member, runs in a room that is not open |
| `RoomHistory.LastLeaveDestroys` | rsp-svr/room/include/room/room/room_manager.hpp:137-159 | in every run without shutdown, a leave that emptied its room destroys it, with one destroy event and nothing after, if and only if the room is still registered when the leave comes to close it; otherwise the room stays open for good |
| `RoomHistory.EmptiedRoomsAreDestroyed` | rsp-svr/room/include/room/room/room.hpp:98-107 | so with fresh room numbers and no shutdown every leave that empties a room has destroyed it once it is over |
| `RoomWitnesses.NumberDrawnAgain` | rsp-svr/room/include/room/room/room_manager.hpp:64-78 | a run in which a number is drawn again: the owner's leave empties the first room, is refused and answered with failure after being executed, and the room is never destroyed |
| `RoomTheorems.OpenRoomsAreListed` | rsp-svr/room/include/room/room/room_manager.hpp:64-78 | with fresh room numbers every open room stays registered until shutdown |
| `RoomTheorems.RequestEvolves` | rsp-svr/room/include/room/room/room_message_handler.hpp:49-128 | in every step a request keeps its key and content, a decided ticket stays decided, and a request that is over stays as it is |
| `RoomChannel.NextKeeps` | rsp-svr/room/include/room/intranet/user_channel.hpp:73-113 | every step of the channel thread, the strands, kicks and shutdown keeps the Room server's invariants |
| `RoomChannel.RunKeeps` | rsp-svr/room/include/room/room/room_manager.hpp:37-62 | so does every run, shutdown included |
| `QueuedRequests.RunKeepsValid` | rsp-libs/include/rsplib/message/queued_requests.hpp:51-100 | over every sequence of calls active and terminal keys stay disjoint and each at most `capacity` |
| `QueuedRequests.RecordLasts` | rsp-libs/include/rsplib/message/queued_requests.hpp:51-100 | whatever the clocks do, a terminal record lasts through exactly those runs in which no call crowds it out and none finds it expired (if anything is retained at all), and until its expiry, while it lasts, its key is refused |
| `QueuedRequests.DuplicateSuppression` | rsp-libs/include/rsplib/message/queued_requests.hpp:51-100 | with strictly increasing call times a terminal record lasts for its retention, with the expiry it was given, if and only if fewer than `capacity` keys became terminal since, which is when none crowded it out; while it lasts its key is refused |
| `QueuedRequests.TiesForgetEarly` | rsp-libs/include/rsplib/message/queued_requests.hpp:91-100 | a run within one clock tick in which a key is forgotten after one further key, at capacity two |
| `QueuedRequests.StaleCompletionIsHarmless` | rsp-libs/include/rsplib/message/queued_requests.hpp:72-81 | a ticket that has left the registry can never again remove or alter anything, even if its key was admitted anew |
| `QueuedRequests.Ticket.TryStart` | rsp-libs/include/rsplib/message/queued_requests.hpp:29-32 | starts a queued ticket only, and says whether it did |
| `QueuedRequests.Ticket.Cancel` | rsp-libs/include/rsplib/message/queued_requests.hpp:34-37 | cancels a queued ticket only |
| `QueuedRequests.RequestRegistry.Admit` | rsp-libs/include/rsplib/message/queued_requests.hpp:51-59 | the registry after an admission, and a fresh queued ticket exactly when the key is admissible |
| `QueuedRequests.RequestRegistry.Cancel` | rsp-libs/include/rsplib/message/queued_requests.hpp:61-70 | cancels the active ticket, or remembers an unknown key |
| `QueuedRequests.RequestRegistry.Finish` | rsp-libs/include/rsplib/message/queued_requests.hpp:72-81 | retires the key only if it is held by this very ticket |
| `QueuedRequests.RequestRegistry.Prune` | rsp-libs/include/rsplib/message/queued_requests.hpp:84-89 | the erasing loop leaves exactly the records not yet expired |
| `QueuedRequests.RequestRegistry.Remember` | rsp-libs/include/rsplib/message/queued_requests.hpp:91-100 | evicts the oldest record when full, ties by key order |
| `QueuedRequests.RequestRegistry.FindOldest` | rsp-libs/include/rsplib/message/queued_requests.hpp:94-96 | the first key, in map order, with the least expiry |
| `Rooms.RoomObject.ApplyJoin` | rsp-svr/room/include/room/room/room.hpp:74-82 | adds the user or refreshes their route, only while open |
| `Rooms.RoomObject.ApplyLeave` | rsp-svr/room/include/room/room/room.hpp:98-105 | removes a member of an open room and says whether it is now empty |
| `Rooms.RoomObject.CloseImpl` | rsp-svr/room/include/room/room/room.hpp:177-193 | one destroy event and released contents, once |
| `Rooms.RoomObject.KickOutImpl` | rsp-svr/room/src/room/room.cpp:33-50 | notifies the member's route, tells contents, erases the member; faults exactly for a member of a room whose contents are released |
| `Rooms.RoomManager.CreateRoom` | rsp-svr/room/include/room/room/room_manager.hpp:64-78 | registers a new instance and its owner, refused when stopping |
| `Rooms.RoomManager.JoinedRoom` | rsp-svr/room/include/room/room/room_manager.hpp:89-96 | maps the user exactly if this instance is registered |
| `Rooms.RoomManager.LeftRoom` | rsp-svr/room/include/room/room/room_manager.hpp:98-107 | unmaps the user exactly if they are mapped to this registered instance |
| `Rooms.RoomManager.CloseRoom` | rsp-svr/room/include/room/room/room_manager.hpp:137-159 | unregisters the instance with every mapping to it and closes it, if it was registered |
| `Rooms.RoomManager.ForgetUsers` | rsp-svr/room/include/room/room/room_manager.hpp:148-155 | the erasing loop leaves exactly the mappings to other rooms |
| `Rooms.RoomManager.Stop` | rsp-svr/room/include/room/room/room_manager.hpp:37-48 | clears both indexes and hands back every registered room |
| `UserTheorems.OneReplyEach` | rsp-svr/user/include/user/job/job_join_room.hpp:38-102 | a room job's request is what its client asked; it replies at most once and completes at most once; exactly once unless shutdown finished it, with what the one callback of its request said, a timeout at or after the deadline or a response strictly before; once over its request went out once, and exactly one cancel if and only if it timed out or was withdrawn |
| `UserTheorems.RepliesInOrder` | rsp-svr/user/include/user/session/session.hpp:105-125 | a session finishes jobs in the order they came in; its record holds exactly the jobs that finished other than by shutdown, of which the room jobs are exactly those that replied, so replies leave in request order |
| `UserLines.EveryJobIsSomewhere` | rsp-libs/include/rsplib/job/job_scheduler.hpp:39-77 | no job is lost: in every run each is exactly one of still to be pushed, in its session's line, once, or over; and over by shutdown only if its session has stopped |
| `UserLines.NextLine` | rsp-libs/include/rsplib/job/job_scheduler.hpp:39-104 | a line in every step: its first job leaves exactly if it is over then, a pushed job comes last unless the session has stopped, and no other job is finished |
| `UserLines.LinesMoveUp` | rsp-libs/include/rsplib/job/job_scheduler.hpp:39-104 | over every run a line loses jobs only at its front, each when it is over, and gains jobs only at its end |
| `UserLines.SubmitIsQueued` | rsp-svr/user/include/user/session/session.hpp:76-82 | what a client asks is a new job still to be pushed, and a disconnect a stop, each behind all that is queued |
| `UserLines.StopsExactly` | rsp-svr/user/include/user/session/session.hpp:76-82 | a session is stopped exactly by its strand running a stop, and then every job still in its line is being cancelled |
| `UserLines.FaultsExactly` | rsp-svr/user/include/user/job/job_join_room.hpp:67-72 | the server faults exactly when it runs a response of another kind than the job's request, for a job that is not over |
| `UserTheorems.NoLostWakeup` | rsp-svr/user/include/user/intranet/room_channel.hpp:62-86 | while the channel runs, the unfinished job at the head of an idle session has its request in the table, its callback about to run, or its continuation on the strand |
| `UserProgress.HeadFinishes` | rsp-svr/user/include/user/job/job_create_room.hpp:39-99 | the same of the User server alone, unless it faults on a response of the wrong kind (excluded end to end): given the labels left until the job's continuation is posted (the steps that start it, one expiry at or past the deadline or a response, the callback), it is over if and only if its strand then takes as many steps as are queued up to that continuation, or as shutdown needs |
| `UserWitnesses.LoneJobFinishes` | rsp-svr/user/include/user/job/job_join_room.hpp:38-102 | the ordinary run of a session's only job, started, sent, timed out, called back and handled, meets exactly those counts |
| `UserProgress.NextCloser` | rsp-libs/include/rsplib/job/job_scheduler.hpp:80-104 | a useful step brings the head exactly one closer to its end; no other step of any client, session, timer or response moves it, but shutdown may come to it; and it is finished exactly by the last useful step it needed |
| `UserProgress.SomeUseful` | rsp-svr/user/include/user/intranet/room_channel.hpp:62-86 | until it is finished, an expiry, a callback or a step of its own strand is always useful to it |
| `UserTurns.LineFinishes` | rsp-libs/include/rsplib/job/job_scheduler.hpp:80-104 | every job in line is over after as many turns as there are jobs up to it, each turn giving the job that is then first its due, whatever is interleaved |
| `UserTurns.EveryJobCanFinish` | rsp-svr/user/include/user/session/session.hpp:116-123 | every job of every reachable state can be finished by the clock, callbacks and its own session's strand |
| `UserTurns.StaysUp` | rsp-libs/include/rsplib/message/pending_requests.hpp:57-65 | the timer runs exactly until the channel is stopped |
| `UserRecords.RequestsBearTheLogin` | rsp-svr/user/include/user/job/job_create_room.hpp:43-45 | in every run a room request bears the user of the last login its session finished before it |
| `UserRecords.SessionsFollowEvents` | rsp-svr/user/include/user/job/job_ntf_leave_room_message.hpp:38-48 | in every run a session speaks for the user of its last login, and its room is decided by its last event that says so: any answer to a create or a leave, a success to a join, or the notice of a kick, never a timeout |
| `UserSteps.NextKeeps` | rsp-svr/user/include/user/session/session.hpp:76-125 | every step of clients, strands, timer, responses and shutdown keeps the User server's invariants |
| `UserCalls.NextContinues` | rsp-svr/user/include/user/job/job_leave_room.hpp:38-98 | in every step but the arrival of a response, a job keeps its request and its reply, no response appears, and fitting responses never fault |
| `RoomJobs.RoomJobObject.Run` | rsp-svr/user/include/user/job/job_join_room.hpp:38-58 | keeps the completion, issues the request for the session's user and sends it once |
| `RoomJobs.RoomJobObject.Cancel` | rsp-svr/user/include/user/job/job_leave_room.hpp:60-65 | withdraws a pending request with one cancel, finishes once, replies nothing |
| `RoomJobs.RoomJobObject.Handle` | rsp-svr/user/include/user/job/job_create_room.hpp:60-99 | the first timeout or response to find the job unfinished replies and completes; later ones do nothing; faults exactly on a response of the wrong kind |
| `PendingRequests.ExactlyOneEnd` | rsp-libs/include/rsplib/message/pending_requests.hpp:68-127 | over every interleaving of entering, handing out, completing, expiring, withdrawing, cancelling and clearing, each id issued is pending or met exactly one end; a response only before its deadline, a timeout only at or after it; its request goes out once, when handed out; one cancel exactly if it timed out or was withdrawn and that was followed up; and the cancel is first if and only if it went out before the request was handed out |
| `PendingRequests.ExpireTakesAllDue` | rsp-libs/include/rsplib/message/pending_requests.hpp:89-103 | an expiry takes exactly the requests due at or before its time, as if each were completed then, and leaves the others |
| `PendingRequests.ClearEndsAll` | rsp-libs/include/rsplib/message/pending_requests.hpp:105-111 | clearing leaves nothing pending, is the end of exactly what was, and sends nothing |
| `UserTable.RunsAreTableRuns` | rsp-svr/user/include/user/intranet/room_channel.hpp:62-140 | every run of the User server is a run of that one table: the ids its jobs issued are exactly those the table gave out, each is in it or met the one end its job is told; as many requests and cancels bear an id as its job has sent; and the cancel is first if and only if its callback ran before the request was sent |
| `UserWitnesses.CancelCanLead` | rsp-svr/user/include/user/intranet/room_channel.hpp:62-86 | a run in which the request times out between being entered and being sent, so that the cancel is first |
| `UserTable.NextTable` | rsp-libs/include/rsplib/message/pending_requests.hpp:68-111 | every step of clients, strands, timer, responses and shutdown does to the table exactly what one of its operations does, or nothing; the step that withdraws a request does two |
| `PendingRequests.UserRoomChannel.SendRequest` | rsp-svr/user/include/user/intranet/room_channel.hpp:62-86 | a fresh id is entered with its deadline, and then its message is handed out |
| `PendingRequests.UserRoomChannel.CompleteRequest` | rsp-libs/include/rsplib/message/pending_requests.hpp:77-87 | a late response is a timeout, even between timer ticks |
| `PendingRequests.UserRoomChannel.CancelRequest` | rsp-svr/user/include/user/intranet/room_channel.hpp:88-90 | a cancel message exactly if the request was pending |
| `PendingRequests.UserRoomChannel.TakeExpired` | rsp-libs/include/rsplib/message/pending_requests.hpp:89-101 | the erasing loop takes exactly the ids that are due, ascending |
| `PendingRequests.UserRoomChannel.ExpireRequests` | rsp-libs/include/rsplib/message/pending_requests.hpp:89-103 | all of them time out, with their cancels in that order |
| `PendingRequests.UserRoomChannel.ClearRequests` | rsp-libs/include/rsplib/message/pending_requests.hpp:105-111 | drops everything, calling nobody back |
| `JobScheduler.SerialInOrder` | rsp-libs/include/rsplib/job/job_scheduler.hpp:39-104 | over every run of pushes, completions (synchronous, late, repeated) and shutdowns: jobs start in push order with at most one uncompleted; finished, queued and cancelled jobs, in that order, are exactly the pushed ones |
| `JobScheduler.OnlyTheHeadAdvances` | rsp-libs/include/rsplib/job/job_scheduler.hpp:80-104 | a callback advances the queue if and only if it is the first of a run and the scheduler is not stopped, and then the run is the head's own |
| `JobScheduler.NothingIsDropped` | rsp-libs/include/rsplib/job/job_scheduler.hpp:39-77 | exactly the jobs that were pushed, in that order, are the scheduler's, and it is stopped exactly if it was shut down |
| `JobScheduler.SynchronousJobsPass` | rsp-libs/include/rsplib/job/job_scheduler.hpp:80-104 | a job that completes inside `run` never waits at the head |
| `JobScheduler.NothingAfterShutdown` | rsp-libs/include/rsplib/job/job_scheduler.hpp:61-77 | after shutdown nothing starts, finishes or is queued; later pushes are cancelled, each once, and no finished job is |
| `JobScheduler.Scheduler.PushAndRun` | rsp-libs/include/rsplib/job/job_scheduler.hpp:39-59 | rejects when stopped, else queues, and runs the head if idle |
| `JobScheduler.Scheduler.OnComplete` | rsp-libs/include/rsplib/job/job_scheduler.hpp:80-88 | a run's completion counts once |
| `JobScheduler.Scheduler.RunJob` | rsp-libs/include/rsplib/job/job_scheduler.hpp:80-88 | a job that completes inside `run` advances the queue at once; nested draining ends because the queue shortens |
| `JobScheduler.Scheduler.CompleteCurrent` | rsp-libs/include/rsplib/job/job_scheduler.hpp:90-104 | pops the head and runs the next one |
| `JobScheduler.Scheduler.Shutdown` | rsp-libs/include/rsplib/job/job_scheduler.hpp:61-77 | the loop cancels the swapped queue front to back, once |
| `TcpConnection.BytesConserved` | rsp-libs/include/rsplib/server/tcp_connection.hpp:89-155 | under every interleaving the counter equals the bytes of threads still in `send`, plus posted buffers, plus queued ones; never negative, never above the limit |
| `TcpConnection.ReturnsToZero` | rsp-libs/include/rsplib/server/tcp_connection.hpp:207-236 | a closed connection whose posted work has run holds no bytes once no thread is in `send` |
| `TcpConnection.OrderedDrain` | rsp-libs/include/rsplib/server/tcp_connection.hpp:170-275 | at most one write outstanding; written is a prefix of accepted is a prefix of posted; until closed, what is accepted and not written is queued with its front being written, and unless a close was asked for or bytes overflowed every send taken was accepted; one send-shutdown at most, after everything accepted is written; after a graceful stop nothing posted later is accepted, and if it found no overflow everything posted before it is written before the send-shutdown |
| `TcpConnection.GracefulStops` | rsp-libs/include/rsplib/server/tcp_connection.hpp:170-185 | over every run a graceful close is asked for exactly if the strand took a graceful stop while not closed, and the first such stop counts; from then on, until closed, nothing posted later is accepted and sending is shut down exactly if the queue is empty |
| `TcpConnection.GracefulDrains` | rsp-libs/include/rsplib/server/tcp_connection.hpp:250-275 | a graceful close that meets no error ends: with as many writes as are queued everything accepted is written and sending is shut down, once |
| `TcpConnection.EgressFrame` | rsp-libs/include/rsplib/server/tcp_connection.hpp:207-275 | in every step of every reachable state a send is accepted exactly if taken while not closed, not stopping and not overflowed, the front is written exactly if its write succeeds before closing, and only a read error, a write error, a forced stop or a failed send-shutdown closes, at once |
| `TcpConnection.LoneSend` | rsp-libs/include/rsplib/server/tcp_connection.hpp:89-151 | a send that has the connection to itself reserves and is posted if and only if its bytes fit under the limit; otherwise it raises the flag and stops the connection |
| `TcpConnection.RefusedAfterOverflow` | rsp-libs/include/rsplib/server/tcp_connection.hpp:137-151 | after an overflow a send not yet posted never is, and gives back what it had reserved |
| `TcpConnection.OverflowCloses` | rsp-libs/include/rsplib/server/tcp_connection.hpp:89-99 | an overflowed connection is closed or a forced stop of it is on its way; the close callback runs exactly once, when closing is complete |
| `TcpConnection.NextKeeps` | rsp-libs/include/rsplib/server/tcp_connection.hpp:137-155 | every step of every thread and of the strand keeps conservation and order |
| `TcpConnection.ReleasingSettles` | rsp-libs/include/rsplib/server/tcp_connection.hpp:207-223 | the one-buffer-at-a-time steps of closing give back exactly the bytes of those buffers and end in the state the object's `FinishClose` reaches |
| `TcpConnection.Connection.ReserveSendBytes` | rsp-libs/include/rsplib/server/tcp_connection.hpp:137-151 | among other threads' writes and spurious failures the loop reserves, on top of what they left, exactly if the counter it met last fits and nothing overflowed, and otherwise leaves the counter to them |
| `TcpConnection.Connection.SendImpl` | rsp-libs/include/rsplib/server/tcp_connection.hpp:225-236 | releases what it turns away, else queues it and writes if nothing is being written |
| `TcpConnection.Connection.HandleWrite` | rsp-libs/include/rsplib/server/tcp_connection.hpp:250-275 | releases the front, then writes the next, shuts down, or closes on error |
| `TcpConnection.Connection.ActiveStopImpl` | rsp-libs/include/rsplib/server/tcp_connection.hpp:170-185 | closes at once when forced, else drains first |
| `TcpConnection.Connection.FinishClose` | rsp-libs/include/rsplib/server/tcp_connection.hpp:207-223 | the loop gives back exactly the queued bytes; the callback runs once |
| `Framing.ConnInterpreter.ReadStream` | rsp-libs/include/rsplib/message/conn_interpreter.hpp:46-71 | for every split of a stream into reads of at most 128 bytes, frames and verdict equal those of parsing the whole stream at once |
| `Framing.ConnInterpreter.HandleBuffer` | rsp-libs/include/rsplib/message/conn_interpreter.hpp:46-71 | one read: what is dispatched and retained is what the whole input so far parses to |
| `Framing.ParseAppend` | rsp-libs/include/rsplib/message/conn_interpreter.hpp:55-70 | parsing a prefix and then the retained bytes with the rest equals parsing all |
| `Framing.StreamIsItsFrames` | rsp-libs/include/rsplib/message/conn_interpreter.hpp:55-70 | an accepted stream is its frames re-encoded plus the retained bytes |
| `Framing.RetainedBytesBounded` | rsp-libs/include/rsplib/message/conn_interpreter.hpp:61-63 | retained bytes stay below header plus maximum payload |
| `Framing.MessagesRoundTrip` | rsp-libs/include/rsplib/message/serializer.hpp:42-83 | any sequence of serialized messages, followed by anything, parses back to itself |
| `Framing.ParseOfEncode` | rsp-libs/include/rsplib/message/serializer.hpp:56-83 | a serialized message followed by any suffix parses to its type, payload and exact length |
| `Framing.EncodeOfParse` | rsp-libs/include/rsplib/message/serializer.hpp:56-83 | and a complete parse re-encodes to the bytes it consumed |
| `Framing.DestructStable` | rsp-libs/include/rsplib/message/serializer.hpp:56-83 | more bytes never change a verdict other than incomplete |
| `Framing.VerdictsAreExact` | rsp-libs/include/rsplib/message/serializer.hpp:56-83 | complete if and only if the bytes begin with a serialized message; invalid, as soon as the length is there, if and only if it is above the limit |
| `Framing.Serialize` | rsp-libs/include/rsplib/message/serializer.hpp:42-54 | the frame's bytes, refused above 64 KiB |
| `Framing.ReadMeta` | rsp-libs/include/rsplib/message/serializer.hpp:56-83 | the three verdicts with type, payload and length |
| `Framing.PutBigEndian` | rsp-libs/include/rsplib/message/helper.hpp:37-47 | appends the digits of a value, most significant first |
| `Framing.GetBigEndian` | rsp-libs/include/rsplib/message/helper.hpp:49-61 | reads them back, or says the buffer is too short |
| `Framing.BigEndianOfDigits` | rsp-libs/include/rsplib/message/helper.hpp:37-61 | reading what was put gives the value, for every width |
| `Framing.MostSignificantFirst` | rsp-libs/include/rsplib/message/helper.hpp:49-61 | the first byte counts for most |
| `Framing.DigitsOfBigEndian` | rsp-libs/include/rsplib/message/helper.hpp:37-61 | putting what was read gives the bytes |

## Left out

- Sockets, ZeroMQ, Boost.Asio, thread pools, timers and library loading: strands are queues of tasks, sockets are logs, the timer is a step that may happen.
- Protobuf: a payload is a sequence of bytes, a message between servers is a value.
- The Room server's message handlers, user channel and manager lookups as interleaved with other threads are steps on values, not methods; `find_room(uid)` takes its two locks in one step there.
- The User server's session, jobs and channel as interleaved with other threads are steps on values, not methods; the classes `RoomJobObject`, `Scheduler` and `UserRoomChannel` model each of them in place on its own thread.
- The jobs that complete inside `run`: only that they do, that a login names the user, and that the notice of a kick takes the session out of its room; the notice itself reaches the User server as a job that may be submitted at any time.
- Agreement of a session's room number with the Room's membership, and of the user index with `users_`: the protocol does not keep either.
- Exceptions from `channel_.send` inside `send_request`, and from contents.
- Kicks still queued when the manager shuts down may reach released contents; the model records that as a fault that happens only while stopping.
- Forwarded chat messages, ping, the client session, `session_manager`, logging, tracing, prompts and the command line.
- `job_scheduler::clear`, `room_manager::leave_room(uid)`, and the room's sending of contents messages.
- Reading from the socket beyond framing: a read error or end of stream is a step that closes the connection.
