# A model of MangaHub's message fabric and library store

MangaHub is one Go process that serves the same data over HTTP, gRPC, TCP and WebSocket. This project models the parts
of it whose correctness depends on how goroutines interleave, or on SQL text that is put together at run time:

- **the broker** (`pkg/protocol/broker.go`): bounded channels in a set under a read/write lock. `Channels` and `Broker`
  hold the channel and the broker as objects, `BrokerSystem` holds every interleaving of subscribers, unsubscribers and
  publishers, and `BrokerEvents` tells its runs by their events alone;
- **the chat hub** (`internal/websocket/hub.go`): rooms, history replay, and sends made outside the lock. `Hub` holds
  the objects, `HubSystem` the interleavings, `HubProofs` the preserved invariants, `HubTheorems` and `HubOrder` the
  results, `HubEvents` the events behind every row and frame, and `HubWitness` the run on which a message is lost;
- **the TCP fan-out** (`internal/tcp/server.go`): `TcpServer` holds the objects, `TcpSystem` the consumer loop beside
  sessions that come and go, and `TcpEvents` what its events say of a session. `Lines` has newline framing and the
  writer object; `LineSystem` models several goroutines in one session's buffered writer byte by byte, a flush being two
  steps (bytes out, buffer emptied). `LineFraming` has what holds of every interleaving, `LineLocked` what holds while
  all senders take the mutex, `LineWitness` three runs on which the unlocked welcome does harm, and `SessionWire` joins
  the fan-out to the bytes;
- **the library store** (`internal/manga/repository.go`): `Store` holds the tables and statements, `Library` the
  move-to-front reading of the listing, `RowHistory` the meaning of a row's fields, `Text`, `Genres`, `Sql` and `Search`
  the query that `Search` builds, and `Repository` the object whose methods run all this;
- **the progress path** (`internal/httpapi/server.go`, `internal/grpc/service.go`): `Handlers` holds the handlers that
  write a row and then publish; `Convergence` puts handlers, broker, TCP loop and tables side by side,
  `ConvergenceSchedule` reads convergence off the schedule, `ConvergenceEvents` says which events its assumptions
  exclude, and `ConvergenceWitness` shows a run on which they diverge.

The modules named `Uninterrupted...` tie the objects to the step systems: a subscription, its end, a publish, a room
broadcast, a whole join, chat line or leave, a session fan-out and a line sent, each taken without interruption and in
any order of its loop, are enabled to their end and do what the object's method promises.

`NoDeadlock` shows for each step system that nobody inside a call gets stuck.

A step system is a state, a set of events, `Can` (is the event enabled) and `Do` (the next state). `Feasible(evs)` says
that the events are enabled one after the other, and `Run(evs)` is the state they lead to. Every main result is stated
for all feasible event sequences.

## Results that correct a natural expectation

- A chat message can fail to reach a client that is in the room throughout: if another client leaves between the
  author's snapshot and the author's send, the send to the closed queue panics and the rest of the loop is lost.
  `HubWitness.AMessageCanBeLost` is such a run; `HubTheorems.AllReachedIffNoPanic` gives the exact condition and
  `HubTheorems.HitsExplained` says when a send panics.
- The row and a user's sessions can end on different chapters when two calls for one pair overlap, because writing and
  publishing are separate steps. `ConvergenceWitness.OverlapCanDiverge` is such a run;
  `Convergence.ConvergesIffLastPublishMatches` gives the exact condition, and
  `ConvergenceSchedule.LastWriterPublishesLast` the schedules that are safe.
- The TCP welcome line is written without the session's mutex after the session is already registered. A broadcast can
  cut into it (`LineWitness.WelcomeCanTear`); its flush, overlapping a broadcast's, can send the welcome twice
  (`LineWitness.WelcomeCanRepeat`) or drop the broadcast's line although its send reports success
  (`LineWitness.LineCanBeLost`). `LineFraming.FramedIffNoTrouble` is exact: bytes are in line order if and only if none
  was taken while another line lacked its newline, and all of them go out, once and in order, if and only if no flush
  sent bytes that had gone out or emptied the buffer of bytes that had not. Either trouble takes a second sender, one of
  the two without the mutex (`LineFraming.TroubleNeedsUnlocked`), so there is none while everybody takes it
  (`LineLocked.LockedSendersFrame`), nor any from the moment the welcome has returned (`LineLocked.FramedAfterWelcome`).
- The genre filter can miss a genre that contains the search text, because genres are searched in their JSON form. A
  search text without wildcards always finds every such manga exactly if its folded form is part of `["` or of `"]`, or
  occurs in its own stored form (`Genres.AlwaysFoundIffSurvives`): `r&b` is not safe (`Genres.EscapedGenreIsMissed`), a
  lone backslash or quote is. A manga with no genre list is found by exactly the parts of the word `null`
  (`Genres.MissingListIsFound`).
- `LIKE '%q%'` is a substring search exactly when `q` has neither `%` nor `_` (`Text.LikeIsSubstringIffPlain`).
- A caller that steps the offset by the limit it asked for skips results exactly when that limit was cut down to 100 and
  the list is longer than that (`Search.SteppingByRequestedLimit`).

## Assumptions

- Locked sections of the chat hub and of the TCP server's session table are one step each: they make one map update or
  one snapshot and nothing blocks inside them. The broker's are split into lock, update and unlock. That a waiting
  writer holds back new readers only removes interleavings, so it is not modelled.
- A panic in an HTTP handler goroutine is recovered by `net/http`. A panic while broadcasting a chat line therefore runs
  the deferred `leave`; a panic during `join` comes before that defer, so the client stays in its room with no reader
  and no writer (phase `Stranded`); a panic in `leave`'s own broadcast just ends the goroutine.
- Client, session and goroutine ids are fresh; channels are unsubscribed at most once and received from only by their
  owner before it unsubscribes, as both broadcast loops do.
- The hub's insert and history query may fail (the `ok` flags of `Post` and `Query`, the `fails` flag of `Say`); the
  library statements fail only on a foreign key. One statement is one step.
- `time.Now()` is strictly increasing between calls that write rows (`Store.Ticking`), and the text that `updated_at` is
  stored as orders as the clock does; in a local zone whose clock is put back an hour it does not. The results on the
  listing need this, those on the fields of a row do not.
- Goroutines sharing a buffered writer without a lock see each other's steps in one order: taking some bytes, taking the
  newline, handing the buffer to the connection, and emptying it are the steps.
- Letters fold as ASCII. Rows with equal titles keep table order. Integers are unbounded except in
  `Handlers.Atoi`, which has the 64-bit bounds of the original.
- The two topics of the broker are the same code at two message types, so `Broker.Topic` is generic and is written once;
  in `BrokerSystem` both topics share one lock and one channel namespace.
- In `Convergence` the TCP loop is already subscribed and is not stopped during the run.

## Model

| member | source | states |
|---|---|---|
| Channels.Channel.TrySend | pkg/protocol/broker.go:43-46 | a non-blocking send is accepted exactly when fewer than `cap` items wait, goes to the end of the queue, and changes nothing otherwise |
| Channels.OfferedIsAcceptedPlusDropped | pkg/protocol/broker.go:43-46 | every offer is either accepted or dropped, counted with multiplicity |
| Channels.DropsOnlyWhenFull | pkg/protocol/broker.go:43-46 | nothing is dropped if and only if no offer found the buffer full |
| Channels.NoLagNoLoss | pkg/protocol/broker.go:43-46 | without drops, what is accepted is what was offered, in order |
| Broker.Topic.Subscribe | pkg/protocol/broker.go:24-30 | the subscriber set grows by one fresh, open, empty channel of capacity 64 |
| Broker.Topic.Unsubscribe | pkg/protocol/broker.go:32-37 | the channel is out of the set and closed, and every channel still in the set is open |
| Broker.Topic.Publish | pkg/protocol/broker.go:39-48 | each subscriber is offered the message exactly once, in whatever order the map range takes, and has it unless 64 wait; no other channel changes |
| BrokerSystem.OwnerStepKeepsLoops | pkg/protocol/broker.go:26-28 | no lock, map update or close by a subscriber breaks "a mid-loop publisher ranges over exactly its topic's subscribers" |
| BrokerSystem.RunsAreSafe | pkg/protocol/broker.go:24-74 | lock discipline, loop targets, conservation and exact delivery hold in every reachable state |
| BrokerSystem.SendIsOpen | pkg/protocol/broker.go:39-48 | any enabled send has a registered, open target of the publish's topic, with its publisher holding the read lock |
| BrokerSystem.CloseSafety | pkg/protocol/broker.go:32-48 | in no run does a send meet a closed channel or a channel get closed twice, and a consumer that has not unsubscribed never sees its channel closed |
| BrokerSystem.PublisherOrder | pkg/protocol/broker.go:39-48 | received followed by queued holds each publisher's messages in issue order, each at most once, with the published payload |
| BrokerSystem.HeardIffReached | pkg/protocol/broker.go:42-47 | the history attributed to a publisher holds a publish exactly if the loop reached the channel |
| BrokerSystem.PublishReachesAudience | pkg/protocol/broker.go:39-48 | a returned publish was offered exactly once to each channel of the audience it found when it took the lock and to no other; without drops it is received or queued |
| BrokerSystem.QueuesConserve | pkg/protocol/broker.go:25-47 | for every subscriber in every run: offered = accepted + dropped, accepted = received followed by queued in order, at most 64 queued, drops only at 64 waiting |
| BrokerEvents.SubscribersByEvents | pkg/protocol/broker.go:24-37 | in every run a channel is of the topic its make event asked for, and it is in that topic's map exactly if it was made for the topic, inserted and not deleted |
| BrokerEvents.CallStays | pkg/protocol/broker.go:39-48 | a publish keeps the topic, the message and the audience of its lock event whatever runs beside it, and has returned once its unlock event has come |
| BrokerEvents.PublishedToSubscribers | pkg/protocol/broker.go:39-48 | on events alone: a publish between its lock and its unlock was offered, once, to exactly the channels made for its topic, inserted and not deleted when it locked; a channel that never had 64 waiting has it |
| UninterruptedPublish.MatchesTopicPublish | pkg/protocol/broker.go:39-48 | a publish run without interruption, in any order of the range, is enabled to its end and does to all queues what `Topic.Publish` promises |
| UninterruptedSubscription.MatchesTopicSubscribe | pkg/protocol/broker.go:24-30 | a subscription run without interruption is enabled to its end: its topic gains one fresh, open, empty channel of 64 places, and nothing else changes |
| UninterruptedSubscription.MatchesTopicUnsubscribe | pkg/protocol/broker.go:32-37 | an unsubscription run without interruption is enabled to its end: the channel leaves its topic and is closed with its queue kept, and nothing else changes |
| NoDeadlock.BrokerIsNeverStuck | pkg/protocol/broker.go:24-48 | in every run whoever holds the lock, for writing or reading, can go on, nobody else holds it, and while it is free everybody who wants it can have it |
| Hub.QueryTurnedRound | internal/websocket/hub.go:158-175 | for every log, the descending limited query read backwards is the room's last `limit` rows in insertion order |
| Hub.Client.constructor | internal/websocket/hub.go:46-69 | an empty room name becomes `general`; the queue is fresh, open, empty and holds 32 |
| Hub.ChatHub.SaveMessage | internal/websocket/hub.go:148-156 | a stored message becomes the newest of its room's history at every limit and no other room's history changes; a failing insert changes nothing |
| Hub.ChatHub.RecentMessages | internal/websocket/hub.go:158-175 | the prepend loop returns the last `limit` messages of the room in insertion order |
| Hub.ChatHub.SendAll | internal/websocket/hub.go:140-145 | each target of a snapshot is offered the payload once, whatever the order |
| Hub.ChatHub.BroadcastToRoom | internal/websocket/hub.go:128-146 | everybody in the room is offered the payload once, and has it unless 32 wait; nobody else is touched |
| Hub.ChatHub.Register | internal/websocket/hub.go:76-82 | the client joins its own room only, the room being made if need be, and all queues in rooms stay open and distinct |
| Hub.ChatHub.Unregister | internal/websocket/hub.go:109-116 | the client leaves its room, an emptied room disappears, and no room knows its queue any more |
| Hub.ChatHub.Replay | internal/websocket/hub.go:85-98 | the newcomer's queue holds exactly one history frame for each of the last 20 rows of its room, oldest first |
| Hub.ChatHub.Admit | internal/websocket/hub.go:75-98 | in its room, with exactly those history frames queued and nobody else's queue changed |
| Hub.ChatHub.Join | internal/websocket/hub.go:75-106 | uninterrupted, the newcomer's queue is those history frames followed by its own join frame, and each earlier member is offered the join frame |
| Hub.ChatHub.Withdraw | internal/websocket/hub.go:109-117 | the client is out of the room before its queue is closed |
| Hub.ChatHub.Leave | internal/websocket/hub.go:108-126 | those who stay are offered the leave frame; the leaver's queue is closed with its pending frames kept |
| Hub.ChatHub.Say | internal/websocket/hub.go:194-217 | an empty text does nothing; of any other the first 1000 characters are stored under the author and room if the insert works, and each member is offered, once, the stored row or else the same text unsaved |
| HubProofs.RunsKeepInv | internal/websocket/hub.go:75-242 | nine invariants on times, rooms, targets, broadcasts, audiences, history cuts, copies, queues and panics hold in every reachable state |
| HubTheorems.RoomIndexExact | internal/websocket/hub.go:75-117 | the index holds exactly the clients past join's locked section and before leave's, each under its own room, and no empty room |
| HubTheorems.ClosedAtMostOnce | internal/websocket/hub.go:108-117 | over any run each client's queue is closed at most once, and is closed exactly if that has happened |
| HubTheorems.HitsExplained | internal/websocket/hub.go:128-146 | each send that meets a closed queue had its snapshot before the target's removal, came after the close, and was not to the sender itself |
| HubTheorems.SendPanicsIffClosed | internal/websocket/hub.go:140-145 | the next send panics exactly if its target was closed; a client's own broadcasts never hit its own closed queue, and a snapshot after removal excludes the client; a panic ends a leave, strands a join, and sends a reader into its deferred leave |
| HubTheorems.AudienceExact | internal/websocket/hub.go:133-139 | a message's audience is exactly those who were in its room when the snapshot was taken |
| HubTheorems.CopiesSoFar | internal/websocket/hub.go:75-146 | at any moment of any run, broadcasts cut short included, a client was offered a row once live exactly if the author's loop got to it, and once as history exactly if its replay got to the row |
| HubTheorems.CopiesExact | internal/websocket/hub.go:75-98 | for a broadcast that is over and met no closed queue, a caught-up client was offered the message once as history iff it was in its history, and once live iff it was in the room at the snapshot; twice exactly when both hold |
| HubTheorems.NoGap | internal/websocket/hub.go:75-98 | of the messages whose broadcast is over and met no closed queue, a client still in the room is offered each one saved after its history query exactly once, and each in its history at least once |
| HubTheorems.OfferedIsReceived | internal/websocket/hub.go:140-226 | a client whose queue never dropped a frame has been sent, or still has pending, each frame exactly as often as it was offered |
| HubTheorems.NoGapReceived | internal/websocket/hub.go:75-98 | NoGap up to what arrives: without drops each later message is exactly once, and each history row at least once, among what the writer took and what waits |
| HubTheorems.MissedOnlyByPanic | internal/websocket/hub.go:128-146 | a member of the audience that was never offered a finished message owes it to a panic on somebody who left after the snapshot |
| HubTheorems.AllReachedIffNoPanic | internal/websocket/hub.go:140-145 | everybody in a message's audience is offered it exactly once if and only if its send loop met no closed queue |
| HubTheorems.LosslessJoin | internal/websocket/hub.go:68-105 | before the writer starts, drops begin exactly at the 33rd offer; history and own join frame are at most 21, so up to 11 foreign broadcasts are lossless |
| HubTheorems.HubQueuesConserve | internal/websocket/hub.go:140-226 | for every client: offered = accepted + dropped, accepted = taken by the writer followed by pending, at most 32 pending, drops only at 32 pending |
| HubOrder.FramesComeInOrder | internal/websocket/hub.go:85-226 | in what a client was sent followed by what waits for it, each author's messages come in the order stored, history comes oldest first, and all of it before the client's own join frame |
| HubEvents.RoomByEvents | internal/websocket/hub.go:46-69 | in every run a client is in the room its connect event asked for, and in general if it asked for none |
| HubEvents.StoredRowsByEvents | internal/websocket/hub.go:194-210 | row i of the table is the i-th chat line whose insert worked: its author's, in the room the author connected to, with the first 1000 characters of the text, which was not empty |
| HubEvents.FramesHaveCauses | internal/websocket/hub.go:75-146 | every frame a client was sent or still waits for has its event (a join, a leave, a stored row, a line whose insert failed) and is about the client's own room |
| NoDeadlock.HubIsNeverStuck | internal/websocket/hub.go:75-217 | in every run each client's goroutine has its next step until it is gone or stranded by a panic, a chat line being taken exactly if it is not empty, and its writer can take what waits |
| UninterruptedCast.MatchesBroadcastToRoom | internal/websocket/hub.go:128-146 | a broadcast run without interruption, in any order of its loop, meets no closed queue and does to all queues what `ChatHub.BroadcastToRoom` promises |
| UninterruptedVisit.MatchesAdmit | internal/websocket/hub.go:75-98 | registering, reading the history and replaying it without interruption leaves the client in its room with the last 20 rows queued as history frames, oldest first, and touches nobody else |
| UninterruptedVisit.MatchesJoin | internal/websocket/hub.go:75-106 | a whole join without interruption, in any order of its loop, ends reading, written to and caught up, its queue that history and then its own join frame, and one join frame pushed to each earlier member only |
| UninterruptedVisit.MatchesSay | internal/websocket/hub.go:194-217 | a chat line without interruption is stored if the insert works and pushed once to each member of the room, as the row or as the unsaved text, cut after 1000 characters; its broadcast is then over and the author reads on |
| UninterruptedVisit.MatchesLeave | internal/websocket/hub.go:108-126 | a whole leave without interruption takes the client out of its room, keeps what its queue holds, and pushes one leave frame to each who stays and to nobody else |
| HubWitness.AMessageCanBeLost | internal/websocket/hub.go:117-145 | a reachable state in which a caught-up client still in the room was never offered a message it was in the audience of |
| Lines.ReadStream | internal/tcp/server.go:229-244 | splitting a framed stream at newlines gives back exactly the payloads |
| Lines.PartialReadIsPrefix | internal/tcp/server.go:229-244 | any part of a framed stream reads as whole payloads from the start, in order, none twice |
| Lines.ReadLosesNothing | internal/tcp/server.go:141-146 | splitting any bytes at newlines gives lines and a rest that put together are those bytes, none holding a newline |
| Lines.LineWriter.Put | internal/tcp/server.go:237-242 | the writer takes the bytes or a prefix of them, and an error refuses everything later |
| Lines.LineWriter.Flush | internal/tcp/server.go:243 | success leaves nothing buffered; bytes are neither lost nor reordered |
| Lines.LineWriter.WriteLine | internal/tcp/server.go:229-244 | success means the payload and one newline are out; failure leaves at most a prefix of them and is sticky |
| UninterruptedSend.MatchesWriteLine | internal/tcp/server.go:229-244 | a locked send with nobody in between puts exactly the payload and a newline on the wire and leaves the writer empty and free |
| UninterruptedSend.MatchesFailedWriteLine | internal/tcp/server.go:229-244 | one whose flush fails leaves exactly the part of the line that went out, and the next sender can only give up |
| LineFraming.FramedIffNoTrouble | internal/tcp/server.go:122-132 | in every run the bytes taken are whole lines in the order begun, the last perhaps unfinished, iff none was taken while another line lacked its newline; and bytes out followed by bytes waiting are exactly those taken, iff no flush sent bytes again or dropped unsent ones |
| LineFraming.TroubleNeedsUnlocked | internal/tcp/server.go:122-132 | a step that tears a line, sends bytes twice or drops them takes two senders with lines in progress, one of them without the mutex |
| LineFraming.WireCarriesWholeLines | internal/tcp/server.go:223-244 | in a run in which nothing was torn, sent twice or dropped, unlocked welcome included, what a peer reads at any moment is a prefix of the payloads in the order begun |
| LineFraming.SuccessMeansDelivered | internal/tcp/server.go:223-244 | in such a run a send that reports success has its own line whole on the wire, at the place it alone holds in the order begun |
| LineLocked.LockedSendersFrame | internal/tcp/server.go:223-244 | in every run in which all senders take the mutex nothing is torn, sent twice or dropped, and what a peer reads at any moment is a prefix of the payloads in the order of taking the mutex, whatever failed |
| LineLocked.FramedAfterWelcome | internal/tcp/server.go:128-244 | from any moment at which nobody writes without the mutex any more, the peer is sent what was waiting, the end of the line in progress and whole payloads in mutex order, and there is no new trouble, whatever came before |
| LineWitness.WelcomeCanTear | internal/tcp/server.go:122-132 | a run on which the welcome and a sent line come out as one line that nobody sent |
| LineWitness.WelcomeCanRepeat | internal/tcp/server.go:128-132 | a run on which both flushes succeed and the peer reads the welcome twice |
| LineWitness.LineCanBeLost | internal/tcp/server.go:128-132 | a run on which both sends report success and the peer never gets the broadcast's line |
| SessionWire.PeerReadsOwnUpdates | internal/tcp/server.go:141-227 | with all lines under the mutex, the progress lines a peer can read at any moment are the encodings of its user's updates since it registered, from the first on, in the loop's order, each once, whatever failed |
| TcpSystem.RunsKeepInv | internal/tcp/server.go:86-221 | in every reachable state each session's frames are a contiguous run of its user's settled updates |
| TcpSystem.SessionSeesContiguousRun | internal/tcp/server.go:184-221 | the frames written to a session are a contiguous run of the loop's updates for its user, starting at its registration; no other user's update is among them |
| TcpSystem.LiveSessionMissesNothing | internal/tcp/server.go:200-221 | a connected session without write errors has every update of its user since it registered, except one being sent round |
| TcpSystem.SessionsAgree | internal/tcp/server.go:184-221 | two sessions of one user hold the same update at every position they both have |
| TcpEvents.MineOfParts | internal/tcp/server.go:208-215 | which updates are a user's: decided update by update, and put together part by part |
| TcpEvents.SessionByEvents | internal/tcp/server.go:120-221 | on events alone: a session was written a beginning of its user's updates sent round since its connect event, in order, and all of them if it did not disconnect, was not stopped and had no failed write, but for one whose turn is still to come |
| NoDeadlock.FanOutIsNeverStuck | internal/tcp/server.go:184-221 | in every run the loop has its next step: it waits for no session, and a failing write does not hold it up |
| NoDeadlock.SendIsNeverStuck | internal/tcp/server.go:223-244 | in every interleaving a goroutine inside a send has its next step, whatever the others do to the writer |
| NoDeadlock.WireIsNeverStuck | internal/tcp/server.go:141-227 | in every run of one session under the mutex whoever holds it can go on, and while it is free the loop can begin the line it owes and a reader its reply |
| TcpServer.TcpSession.Send | internal/tcp/server.go:223-227 | one send adds the whole line, or a prefix of it together with a sticky failure |
| TcpServer.Server.Register | internal/tcp/server.go:122-125 | the session is in the table under its id |
| TcpServer.Server.Unregister | internal/tcp/server.go:134-137 | exactly this id is out of the table |
| TcpSystem.StopSilences | internal/tcp/server.go:73-84 | after Stop no session there was gets anything but the update being sent round at that moment |
| TcpSystem.DeadSessionsGetNothingNew | internal/tcp/server.go:134-137 | a session out of the table gets at most the one update whose snapshot it is still in |
| TcpServer.Truncate | internal/tcp/server.go:177 | a chapter given as a floating-point number loses its fraction towards zero |
| TcpServer.Server.HandleProgress | internal/tcp/server.go:167-182 | a report without a manga is refused and published to nobody; any other is offered to each subscriber under the session's own user and acknowledged, and nothing is stored |
| TcpServer.Server.HandleLine | internal/tcp/server.go:141-164 | a blank line is passed over; every other is answered with exactly one line on its own session, the reply of its kind; only a report with a manga is published, under the session's user |
| TcpServer.Server.SessionsOf | internal/tcp/server.go:208-215 | the snapshot is exactly the registered sessions of the user |
| TcpServer.Server.SendAll | internal/tcp/server.go:216-220 | each target's output gets the line at most once, and one failure does not stop the others |
| TcpServer.Server.BroadcastProgress | internal/tcp/server.go:200-221 | sessions of the update's user are each sent the payload once; the output of every other session is unchanged |
| UninterruptedFanOut.MatchesBroadcastProgress | internal/tcp/server.go:200-221 | one update sent round without interruption, in any order and with any writes failing, is written once to each registered session of its user and to no other |
| Library.ListMirrorsTable | internal/manga/repository.go:111-152 | after any calls at strictly increasing times the move-to-front list and the table hold the same rows, one per key, newest first |
| Library.ListingIsMoveToFront | internal/manga/repository.go:154-183 | the timestamp-descending query equals the move-to-front list, joined and filtered, in list order |
| Library.KeysAlwaysHold | internal/database/db.go:32-42 | every library row's manga exists after any operations |
| Library.JoinDropsNothing | internal/manga/repository.go:155-166 | every selected row of the list is listed at its place, each column from the right table |
| Library.StatusFilterCommutes | internal/manga/repository.go:162-166 | filtering by status in the query and filtering the unfiltered listing give the same list |
| Library.OthersDoNotShow | internal/manga/repository.go:154-183 | after any calls, one more call on another user's row leaves a user's listing as it was |
| Library.TablesFollowCalls | internal/manga/repository.go:23-41 | after any calls, a user exists exactly if it was created, and a manga exactly if it was put, with the columns of the latest put |
| RowHistory.RowsAreExplained | internal/manga/repository.go:111-152 | for any sequence of calls at any times: a row exists iff an add took effect since the last removal; chapter and status are those of the latest write, the rating survives re-adds and is 0 if never set, the time is the latest touch |
| RowHistory.ProgressNeedsRow | internal/manga/repository.go:126-139 | a progress update succeeds exactly when the row exists, and then the row holds its chapter |
| RowHistory.RatingsStayInRange | internal/httpapi/server.go:320-325 | if all ratings came through the HTTP check, every stored rating is in 0..10 |
| Text.AnywhereMeaning | internal/manga/repository.go:73-78 | `%q%` matches a text iff `q` as a pattern matches some stretch of it |
| Text.ContainedIsFound | internal/manga/repository.go:73-78 | `%q%` matches every text that contains `q`, wildcards or not |
| Text.PlainFindsOnlyContained | internal/manga/repository.go:73-78 | without `%` and `_`, `%q%` matches exactly the texts that contain `q` |
| Text.LikeMeansPieces | internal/manga/repository.go:73-78 | a text is LIKE a pattern exactly if it can be cut into one piece per pattern character: any stretch for `%`, any character for `_`, the character itself for every other |
| Text.LikeIsSubstringIffPlain | internal/manga/repository.go:73-78 | LIKE agrees with substring search on all folded texts iff `q` has no wildcard |
| Genres.GenresRoundTrip | internal/manga/repository.go:24-56 | genres read from the column are the genres stored, a missing list included |
| Genres.StoredAsItself | internal/manga/repository.go:24 | which characters stand in the column as themselves |
| Genres.StoredShort | internal/manga/repository.go:24 | the short escapes of quote, backslash, newline, return and tab |
| Genres.StoredAsHex | internal/manga/repository.go:24 | all other escaped characters are stored as the four lower-case hex digits of their code |
| Genres.AlwaysFoundIffSurvives | internal/manga/repository.go:24-79 | a search text without wildcards finds every manga with a genre containing it if and only if its folded form is part of the array's opening or closing or occurs in its own stored form |
| Genres.GenreIsFound | internal/manga/repository.go:76-79 | a manga with a genre containing the search text is found if no character of the search text needs escaping |
| Genres.GenreFilterExact | internal/manga/repository.go:76-79 | for search texts without wildcards, escapes and array punctuation, on genres that need no escaping, the filter finds exactly the manga with a genre containing the text |
| Genres.EscapedGenreIsMissed | internal/manga/repository.go:24-79 | an input on the failing side of that condition: a manga of genre "R&B" is not found by `r&b` |
| Genres.MissingListIsFound | internal/manga/repository.go:24-79 | a manga stored without a genre list is found by a search text without wildcards if and only if the text is part of `null` |
| Sql.JoinedParses | internal/manga/repository.go:86-88 | any list of self-contained condition texts joined by AND is read as their conjunction, one slot per argument, left to right |
| Sql.ConjunctionMeansAll | internal/manga/repository.go:68-92 | bound to the accumulated arguments, the conjunction holds of a row iff each condition holds with its own arguments |
| Search.StatementParses | internal/manga/repository.go:85-90 | any statement built that way is well formed, with LIMIT and OFFSET as the last two slots |
| Search.StatementMeansFilter | internal/manga/repository.go:68-92 | for every filter combination the statement selects exactly the page of the sorted rows that meet the plain filter |
| Search.SortByTitleSorts | internal/manga/repository.go:89 | the rows come out sorted by the comparison the sort uses, each as often as it went in |
| Search.TitleLeqMeans | internal/manga/repository.go:89 | one title comes before another exactly if it is a prefix of it or has the smaller character where they first differ |
| Search.ResultsAreAlphabetical | internal/manga/repository.go:89 | the results are in that alphabetical order, a permutation of what was selected, with rows of equal title in table order |
| Search.SelectCounts | internal/manga/repository.go:68-92 | a row is selected as often as it stands in the table if title or author, genre column and status are as asked for, and never otherwise |
| Search.PageMeans | internal/manga/repository.go:61-90 | a page starts at the offset, 0 for a negative one, and has as many rows as there are up to the limit |
| Search.PagesPartition | internal/manga/repository.go:61-108 | pages at multiples of the clamped limit put together give the whole list with no gap or repetition; later pages are empty |
| Search.SteppingByRequestedLimit | internal/manga/repository.go:61-66 | stepping by the requested limit gives the whole list iff the limit was not cut down or the list fits one page |
| Repository.MangaRoundTrip | internal/manga/repository.go:23-58 | a manga read back is the manga stored |
| Repository.MangaRepository.Upsert | internal/manga/repository.go:23-41 | the manga is found under its id with all new columns; every other id is untouched |
| Repository.StoredThenRead | internal/manga/repository.go:23-58 | after an upsert its id reads back exactly the manga given, and every other id reads as before |
| Repository.MangaRepository.GetByID | internal/manga/repository.go:43-58 | not found exactly if no row has the id; otherwise a row with the id, decoded |
| Repository.MangaRepository.BuildFilter | internal/manga/repository.go:68-83 | the two growing slices stay aligned: texts and arguments of the same conditions, in the same order |
| Repository.MangaRepository.Search | internal/manga/repository.go:60-109 | every search succeeds and returns the clamped page of the wanted rows in alphabetical order, 20 for a missing limit and at most 100 |
| Repository.MangaRepository.AddToLibrary | internal/manga/repository.go:111-124 | succeeds iff the row exists or both foreign keys do; then the row has the given chapter and status (plan-to-read for an empty one) and its old rating or 0, and no other row changes |
| Repository.MangaRepository.UpdateProgress | internal/manga/repository.go:126-139 | succeeds iff the row exists; then only its chapter and time change, and otherwise nothing |
| Repository.MangaRepository.UpdateRating | internal/manga/repository.go:141-147 | only this row's rating and time change; a missing row is not reported and nothing changes |
| Repository.MangaRepository.RemoveFromLibrary | internal/manga/repository.go:149-152 | afterwards the pair has no row, and every other row is as before |
| Repository.MangaRepository.GetLibrary | internal/manga/repository.go:154-183 | exactly the rows of this user with the wanted status, each shown with its manga and its own columns, none older before a newer one |
| Handlers.ProgressCode | internal/httpapi/server.go:280-297 | the answer is 200 exactly if the manga is named and known, the chapter is neither negative nor past a known total, and the row exists; 404 exactly if a well-formed request names no known manga; otherwise 400 |
| Handlers.AtoiReadsBack | internal/httpapi/server.go:190-191 | a decimal query parameter is read as its number, with either sign or none |
| Handlers.AtoiOfDigits | internal/httpapi/server.go:190-191 | digits are read as their value up to the ends of 64 bits, with a sign and with leading zeros |
| Handlers.AtoiOfOther | internal/httpapi/server.go:190-191 | everything that is not an optional sign and then digits is read as 0 |
| Handlers.Api.UpdateProgress | internal/httpapi/server.go:274-307 | on 200 the row is written and each subscriber offered the update; on any other answer neither rows nor queues change |
| Handlers.Api.AddToLibrary | internal/httpapi/server.go:226-246 | each answer code with its exact cause, and the table changed only on 201 |
| Handlers.Api.UpdateRating | internal/httpapi/server.go:314-330 | a rating outside 0..10 never reaches the table; a missing row still answers 200 |
| Handlers.Api.SearchManga | internal/httpapi/server.go:186-202 | a missing limit is 20 and a missing offset 0, unreadable ones count as 0, and at most 100 results come back |
| Handlers.GrpcServer.UpdateProgress | internal/grpc/service.go:179-193 | success exactly if both ids are given and the row exists, with no chapter check; only then are the row and the queues changed |
| Handlers.GrpcServer.SearchManga | internal/grpc/service.go:167-177 | the repository's results in order, and their number |
| Convergence.RunsKeepInv | internal/httpapi/server.go:280-304 | in every reachable state an undisturbed pair's row writes equal its offers to the TCP channel, but for at most one update on its way |
| Convergence.WritesArePublished | internal/httpapi/server.go:294-304 | once drained, an undisturbed pair's written and published updates are the same sequence and the row holds the last |
| Convergence.SessionSeesPublished | internal/tcp/server.go:184-221 | once drained, a live session has exactly what was offered for the pair since it registered, in publish order, with no assumption on overlap |
| Convergence.SessionsConverge | internal/grpc/service.go:183-191 | once drained and undisturbed, each live session of the user has seen exactly the chapters written since it registered, and its last frame carries the row's chapter |
| ConvergenceEvents.WritesByEvents | internal/httpapi/server.go:280-304 | the writes of a run are the updates of its gRPC calls and of its checked HTTP calls that found their row, in the order of the writes |
| ConvergenceEvents.TouchedByEvents | internal/httpapi/server.go:226-246 | a pair counts as touched exactly if it was added or removed during the run |
| ConvergenceEvents.DisturbedByEvents | internal/httpapi/server.go:280-304 | a pair counts as disturbed exactly if a TCP client reported it, it was added or removed, or a call wrote its row while another one for it was under way |
| ConvergenceEvents.MatchesHandler | internal/httpapi/server.go:280-304 | check and write taken together are enabled exactly when the handler answers 200, and do to the table what it promises; past the checks without a row the answer is 400 |
| NoDeadlock.PathIsNeverStuck | internal/httpapi/server.go:280-304 | in every run a checked call writes or is refused, a written update can be published while nobody holds the write lock, the loop can take what waits, and reports and gRPC calls are turned away only for the reasons the handlers give |
| Convergence.ConvergesIffLastPublishMatches | internal/httpapi/server.go:294-304 | under overlap, the session ends on the row's chapter if and only if the last publish carried the chapter of the last write |
| ConvergenceSchedule.LastWriterPublishesLast | internal/httpapi/server.go:294-304 | under overlap, if the call that wrote last is the one whose publish came last, every drained session that has seen the pair ends on the row's chapter |
| ConvergenceWitness.OverlapCanDiverge | internal/httpapi/server.go:294-304 | two overlapping calls leave the row at 7 and the session at 5, with nothing dropped and no write failed |

## Left out

- Sockets, HTTP routing, gRPC transport, deadlines, ping tickers, logging and process shutdown: only "the write succeeds
  or fails" and the scheduling remain of them.
- Token parsing, password hashing and random ids: a request arrives with its user id, and ids are fresh.
- Decoding of requests and of incoming chat, TCP and gRPC payloads; the frames of the hub and of the TCP server are
  values, and `TcpSystem` and `Lines` treat an encoded payload as one line without a newline.
- General JSON: `Genres` has only arrays of strings. Its writer follows Go's `encoding/json`, escapes included; control
  characters other than newline, return and tab are written with four hex digits. Its reader accepts what the writer
  produces and simple escapes, not white space between elements.
- The SQLite engine, its indexes, its limit on LIKE pattern length, and statement failures other than foreign keys; one
  statement is one atomic step.
- Case folding outside ASCII, byte counts as opposed to character counts (chat texts are cut at 1000 characters here,
  at 1000 bytes in the original), and times inside frames.
- What converting a floating-point chapter outside the integer range yields, and rounding: such chapters are reals here.
- The integer width of chapters, ratings, totals and ids, which are unbounded here.
- Removing a row and listing over HTTP, `GetProgress`, `Count`, `GetManga`: one call each into what is modelled.
- The UDP server, user repository, configuration, command line, seeder and `cmd` programs: little joint state.
- Conversion of a manga to its gRPC message: a field-by-field copy, taken as the identity.
- A payload longer than the writer's buffer that bypasses it, and what the writer's count is after a flush that fails while
  another flush is under way: `LineSystem` takes long payloads through the buffer in parts, and leaves a failed writer's
  buffer alone, since it is never written again.
- Liveness: that a scheduled goroutine eventually takes its step. Results about finished work are stated for states in
  which it is finished (`BroadcastOver`, `Drained`).
- Hub.ChatHub.Say: cuts a text at 1000 characters where the original cuts at 1000 bytes, and states an uninterrupted chat
  line; interleavings are in `HubSystem`.
- HubTheorems.NoGap: says nothing of a broadcast cut short by a panic, for which the property fails; `CopiesSoFar` covers
  it and `AllReachedIffNoPanic` is the exact condition.
- Convergence.SessionsConverge: says nothing when the TCP loop's channel overflowed, when a session's write failed, or
  when calls for the pair overlapped; the last case has its exact condition in `ConvergesIffLastPublishMatches`.
