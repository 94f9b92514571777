# A verified model of the cinema booking system

Clients reserve and pay seats through a middleware daemon (MOM), a socket, the cinema's session
listeners and the admin's request handlers, over one reservation database. This project models those
parts in Dafny and proves what they promise one another. `dafny verify dfyconfig.toml` checks it.

| files | what they model |
|---|---|
| `Bytes`, `Messages`, `Codec`, `WireFormat`, `Socket`, `Framing` | the message, its wire format as functions and as bytes at offsets, `serialize_message` and `deserialize_message` over a byte buffer, and the send and receive loops over a byte stream |
| `TypedQueue`, `CommQueue` | System V queues with typed receives, and the two-way message channels made of two of them |
| `Ledger`, `Handlers`, `Orderly` | the tables as relations with primary keys; every handler as a program of single SQL statements that interleave with those of any other handler and with restarts of the admin |
| `Serving`, `Admin`, `Views` | `admin_handle_request` as imperative code over the database, the meaning of one served request, and the room pictures the viewers hold |
| `Requests` | the messages behind requests and replies: what a call sends, what the admin reads from it, what it answers and what the call makes of the answer |
| `SessionCalls`, `CallsInSteps`, `ClientInterface` | the calls of the client interface, what they do to the client's own list of reservations and to the tables, and whole sessions with other users' handlers between the calls and between the statements of a call |
| `Relay`, `RelayInvariant`, `RelayLocal`, `RelayProof`, `RelaySteps`, `RelayEffects`, `RelayMessages`, `RelayOrder`, `RelayHandlers`, `RelayProgress` | the path of requests and answers through all queues, sockets and processes, for any number of clients |
| `Course`, `RelayCourse`, `SessionCourse`, `LedgerCourse` | when the admin's handlers start and end, and for which request: what the relay, or sessions with their timers, bring about is what the ledger's theorems ask for |
| `Processes` | the client's messages and the loops of the MOM's client process, the cinema's network process and the session listener on the channels, and that each of their turns is a step of the relay |
| `TimedSession` | one session to its end: the inactivity timer's EXIT racing with the client's own calls, the MOM's process that passes them on, and the user's handlers |
| `Timer` | the polling loop of the inactivity timer |
| `Mailbox` | the shared-memory slots through which seat updates reach the client |

## How to read the model

*Bytes.* Both hosts' byte orders are parameters, so `htonl` on the sender and `ntohl` on the receiver are
the real functions. A frame is `sizeof(q_message) + 8` bytes; what follows the encoded part is left
open, as `malloc` leaves it. `WireFormat` says which byte stands where without the encoding functions: numbers most
significant byte first at fixed offsets, but for the two `success` fields.

*Ledger.* A state holds the tables and a program counter for each handler. One step is one SQL statement
of one handler; an INSERT that violates a primary key changes nothing. The order in which a SELECT returns
its rows is any order. `Handlers.Run` is unrestricted. `Orderly.OrderlyRun` adds what the
session listeners guarantee: handlers of one user do not overlap, none follows the user's EXIT, and a seat is
selected only by a user in a room and not beyond the room's seats. `LedgerCourse` proves that the first two, with
each user's requests dispatched in their order, are exactly that handlers start in turn, and that every run of the
relay, and sessions with their timers, one for each user, have them do so.

*Relay.* A state holds every queue and socket, the state of every process, and some bookkeeping no step
looks at. A tag carried along with each message says whose request it belongs to; routing never looks at it.

*TimedSession.* The MOM's process stands between client and listener: one queue each way to the client, one each way
to the listener, and it ends when it has passed an EXIT on. A client that has been told of the end by the cinema can
still log in, since `login` does not ask whether there is a connection. The timer's send and its mark in the slot are
two steps, and so are the listener's look at the slot and its refresh.

## Assumptions

- Routing ids in use (client tokens and cinema ids) are distinct and greater than 2. The tokens are process
  ids; the cinema ids come from an autoincrement key after two seeded users.
- MOM and cinema run on separate hosts, so their queues are separate.
- The calls of a client come one at a time, and a client program does not join the MOM anew after it has left. In what
  order it logs in and sends requests, and how often, is open; `RelayProgress.AllAnsweredIff` without the timer, and
  `TimedSession.AllAnswered` for a session with it, say exactly when all are answered.
- Clients do not share a timer slot (id modulo 100) or an update slot (id modulo 50).
- The seats of a room are numbered 1 to n. Counts obey the array bounds (20 rooms, 50 seats, 500 reservations).
- `send` and `recv` move at least one byte, SQL statements fail on key violations only, and the admin's update
  socket delivers.

## Findings

- A seat map that reports failure arrives as success at a little-endian host, because line 231 of
  `src/network/socket.cpp` reads a 32-bit field with `ntohs` (`Codec.FailedSeatMapArrivesAsSuccess`). The exact set of
  messages the wire keeps intact is `Codec.Faithful`.
- The client's list of reservations agrees with the ledger after `reserve_seat`, whatever room the database picks, exactly
  if the seat names the room wherever it is to be had among the rooms the session is viewing
  (`SessionCalls.ReserveAgreesIff`); with two rooms viewed it can come out wrong (`SessionCalls.TwoRoomsMislead`). The seats
  `get_seats` returns name room 0.
- Three kinds of request are never answered. One sent without a login, which in the end also keeps everybody else from
  the cinema; and a login of a client that is logged in, whose answer is typed with the client's token while its MOM
  process waits for its cinema id: without the timer there are no others (`RelayProgress.AllAnsweredIff`,
  `EachAnsweredIff`), and both occur (`PrematureHappens`, `SecondLoginHappens`). With the timer there is a third, a login
  after the cinema has closed the session: the client's entry is kept (`src/middleware/client_interface.cpp:182`) and its MOM
  process has ended, so that nobody reads it. In a session with its timer everything is answered if and only if no login
  is sent (`TimedSession.AllAnswered`), and both logins occur (`LoginAfterTimeout`, `LoginWhileLoggedIn`).
- An EXIT frees seats without telling the viewers; the pictures stay exact exactly if no viewer looks at a room
  in which the user leaves an unpaid seat (`Views.ServedKeepsExact`, and `Views.ExitMisleads` for a state where one does).
- A message of a session stays in the queue for good exactly if one of two critical sections is torn
  (`TimedSession.LeftoverWhenTorn`); both ways of tearing are exhibited.
- A client that polls before the seat listener's first write gets an empty update, since zeroed memory reads as
  news (`Mailbox.EarlyPoll`).
- The mark TIMER_CLOSE (`src/cinema/cinema.cpp:167`) does not close the timer: line 103 compares the clock with it, and with
  the mark in the slot a look at any non-negative clock would send an EXIT (`Timer.CloseMarkIsMistaken`). What ends the
  timer is its own EXIT or the kill at line 159.
- A selection of a seat the room does not have is inserted, and exactly then the marking loop leaves its array as soon as
  somebody is viewing the room (`Admin.MarkingInBounds`, and `Admin.MarkingBeyondTheRoom` for such a state).

## Model

| member | source | states |
|---|---|---|
| Codec.EncodingFits | src/network/socket.cpp:99-170 | no message with in-range counts is encoded in more than `sizeof(q_message)` bytes, so the cursor never leaves the buffer |
| Codec.RoundTrip | src/network/socket.cpp:198-266 | for every choice number, every in-range count and both byte orders, reading a frame gives the message it carries, with `success` changed in the one way the two hosts' missing conversions change it |
| Codec.RoundTripIdentity | src/network/socket.cpp:99-266 | the round trip is the identity if and only if the message is faithful: a condition on `success` and the byte orders alone |
| Codec.SuccessKeepsZero | src/network/socket.cpp:148-155 | an outcome's `success` arrives as zero if and only if it was zero, although it is sent without `htonl` |
| Codec.FailedSeatMapArrivesAsSuccess | src/network/socket.cpp:229-240 | at a little-endian host every seat map that reports failure is read as a success |
| WireFormat.CarriesIff | src/network/socket.cpp:99-170 | a frame carries a message if and only if each of its fields stands at its offset, by the value of the bytes there: type, client id and choice at 0, 4 and 8, counts, ids, reservations, statuses and information behind them, `success` as the sender's byte order leaves it |
| WireFormat.DecodedStands | src/network/socket.cpp:198-266 | what a receiver reads from a frame is, field for field, what stands there by the value of the bytes, `success` of a seat map by half of its bytes |
| Socket.SerializeMessage | src/network/socket.cpp:99-170 | the imperative encoder leaves a frame that carries the message, with every field of the union member in use at its offset by the value of its bytes, in bounds, and changes nothing behind |
| Socket.SerializeBody | src/network/socket.cpp:110-169 | each branch of the switch writes the fields of its payload at their offsets, most significant byte first but for the unconverted `success` |
| Socket.SerializeSeats | src/network/socket.cpp:131-142 | ids, statuses and information follow each other without gap, across the change from int to char cursor |
| Socket.SerializeInts | src/network/socket.cpp:82-87 | the loop writes the first `size` numbers in network order and leaves the rest of the buffer alone |
| Socket.SerializeReservations | src/network/socket.cpp:89-97 | the loop writes room and seat of each reservation in turn |
| Socket.SerializeChars | src/network/socket.cpp:75-80 | the loop copies `size` bytes |
| Socket.DeserializeMessage | src/network/socket.cpp:198-266 | the imperative decoder fills the structure with the numbers whose bytes stand at the offsets of the frame, in bounds |
| Socket.DeserializeBody | src/network/socket.cpp:208-265 | each branch of the switch reads the fields of the payload its choice number selects from where they stand |
| Socket.DeserializeSeats | src/network/socket.cpp:229-240 | the seat map is read field for field, `success` through `ntohs`, each part where the cursor of the one before has come to |
| Socket.DeserializeInts | src/network/socket.cpp:172-177 | the loop reads `count` numbers and moves the cursor behind them |
| Socket.DeserializeReservations | src/network/socket.cpp:186-196 | the loop reads `count` pairs and moves the cursor behind them |
| Socket.DeserializeChars | src/network/socket.cpp:179-184 | the loop copies `count` bytes and moves the cursor behind them |
| Socket.SendPacket | src/network/socket.cpp:268-287 | whatever the sizes of the partial sends, one whole frame carrying the message is appended to the stream, and the pointer freed is the start of the buffer |
| Socket.ReceivePacket | src/network/socket.cpp:289-311 | whatever has arrived when it is called and whatever the sizes of the partial receives, exactly one frame is taken from what the peer sends and the structure says what it said |
| Framing.FramesArriveInOrder | src/network/socket.cpp:268-311 | over any run of partial sends and receives the frames received are a prefix of those sent, unshifted; all of them when nothing is under way |
| Framing.MessagesArriveInOrder | src/network/socket.cpp:268-311 | the messages decoded are those encoded, in order, each as the codec delivers it |
| Framing.LoopsEnd | src/network/socket.cpp:273-304 | every partial send or receive makes the outstanding bytes fewer |
| Framing.NoStall | src/network/socket.cpp:273-304 | while bytes are outstanding one side can move some |
| TypedQueue.EachTypeIsFifo | src/ipc/queue.cpp:22-41 | over any history, whatever types and selectors are mixed, the messages of one type are received in the order sent, each once, and the rest is still queued |
| TypedQueue.UntypedIsFifo | src/ipc/queue.cpp:33-41 | a reader that asks for type 0 receives everything in the order sent |
| TypedQueue.TakeIsDequeue | src/ipc/queue.cpp:33-41 | taking any selected message removes the front of its own type's channel and leaves every other channel as it was |
| CommQueue.SystemQueue.Send | src/ipc/queue.cpp:22-31 | a message of positive type is appended, any other is refused and changes nothing |
| CommQueue.SystemQueue.Receive | src/ipc/queue.cpp:33-41 | the oldest message of the type asked for leaves its channel and no other channel changes |
| CommQueue.Channels.SendMessage | src/ipc/communicationqueue.cpp:19-26 | the type is the end's id or the message's own, and it is written into the message unless that is a connection request |
| CommQueue.Channels.ReceiveTyped | src/ipc/communicationqueue.cpp:28-33 | exactly the oldest message of the type on the queue the orientation selects |
| CommQueue.Channels.Receive | src/ipc/communicationqueue.cpp:35-40 | the same for the end's id; without an id nothing is received |
| CommQueue.EndsMeet | src/ipc/communicationqueue.cpp:19-33 | ends of opposite orientation meet on the same queue in both directions |
| Handlers.StepRespectsRows | src/db/db_api.cpp:77-144 | no statement of any handler, and no restart, removes a paid row, undoes a payment or changes a row's owner |
| Handlers.PaidIsForEver | src/admin/admin.cpp:20-167 | over every statement-level interleaving with restarts a paid row stays, with its owner, for ever |
| Handlers.RestartCleans | src/admin/admin.cpp:164-167 | a restart leaves exactly the paid rows, nobody in a room and no handler running |
| Handlers.OneOwner | src/db/db_api.cpp:47-55 | while a seat stays reserved it stays reserved by the same user, and paid once it is paid |
| Handlers.OthersKeepRows | src/db/db_api.cpp:77-106 | no statement of a handler touches the rows of another user |
| Ledger.MarkedIsExact | src/admin/admin.cpp:76-85 | for any number and order of reservations read, status i is occupied if seat i+1 is reserved and free if it is not |
| Ledger.QueriesAreExact | src/db/db_api.cpp:206-240 | the queries for the rooms of a user, the users in a room and the reservations of a room answer exactly the rows of the tables |
| Orderly.RunKeepsInv | src/admin/admin.cpp:152-162 | the invariant behind the theorems below holds in every state of every orderly interleaving |
| Orderly.Settlement | src/admin/admin.cpp:25-45 | once a user's EXIT has been carried out the user's rows are exactly those it owned when some pay request listed them, all paid |
| Orderly.SettlingFrees | src/db/db_api.cpp:77-82 | the settling step frees every seat the user took and did not list, and leaves all rows of others |
| Orderly.ReservedSeatsExist | src/db/db_api.cpp:122-144 | no reservation is ever of a seat the room does not have, although the foreign keys are not enforced |
| Orderly.BroadcastIsExact | src/admin/admin.cpp:109-134 | a successful selection has sent one update to each user viewing the room when it asked, none to the requester, each showing the new seat occupied, whatever other handlers did meanwhile |
| Orderly.HeardStays | src/admin/admin.cpp:110-120 | what a selection found about the room's viewers is not disturbed by other handlers |
| Admin.MarkSeats | src/admin/admin.cpp:76-85 | the loop writing `seat_status[index-1]` computes the specified marking |
| Admin.Database.InsertReservation | src/db/db_api.cpp:122-144 | a row appears, unpaid, exactly if the seat id is positive and the seat is free |
| Admin.Database.Clean | src/admin/admin.cpp:164-167 | the paid rows stay as they are, unpaid ones go, and nobody is in a room |
| Ledger.PaymentOutlastsRelease | src/db/db_api.cpp:91-99 | paying a place saves exactly that row of the user's, besides those paid before, from the release of its unpaid rows, and touches no row of others |
| Ledger.ReleaseFrees | src/db/db_api.cpp:77-82 | after a release another user can reserve exactly the places that were free before or held unpaid by the user |
| Ledger.CleaningReleasesAll | src/admin/admin.cpp:164-167 | the cleaning of the reservations is the release of everybody's unpaid rows, one user after the other, in any order |
| Admin.MarkingInBounds | src/admin/admin.cpp:114-119 | once a seat has been reserved the marking loop stays within its array if and only if the room has that seat |
| Admin.MarkingBeyondTheRoom | src/admin/admin.cpp:114-119 | a state in which a user reserves seat 5 of a room of one seat that somebody else is viewing |
| Admin.Admin.HandlePay | src/admin/admin.cpp:25-39 | the loop pays exactly the user's rows that are listed and answers success in any case |
| Admin.Admin.HandleExit | src/admin/admin.cpp:40-45 | the user is logged out, its unpaid rows go, no answer is sent |
| Admin.Admin.HandleRegister | src/admin/admin.cpp:46-52 | a new id, active from then on |
| Admin.Admin.HandleSeats | src/admin/admin.cpp:67-93 | a picture of the room that is exact, and the user is viewing it; an error for a room without seats |
| Admin.Admin.HandleSelect | src/admin/admin.cpp:95-143 | the three outcomes: not in a room, seat not to be had, or reserved with the updates sent |
| Admin.Admin.Broadcast | src/admin/admin.cpp:114-133 | one exact picture of the room to each watcher, in order |
| Admin.Admin.HandleRequest | src/admin/admin.cpp:20-150 | the imperative handler is an uninterrupted run of the statement machine and does what `Serving.Served` says of its request |
| Views.ServedKeepsSound | src/admin/admin.cpp:67-143 | serving any request leaves no registered viewer whose last picture shows a reserved seat as free |
| Views.ViewersAreNeverMisled | src/admin/admin.cpp:67-143 | and so through any history of requests served one at a time |
| Views.ServedKeepsExact | src/admin/admin.cpp:40-45 | pictures stay exact through all requests but EXIT; through an EXIT if and only if no viewer looks at a room in which the user leaves an unpaid seat |
| Views.ExitMisleads | src/admin/admin.cpp:40-45 | a state and an EXIT after which a viewer sees a free seat as occupied |
| Views.ServedKeepsConsistent | src/db/db_api.cpp:33-67 | the numbering of seats, and reservations and viewings within the rooms, survive every request |
| Views.SelectConsistentIff | src/db/db_api.cpp:122-144 | a selection leaves the tables consistent if and only if the seat it has reserved is one of the room's |
| Views.ServedKeepsKnown | src/admin/admin.cpp:46-52 | rows and viewings stay with users whose id has been issued, and ids only grow |
| Views.NewIdOwnsNothing | src/admin/admin.cpp:46-52 | so an id just issued has no reservation and views no room |
| Requests.RequestArrives | src/middleware/client_interface.cpp:229-414 | whatever type it is sent with and between hosts of whatever byte order, the message of a call is read by the admin's switch as the request of that call |
| Requests.AnswerArrives | src/admin/admin.cpp:20-150 | and the call tells its caller of a success if and only if the admin has granted it, although `success` does not cross the wire unchanged; room ids, seat ids and statuses arrive as they were read |
| Requests.AnswersFollow | src/admin/admin.cpp:36-139 | an answer that grants a call has the choice number that follows that of its request |
| SessionCalls.ReserveAgreesIff | src/middleware/client_interface.cpp:322-362 | before `reserve_seat` a caller can tell whether list and ledger will agree in every outcome: if and only if the seat names the room wherever it is to be had among the rooms viewed |
| SessionCalls.TwoRoomsMislead | src/middleware/client_interface.cpp:322-362 | a state with two rooms viewed and an outcome after which they do not |
| SessionCalls.AgreesThroughout | src/middleware/client_interface.cpp:229-414 | a session that views one room at a time has, after every call and whatever others do in between, a list without duplicates that names exactly its rows |
| SessionCalls.RoomsAreViewed | src/db/db_api.cpp:184-212 | through a whole session the rooms the database has the user in are those the session itself has asked to see since it last reserved |
| SessionCalls.PaidInFull | src/middleware/client_interface.cpp:375-414 | in such a session a payment it is told of has paid every row it has, and each is on its list |
| SessionCalls.HandlersAreElsewhere | src/admin/admin.cpp:20-150 | any statement of another user's handler in any orderly interleaving leaves the session's rows and rooms alone |
| SessionCalls.ReservedListed | src/middleware/client_interface.cpp:356-361 | after one more row and one more entry the list is right if and only if they name the same place |
| SessionCalls.OnlyOwnRowsMatter | src/middleware/client_interface.cpp:364-371 | handlers of other users cannot break the agreement of list and ledger |
| CallsInSteps.RequestTakesEffect | src/admin/admin.cpp:20-150 | in any orderly interleaving, from the arrival of a user's request to its end the user's own rows and rooms change as the request and its reply say, whatever statements other handlers run meanwhile |
| CallsInSteps.BetweenRequests | src/admin/admin.cpp:152-162 | and until the user's next request nobody changes them |
| CallsInSteps.AgreesInSteps | src/middleware/client_interface.cpp:229-414 | so also statement by statement a session that views one room at a time has, from the end of each call to the next, a list that names exactly its rows, knows its rooms, and has all rows paid after a payment |
| ClientInterface.Session.constructor | src/middleware/client_interface.cpp:97-159 | a new session, before or after calls of others, has the next cinema id, an empty list, no rows and no rooms |
| ClientInterface.Session.GetRooms | src/middleware/client_interface.cpp:229-263 | the rooms of the database, or an empty answer when the session is over, with the error that says so |
| ClientInterface.Session.GetSeats | src/middleware/client_interface.cpp:277-320 | every seat of the room once, occupied if it is reserved and free if not; the room joins those the session is viewing; the room id of the seats is not filled in; only a room without seats gives none while the session lasts |
| ClientInterface.Session.SeatsToVector | src/middleware/client_interface.cpp:266-275 | the loop copies ids and statuses in order |
| ClientInterface.Session.ReserveSeat | src/middleware/client_interface.cpp:322-362 | one row and one list entry, and no room viewed any more; list and ledger agree if the seat names its room, and exactly if it names the room picked; the tables stay in order exactly unless the seat reserved is not one of the room's |
| ClientInterface.Session.PaySeats | src/middleware/client_interface.cpp:375-414 | on success the user's rows on the list are paid, and so all its rows if list and ledger agreed |
| ClientInterface.Session.EndMom | src/middleware/client_interface.cpp:438-455 | the session is over and only paid rows of the user remain |
| RelaySteps.StepKeepsInv | src/middleware/mom.cpp:192-240 | every step of every process keeps the invariant that ties each client's message to the states of the processes on its way |
| RelaySteps.RunKeepsInv | src/cinema/cinema.cpp:129-197 | so it holds in every reachable state, for any number of clients |
| RelayMessages.OneMessageEach | src/middleware/mom.cpp:192-240 | a client waits if and only if there is a message about it anywhere; it is then exactly one, at one place, and about its latest request |
| RelayMessages.AnswerIsOwn | src/cinema/cinema.cpp:181-193 | the answer a client receives is the one computed for its own latest request |
| RelayMessages.SlotIsOwn | src/middleware/mom.cpp:90-105 | the answer with which a client joins tells it the update slot its own MOM process writes to, its token modulo the number of slots |
| RelayOrder.NoOvertaking | src/ipc/queue.cpp:33-41 | in every run, as long as a message waits in a queue or socket no later one of its type has been received there, and at the network processes no later one at all |
| RelayHandlers.HandlersDoNotOverlap | src/cinema/cinema_handler.cpp:13-22 | no two requests of one user are with the admin at the same time |
| RelayHandlers.UsersHandlersInOrder | src/admin/admin.cpp:152-162 | the handlers started for one id, at whatever times, are for requests of one client, in the order of its requests, one for each at most |
| RelayHandlers.HandlersInOrder | src/cinema/cinema.cpp:141-158 | the same, told by client |
| RelayHandlers.ExitIsLast | src/cinema/cinema_handler.cpp:18-22 | after the handler of a user's EXIT none is ever started for that user |
| RelayHandlers.IdsStayForEver | src/admin/admin.cpp:46-52 | a cinema id once given to a client, at its first login or a later one, is that client's for ever and nobody else's |
| RelayCourse.RelayIsInTurn | src/admin/admin.cpp:152-162 | in every run of the relay handlers start in turn: when their user has none running, has had none for an EXIT, and none for a later request |
| SessionCourse.SessionIsInTurn | src/cinema/cinema.cpp:129-168 | so do those of a session with its timer, in every run of it |
| Course.InTurnIffEach | src/cinema/cinema.cpp:141-158 | handlers are in turn if and only if those of each user are |
| LedgerCourse.OrderlyIffInTurn | src/admin/admin.cpp:152-162 | a run of the ledger's handlers is orderly, with each user's requests dispatched in their order, if and only if they start in turn |
| LedgerCourse.OrderlyEffects | src/admin/admin.cpp:152-162 | then all statements of a user's request come before all of its next one |
| LedgerCourse.RelayMakesOrderly | src/cinema/cinema.cpp:141-158 | so handlers that start and end as some run of the relay has them do are in an orderly run, and the requests of a user take effect one after the other in the order in which it made them |
| LedgerCourse.SessionsMakeOrderly | src/cinema/cinema.cpp:98-168 | and so are those that start and end as sessions with their timers, one for each user, have them do |
| RelayProgress.AllAnsweredIff | src/middleware/mom.cpp:192-240 | in a run that sends nothing new from some state on and has come to where nothing can go on, all are answered if and only if nobody was waiting in that state for a request without a login or a second login |
| RelayProgress.EachAnsweredIff | src/middleware/mom.cpp:203-204 | and if no request without a login was waiting, each client is left waiting if and only if it had logged in again |
| RelayProgress.BlockedIffPremature | src/middleware/mom.cpp:229-238 | where nothing can go on, the way to the cinema is taken if and only if a client waits that has sent a request without a login |
| RelayProgress.Settle | src/middleware/mom.cpp:226-240 | every run can be brought to where nothing can go on, without new requests |
| RelayProgress.NoDeadlock | src/middleware/mom.cpp:226-240 | while a client that can be answered waits and the way is free, some process can go on |
| RelayProgress.RankFalls | src/cinema/cinema.cpp:173-197 | every step but a new request makes the remaining hops fewer |
| RelayProgress.FewStepsLeft | src/middleware/mom.cpp:192-240 | without new requests a run ends within as many steps as its rank |
| RelayProgress.HopelessForEver | src/middleware/mom.cpp:203-204 | a client that has sent a request without a login, or logged in again, waits for ever |
| RelayProgress.BlockedForEver | src/middleware/mom.cpp:229-238 | once a request without a login has been sent to the cinema, no request of any client is sent there again |
| RelayProgress.PrematureHappens | src/middleware/client_interface.cpp:229-242 | a run in which such a request takes the way to the cinema |
| RelayProgress.SecondLoginHappens | src/middleware/client_interface.cpp:143-159 | a run in which a client that is logged in logs in again |
| Processes.MomProcess.PassRequest | src/middleware/mom.cpp:200-202 | the oldest request of the client goes to the network process, with the type the process's state prescribes |
| Processes.MomProcess.PassAnswer | src/middleware/mom.cpp:203-206 | the answer awaited goes to the client, and the process takes on the cinema id of an acceptance and ends on an EXIT |
| Processes.MomProcess.ProcessMessage | src/middleware/mom.cpp:159-190 | when the cinema id is set, the seat listener started or given up, and the loop ended |
| Processes.CinemaNetwork.Deliver | src/cinema/cinema.cpp:184-188 | the message goes to the listeners and the type to wait for is the one the relay uses |
| Processes.CinemaNetwork.Fetch | src/cinema/cinema.cpp:189-191 | the oldest answer of the awaited type, whatever else is queued |
| Processes.SessionListener.Take | src/cinema/cinema_handler.cpp:6-28 | what the admin's switch knows as a request of a session goes to the admin under the user's id and is not answered; what it would not know, and a login, is refused at once and the admin does not see it; an EXIT goes to the admin and its answer is held |
| Processes.CallsAreServed | src/cinema/cinema_handler.cpp:9-17 | no message of a client call is refused |
| Processes.KindsOfRequests | src/admin/admin.cpp:24-147 | what the relay takes a message to be is what the admin's switch makes of it |
| Processes.CallIsClientSends | src/middleware/client_interface.cpp:229-414 | the message of a call, put on the queue to the MOM, is the relay's step |
| Processes.LoginIsClientSends | src/middleware/client_interface.cpp:73-95 | so is that of a login |
| Processes.JoiningIsClientSends | src/middleware/client_interface.cpp:97-141 | and that of joining |
| Processes.SessionListener.Reply | src/cinema/cinema.cpp:152-157 | the admin's answer for this user, or the one held, goes to the client |
| Processes.PassRequestIsForkUp | src/middleware/mom.cpp:201-202 | that turn on message queues is the relay's step on its queues and on the process |
| Processes.PassAnswerIsForkDown | src/middleware/mom.cpp:203-206 | so is that one, for the queues and for the process |
| Processes.DeliverIsCineNetUp | src/cinema/cinema.cpp:184-188 | so is that one, with the type waited for |
| Processes.FetchIsCineNetDown | src/cinema/cinema.cpp:189-191 | so is the turn with the answer |
| Processes.TakeIsAsking | src/cinema/cinema_handler.cpp:9-17 | a turn that asks the admin is the relay's step |
| Processes.TakeIsRefusing | src/cinema/cinema_handler.cpp:23-24 | a turn that refuses is the relay's step |
| Processes.TakeIsLeaving | src/cinema/cinema_handler.cpp:18-22 | a turn that takes an EXIT is the relay's step |
| Processes.ReplyIsListenerAnswers | src/cinema/cinema_handler.cpp:14-17 | a turn with the admin's answer is the relay's step |
| Processes.ReplyIsListenerLeaves | src/cinema/cinema.cpp:152-157 | a turn with the held answer to an EXIT is the relay's step |
| TimedSession.RunKeepsInv | src/cinema/cinema.cpp:141-168 | in every state reachable with the timer: exactly the items and answers that are due |
| TimedSession.OneAnswerEach | src/cinema/cinema.cpp:141-158 | a client waiting for a request has one answer coming; who waits for the end gets an EXIT only; no plain answer is left for a later request |
| TimedSession.ReadsInOrder | src/cinema/cinema.cpp:141-165 | the listener takes or drains the messages of the client and the timer in the order in which they were put, and the client receives the listener's answers in theirs |
| TimedSession.RepliedIffBeforeTimer | src/cinema/cinema.cpp:141-158 | a request is answered with the admin's reply if and only if it was passed on before the timer sent its EXIT, and else with the EXIT |
| TimedSession.WaitingIsServed | src/cinema/cinema.cpp:141-165 | while the client waits for a request it can receive, or its MOM process, the listener or the admin can go on, whatever the timer does |
| TimedSession.RankFalls | src/cinema/cinema.cpp:99-168 | every step but a new request brings the session nearer to rest |
| TimedSession.AllAnswered | src/middleware/mom.cpp:200-210 | where only the timer and new calls can go on, the client does not wait, and has received as many answers as it has sent requests, if and only if it has not logged in, neither while logged in nor after the cinema has closed the session |
| TimedSession.LoginIsForEver | src/middleware/client_interface.cpp:143-159 | a client that has sent such a login waits in every later state |
| TimedSession.FewStepsLeft | src/cinema/cinema.cpp:99-168 | which takes at most as many steps as the rank |
| TimedSession.HandlersDoNotOverlap | src/cinema/cinema_handler.cpp:13-22 | whatever the timer does, at most one request of the user is with the admin |
| TimedSession.ExitIsLast | src/cinema/cinema.cpp:141-158 | after the first EXIT, be it the client's or the timer's, the admin is sent nothing more for the user |
| TimedSession.LeftoverWhenTorn | src/cinema/cinema.cpp:159-168 | where nothing can go on after the end the listener has finished, no answer is left, and a message to it is left unread, exactly one, if and only if a refresh hit the timer's mark or the kill fell between EXIT and mark; one to the MOM process if and only if the client has logged in |
| TimedSession.WholeStepsLeaveNothing | src/cinema/cinema.cpp:108-117 | with EXIT and mark as one step, and test and refresh as one step, everything has been read in the end |
| TimedSession.RefreshTears | src/cinema/cinema.cpp:147-148 | a run in which the timer's EXIT stays unread |
| TimedSession.KillTears | src/cinema/cinema.cpp:114-115 | a run in which the client's own EXIT stays unread |
| TimedSession.LoginAfterTimeout | src/middleware/client_interface.cpp:143-159 | a run in which the cinema closes the session and the client then logs in |
| TimedSession.LoginWhileLoggedIn | src/middleware/mom.cpp:203-204 | a run in which the client logs in while its session lasts |
| Timer.Watch | src/cinema/cinema.cpp:98-120 | at most one EXIT, sent by the first look that finds the client idle too long and by none else, after more than 100 and at most 102 seconds of idleness, for every pattern of activity |
| Timer.CloseMarkIsMistaken | src/cinema/cinema.cpp:102-118 | with TIMER_CLOSE in the slot a look at any non-negative clock sends an EXIT, and no slot makes the timer close |
| Timer.LastActivityIsLatest | src/cinema/cinema.cpp:73-84 | the slot holds the latest refresh so far |
| Timer.SilenceIsNoticed | src/cinema/cinema.cpp:108-117 | a client not heard of for 102 seconds is found idle within them |
| Timer.ActivityIsHeeded | src/cinema/cinema.cpp:146-148 | a client heard of in every 100 seconds never is |
| Mailbox.SlotRefines | src/middleware/client_interface.cpp:197-212 | the callback gets exactly the updates a specification picks, and the slot holds unread news exactly if an update was written since the last poll |
| Mailbox.PicksInOrder | src/middleware/client_interface.cpp:197-212 | the updates picked are in the order written, none twice |
| Mailbox.NewestIsKept | src/middleware/mom.cpp:115-136 | the newest update written has been picked or is still in the slot, if and only if no listener has started over it |
| Mailbox.FirstPoll | src/middleware/client_interface.cpp:198-203 | something besides is delivered exactly if the slot reads as news and a poll precedes the listener's first write |
| Mailbox.EarlyPoll | src/middleware/mom.cpp:115-119 | zeroed memory is such a slot |
| Mailbox.SlotsAreSeparate | src/middleware/mom.cpp:46-54 | what happens at other positions does not change a slot |
| Mailbox.LookHandsLast | src/middleware/client_interface.cpp:197-212 | what a look hands to the callback is the last seat map received since the last look and the last start of a listener, seat for seat, and nothing if there is none |
| Mailbox.SharedMemory.Listen | src/middleware/mom.cpp:122-140 | after a seat map the slot holds news with the id and status of every seat of it, an EXIT ends the loop, other messages do nothing |
| Mailbox.SharedMemory.RunListener | src/middleware/mom.cpp:112-144 | what the whole listener leaves in the slot is the last seat map received before the first EXIT, seat for seat, or no update if there was none |
| Mailbox.SharedMemory.Poll | src/middleware/client_interface.cpp:197-212 | the news, if any, is handed on in full and the slot marked as read; polling goes on while the flag is one of the two values |

## Left out

- The union in memory: a message keeps the payload its choice number selects, not the other members' bytes.
- Sockets, `fork`, semaphores, shared memory set-up and SQLite itself; `SQLITE_BUSY` and other statement failures.
- The terminal interface, `TextTable`, logging, and the initialiser and destructor programs.
- The relay as a whole is a step relation on values; the loops of `src/middleware/mom.cpp` and `src/cinema/cinema.cpp` are
  imperative in `Processes`, `Mailbox` and `Timer`, where `Processes` covers the MOM's client process, the cinema's network
  process and the session listener. Aliasing of queue ends between processes is not captured there.
- The connection loops `connect_client` and `cinema_take_client` and the MOM's network loop are steps of the relay only.
- Killing of seat listeners: `src/middleware/mom.cpp:151` passes pid and signal in the wrong order, so several may compete; one per slot is modelled.
- Thread cancellation in the middle of a poll (`src/middleware/client_interface.cpp:162-166`).
- Failure of a payment: the error set at `src/admin/admin.cpp:31` is overwritten at lines 36-37, so nothing is claimed of the reply.
- Freshness of updates when handlers overlap: reading the reservations and sending are separate statements.
- The forwarding of updates from the admin to the MOM (`src/admin/admin.cpp:181-186`), which is the same frame loop.
- A client program that joins the MOM anew after `end_mom`, under the same token; and one that calls `login` after `end_mom`, whose entry is gone, so that `src/middleware/client_interface.cpp:144-146` use a missing client.
- The timer's EXIT in the relay of all clients: `TimedSession` has it for one session, with the way between the client's MOM process and the listener as one queue each way.
- End of file on a socket: `receive_packet` does not treat a read of zero bytes specially.
- ClientInterface.Session.PaySeats: the answer is taken to be success, as the admin always sends it; the branch for a failed payment cannot be reached.
- Timer.Watch: killing the timer is modelled as a bound on the number of looks, and the mark it leaves is part of `TimedSession`.
- The relay's handlers answer every request with a response, where the admin may also find one invalid (`Processes.KindsOfAnswers`); no process on the way distinguishes the two.
- RelayProgress.NoDeadlock: is about a client that can be answered; the exact condition is in AllAnsweredIff.
- Processes.MomProcess.ProcessMessage: has the seat listener as a flag, because forking it and the kill with swapped arguments (`src/middleware/mom.cpp:111,151`) have no effect on the queues.
- Admin.Admin.HandleSelect: requires that a seat the room does not have is selected only while nobody else is viewing the room, because otherwise the code writes outside its array (`Admin.MarkingInBounds`, `MarkingBeyondTheRoom`); and that the user is in a room, because `res.front()` needs a row.
- Admin.Admin.HandleRequest: requires the same of a selection.
- ClientInterface.Session.ReserveSeat: requires the same of a selection while the session lasts.
