/**
 The loops of the MOM's client process (src/middleware/mom.cpp), of the cinema's network process and
 of its session listener (src/cinema/cinema.cpp, src/cinema/cinema_handler.cpp), turn by turn, on the
 queues they use, and that their turns are steps of the relay.
 */
module Processes {
  import opened Bytes
  import opened Messages
  import opened TypedQueue
  import opened Wrappers
  import opened CommQueue
  import opened Ledger
  import opened SessionCalls
  import opened Requests
  import R = Relay

  // ----- messages and notes -----

  function ChoiceOf(choice: uint32): R.Choice {
    if choice == 0 then R.Init
    else if choice == CHOICE_CONNECTION_REQUEST then R.Connect
    else if choice == CHOICE_CONNECTION_ACCEPTED then R.Accepted
    else if choice in {CHOICE_ROOMS_REQUEST, CHOICE_SEATS_REQUEST, CHOICE_SEAT_SELECT_REQUEST,
                       CHOICE_PAY_RESERVATION_REQUEST} then R.Request
    else if choice in {CHOICE_ROOMS_RESPONSE, CHOICE_SEATS_RESPONSE, CHOICE_SEAT_SELECT_RESPONSE,
                       CHOICE_PAY_RESERVATION_RESPONSE} then R.Response
    else if choice == CHOICE_EXIT then R.Leave
    else if choice == CHOICE_INVALID_REQUEST then R.Invalid
    else R.Other
  }

  /** What the relay looks at in a message; the tag is the relay's own. */
  function NoteOf(m: Message, tag: R.Tag): R.Note {
    R.Note(m.messageType, m.clientId, ChoiceOf(m.choice), if m.payload.Identity? then m.payload.id else 0, tag)
  }

  /** The message is what the note says of it; a note without a client id says nothing of the message's. */
  predicate Alike(m: Message, note: R.Note) {
    NoteOf(m, note.tag).(clientId := note.clientId) == note && (note.clientId != 0 ==> m.clientId == note.clientId)
  }

  ghost predicate Shows(pending: seq<Envelope<Message>>, q: seq<Envelope<R.Note>>) {
    && |pending| == |q|
    && forall i :: 0 <= i < |q| ==>
         pending[i].mtype == q[i].mtype && Alike(pending[i].body, q[i].body)
  }

  lemma {:induction false} SameChannel(pending: seq<Envelope<Message>>, q: seq<Envelope<R.Note>>, t: int)
    requires Shows(pending, q)
    ensures |Channel(pending, t)| == |Channel(q, t)|
  {
    if q != [] {
      SameChannel(pending[..|q| - 1], q[..|q| - 1], t);
    }
  }

  /** A receive takes the same message from both. */
  lemma RemovedShows(pending: seq<Envelope<Message>>, q: seq<Envelope<R.Note>>, t: int, m: Message,
                   pending': seq<Envelope<Message>>)
    requires Shows(pending, q) && Removed(pending, t, m, pending')
    ensures Channel(q, t) != [] && Oldest(pending, t) == Oldest(q, t)
    ensures var i := Oldest(q, t); Alike(m, q[i].body) && Shows(pending', Without(q, i))
  {
    SameChannel(pending, q, t);
    var i, j := Oldest(pending, t), Oldest(q, t);
    assert i == j;
    assert forall k :: 0 <= k < |Without(q, i)| ==>
      pending'[k] == pending[if k < i then k else k + 1] && Without(q, i)[k] == q[if k < i then k else k + 1];
  }

  /** A send puts the message stamped as the relay stamps its note. */
  lemma AppendedShows(pending: seq<Envelope<Message>>, q: seq<Envelope<R.Note>>, id: int, m: Message,
                  pending': seq<Envelope<Message>>, note: R.Note)
    requires Shows(pending, q) && Appended(pending, id, m, pending') && Alike(m, note)
    ensures Shows(pending', q + [Envelope(R.SendType(id, note), R.Stamp(id, note))])
  {
    assert forall k :: 0 <= k < |pending| ==> pending'[k] == pending'[..|pending|][k];
  }

  // ----- the client's calls -----

  lemma NotePut(s: R.State, c: int, choice: R.Choice, note: R.Note)
    requires R.Enabled(s, R.ClientSends(c, choice)) && c != UNDEFINED_ID
    requires var t := if choice.Init? then R.MOM_REQUEST else if choice.Connect? then R.CINEMA_REQUEST else 0;
             note == R.Blank(choice, R.IdIn(choice, c), R.Tag(c, s.clients[c].serial + 1, false)).(messageType := t)
    ensures var id := if choice.Init? then UNDEFINED_ID else c;
            R.Apply(s, R.ClientSends(c, choice)).queues[R.MomUp]
            == s.queues[R.MomUp] + [Envelope(R.SendType(id, note), R.Stamp(id, note))]
  {
    hide R.Stamp, R.SendType, R.TokenOf;
  }

  /** A message put by a client shows as the note the relay has the client put. */
  lemma ClientMessageShows(s: R.State, c: int, choice: R.Choice, m: Message, up: seq<Envelope<Message>>,
                           up': seq<Envelope<Message>>)
    requires R.Enabled(s, R.ClientSends(c, choice)) && c != UNDEFINED_ID && Shows(up, s.queues[R.MomUp])
    requires Appended(up, if choice.Init? then UNDEFINED_ID else c, m, up') && ChoiceOf(m.choice) == choice
    requires m.messageType == if choice.Init? then TYPE_CONNECTION_MOM_REQUEST
                              else if choice.Connect? then TYPE_CONNECTION_CINEMA_REQUEST else 0
    requires (if m.payload.Identity? then m.payload.id else 0) == if choice.Init? || choice.Connect? then c else 0
    ensures Shows(up', R.Apply(s, R.ClientSends(c, choice)).queues[R.MomUp])
  {
    hide Shows, Appended;
    var tag := R.Tag(c, s.clients[c].serial + 1, false);
    var note := R.Blank(choice, R.IdIn(choice, c), tag).(messageType := m.messageType);
    NotePut(s, c, choice, note);
    hide R.Apply, R.Enabled;
    AppendedShows(up, s.queues[R.MomUp], if choice.Init? then UNDEFINED_ID else c, m, up', note);
  }

  /** So joining, logging in and every call are the relay's step. */
  lemma JoiningIsClientSends(s: R.State, c: int32, up: seq<Envelope<Message>>, up': seq<Envelope<Message>>)
    requires R.Enabled(s, R.ClientSends(c, R.Init)) && c != UNDEFINED_ID && Shows(up, s.queues[R.MomUp])
    requires Appended(up, UNDEFINED_ID, JoinMessage(c), up')
    ensures Shows(up', R.Apply(s, R.ClientSends(c, R.Init)).queues[R.MomUp])
  {
    hide Shows, Appended;
    ClientMessageShows(s, c, R.Init, JoinMessage(c), up, up');
  }

  lemma LoginIsClientSends(s: R.State, c: int32, up: seq<Envelope<Message>>, up': seq<Envelope<Message>>)
    requires R.Enabled(s, R.ClientSends(c, R.Connect)) && c != UNDEFINED_ID && Shows(up, s.queues[R.MomUp])
    requires Appended(up, c, LoginMessage(c), up')
    ensures Shows(up', R.Apply(s, R.ClientSends(c, R.Connect)).queues[R.MomUp])
  {
    hide Shows, Appended;
    ClientMessageShows(s, c, R.Connect, LoginMessage(c), up, up');
  }

  lemma CallIsClientSends(s: R.State, c: int, call: Call, list: seq<Place>, cinemaId: int32,
                          up: seq<Envelope<Message>>, up': seq<Envelope<Message>>)
    requires CallFits(call, list) && c != UNDEFINED_ID && Shows(up, s.queues[R.MomUp])
    requires R.Enabled(s, R.ClientSends(c, if call.EndMom? then R.Leave else R.Request))
    requires Appended(up, c, MessageOf(call, list, cinemaId), up')
    ensures Shows(up', R.Apply(s, R.ClientSends(c, if call.EndMom? then R.Leave else R.Request)).queues[R.MomUp])
  {
    hide Shows, Appended;
    ClientMessageShows(s, c, if call.EndMom? then R.Leave else R.Request, MessageOf(call, list, cinemaId), up, up');
  }

  // ----- the MOM's process for one client: fork_client and process_message -----

  class MomProcess {
    const localId: int
    const clientQueue: Channels
    const cinemaQueue: Channels
    /** The slot its seat listener writes to. */
    const updatePosition: nat
    var cinemaId: int
    var hasSeatListener: bool
    var exitListener: bool

    ghost predicate Valid()
      reads this, clientQueue, cinemaQueue
    {
      && clientQueue.orientation == COMMQUEUE_AS_SERVER && clientQueue.id == localId
      && 2 < localId < 0x8000_0000 && updatePosition == localId % MAX_CLIENTS_HOST
      && cinemaQueue.orientation == COMMQUEUE_AS_CLIENT && cinemaQueue.id == cinemaId
      && (cinemaId == UNDEFINED_ID || 0 < cinemaId < 0x8000_0000)
      && clientQueue != cinemaQueue
      && {clientQueue.first, clientQueue.second} !! {cinemaQueue.first, cinemaQueue.second}
    }

    constructor (localId: int, clientQueue: Channels, cinemaQueue: Channels)
      requires 2 < localId < 0x8000_0000 && clientQueue != cinemaQueue
      requires {clientQueue.first, clientQueue.second} !! {cinemaQueue.first, cinemaQueue.second}
      modifies clientQueue, cinemaQueue
      ensures Valid() && cinemaId == UNDEFINED_ID && !exitListener && !hasSeatListener
      ensures this.localId == localId && this.clientQueue == clientQueue && this.cinemaQueue == cinemaQueue
    {
      this.localId, this.clientQueue, this.cinemaQueue := localId, clientQueue, cinemaQueue;
      updatePosition := localId % MAX_CLIENTS_HOST;
      cinemaId, hasSeatListener, exitListener := UNDEFINED_ID, false, false;
      new;
      clientQueue.orientation, clientQueue.id := COMMQUEUE_AS_SERVER, localId;
      cinemaQueue.orientation, cinemaQueue.id := COMMQUEUE_AS_CLIENT, UNDEFINED_ID;
    }

    /** A request of the client goes on to the network process. */
    method PassRequest() returns (request: Message, ok: bool)
      requires Valid() && Channel(clientQueue.Incoming().pending, localId) != []
      modifies clientQueue.Incoming(), cinemaQueue.Outgoing()
      ensures Valid()
      ensures Removed(old(clientQueue.Incoming().pending), localId, request, clientQueue.Incoming().pending)
      ensures ok <==> cinemaId != UNDEFINED_ID || request.messageType > 0
      ensures if ok
              then Appended(old(cinemaQueue.Outgoing().pending), cinemaId, request, cinemaQueue.Outgoing().pending)
              else cinemaQueue.Outgoing().pending == old(cinemaQueue.Outgoing().pending)
    {
      var received := clientQueue.Receive();
      request := received.value;
      ok := cinemaQueue.SendMessage(request);
    }

    /** The answer goes back to the client, and the process looks at it. */
    method PassAnswer() returns (answer: Message)
      requires Valid()
      requires Channel(cinemaQueue.Incoming().pending, if cinemaId != UNDEFINED_ID then cinemaId else localId) != []
      modifies this, cinemaQueue, cinemaQueue.Incoming(), clientQueue.Outgoing()
      ensures cinemaQueue.Incoming() == old(cinemaQueue.Incoming())
      ensures clientQueue.Outgoing() == old(clientQueue.Outgoing())
      ensures Removed(old(cinemaQueue.Incoming().pending),
                      if old(cinemaId) != UNDEFINED_ID then old(cinemaId) else localId,
                      answer, cinemaQueue.Incoming().pending)
      ensures Appended(old(clientQueue.Outgoing().pending), localId, answer, clientQueue.Outgoing().pending)
      ensures cinemaId == if answer.choice == CHOICE_CONNECTION_ACCEPTED && answer.payload.Identity?
                          then answer.payload.id else old(cinemaId)
      ensures exitListener <==> old(exitListener) || answer.choice == CHOICE_EXIT
      ensures cinemaId == UNDEFINED_ID || cinemaId > 0 ==> Valid()
    {
      var t := if cinemaId != UNDEFINED_ID then cinemaId else localId;
      answer := cinemaQueue.ReceiveTyped(t);
      var _ := clientQueue.SendMessage(answer);
      ProcessMessage(answer);
    }

    /** `process_message`, the starting and stopping of the seat listener as a flag. */
    method ProcessMessage(m: Message)
      requires cinemaQueue.id == cinemaId
      modifies this`cinemaId, this`hasSeatListener, this`exitListener, cinemaQueue`id
      ensures cinemaQueue.id == cinemaId
      ensures cinemaId == if m.choice == CHOICE_CONNECTION_ACCEPTED && m.payload.Identity?
                          then m.payload.id else old(cinemaId)
      ensures exitListener <==> old(exitListener) || m.choice == CHOICE_EXIT
      ensures hasSeatListener <==>
                || m.choice == CHOICE_SEATS_RESPONSE
                || (old(hasSeatListener) && m.choice != CHOICE_ROOMS_RESPONSE && m.choice != CHOICE_EXIT
                    && !(m.choice == CHOICE_SEAT_SELECT_RESPONSE && m.payload.Outcome? && m.payload.success == SUCCESS))
    {
      if m.choice == CHOICE_CONNECTION_ACCEPTED {
        if m.payload.Identity? {
          cinemaId := m.payload.id;
          cinemaQueue.id := cinemaId;
        }
      } else if m.choice == CHOICE_SEATS_RESPONSE {
        hasSeatListener := true;
      } else if m.choice == CHOICE_SEAT_SELECT_RESPONSE {
        if m.payload.Outcome? && m.payload.success == SUCCESS {
          hasSeatListener := false;
        }
      } else if m.choice == CHOICE_ROOMS_RESPONSE {
        hasSeatListener := false;
      } else if m.choice == CHOICE_EXIT {
        hasSeatListener := false;
        exitListener := true;
      }
    }
  }

  /** A turn of the MOM's process for `c` with a request is the relay's step. */
  lemma PassRequestIsForkUp(s: R.State, c: int, up: seq<Envelope<Message>>, up': seq<Envelope<Message>>,
                            relay: seq<Envelope<Message>>, relay': seq<Envelope<Message>>, request: Message)
    requires R.Enabled(s, R.ForkUp(c)) && Shows(up, s.queues[R.MomUp]) && Shows(relay, s.queues[R.RelayUp])
    requires Removed(up, c, request, up') && Appended(relay, s.forks[c].cinemaId, request, relay')
    ensures var s' := R.Apply(s, R.ForkUp(c));
            && Shows(up', s'.queues[R.MomUp]) && Shows(relay', s'.queues[R.RelayUp])
            && s'.forks == s.forks[c := s.forks[c].(pc := R.Awaiting)]
  {
    hide Shows, Removed, Appended, Channel, Without, Oldest, R.Stamp, R.SendType;
    RemovedShows(up, s.queues[R.MomUp], c, request, up');
    AppendedShows(relay, s.queues[R.RelayUp], s.forks[c].cinemaId, request, relay', R.Typed(s, R.MomUp, c));
  }

  /** A turn with an answer is the relay's step, for the queues and for the process itself. */
  lemma PassAnswerIsForkDown(s: R.State, c: int, relay: seq<Envelope<Message>>, relay': seq<Envelope<Message>>,
                             down: seq<Envelope<Message>>, down': seq<Envelope<Message>>, answer: Message)
    requires R.Enabled(s, R.ForkDown(c)) && Shows(relay, s.queues[R.RelayDown]) && Shows(down, s.queues[R.MomDown])
    requires WellFormed(answer) && Removed(relay, R.ReplyTypeOf(s.forks[c], c), answer, relay')
    requires c != UNDEFINED_ID && Appended(down, c, answer, down')
    ensures var s' := R.Apply(s, R.ForkDown(c));
            && Shows(relay', s'.queues[R.RelayDown]) && Shows(down', s'.queues[R.MomDown])
            && (s'.forks[c].pc.Ended? <==> answer.choice == CHOICE_EXIT)
            && s'.forks[c].cinemaId == if answer.choice == CHOICE_CONNECTION_ACCEPTED then answer.payload.id
                                       else s.forks[c].cinemaId
  {
    hide Shows, Removed, Appended, Channel, Without, Oldest, R.Stamp, R.SendType, R.ReplyTypeOf;
    RemovedShows(relay, s.queues[R.RelayDown], R.ReplyTypeOf(s.forks[c], c), answer, relay');
    AppendedShows(down, s.queues[R.MomDown], c, answer, down',
                  R.Typed(s, R.RelayDown, R.ReplyTypeOf(s.forks[c], c)));
  }

  // ----- the cinema's network process: network_listen -----

  class CinemaNetwork {
    const clientComm: Channels

    ghost predicate Valid()
      reads clientComm
    {
      clientComm.orientation == COMMQUEUE_AS_CLIENT && clientComm.id == UNDEFINED_ID
    }

    constructor (clientComm: Channels)
      modifies clientComm
      ensures Valid() && this.clientComm == clientComm
    {
      this.clientComm := clientComm;
      new;
      clientComm.orientation, clientComm.id := COMMQUEUE_AS_CLIENT, UNDEFINED_ID;
    }

    /** A message off the socket goes to the listeners; `awaited` is the type of the answer to wait for. */
    method Deliver(message: Message) returns (awaited: int, ok: bool)
      requires Valid()
      modifies clientComm.Outgoing()
      ensures ok <==> message.messageType > 0
      ensures if ok
              then Appended(old(clientComm.Outgoing().pending), UNDEFINED_ID, message, clientComm.Outgoing().pending)
              else clientComm.Outgoing().pending == old(clientComm.Outgoing().pending)
      ensures forall tag :: awaited == R.AwaitedType(NoteOf(message, tag))
    {
      ok := clientComm.SendMessage(message);
      awaited := message.messageType;
      if message.messageType == TYPE_CONNECTION_CINEMA_REQUEST {
        awaited := if message.payload.Identity? then message.payload.id else 0;
      }
    }

    /** The awaited answer goes to the socket. */
    method Fetch(awaited: int) returns (answer: Message)
      requires Valid() && awaited > 0 && Channel(clientComm.Incoming().pending, awaited) != []
      modifies clientComm.Incoming()
      ensures Removed(old(clientComm.Incoming().pending), awaited, answer, clientComm.Incoming().pending)
    {
      answer := clientComm.ReceiveTyped(awaited);
    }
  }

  lemma SameAwaited(m: Message, note: R.Note)
    requires Alike(m, note)
    ensures R.AwaitedType(note) == R.AwaitedType(NoteOf(m, note.tag))
  {
  }

  /** The network process's turn with a message off the socket, and what it waits for then. */
  lemma DeliverIsCineNetUp(s: R.State, message: Message, awaited: int, up: seq<Envelope<Message>>,
                           up': seq<Envelope<Message>>)
    requires R.Enabled(s, R.CineNetUp) && Shows(up, s.queues[R.CineUp])
    requires Alike(message, s.queues[R.Uplink][0].body)
    requires Appended(up, UNDEFINED_ID, message, up')
    requires forall tag :: awaited == R.AwaitedType(NoteOf(message, tag))
    ensures var s' := R.Apply(s, R.CineNetUp); Shows(up', s'.queues[R.CineUp]) && s'.cineNet == R.Busy(awaited)
  {
    hide Shows, Appended, Without, R.Stamp, R.SendType;
    AppendedShows(up, s.queues[R.CineUp], UNDEFINED_ID, message, up', s.queues[R.Uplink][0].body);
    SameAwaited(message, s.queues[R.Uplink][0].body);
  }

  /** Its turn with the answer. */
  lemma FetchIsCineNetDown(s: R.State, answer: Message, down: seq<Envelope<Message>>, down': seq<Envelope<Message>>)
    requires R.Enabled(s, R.CineNetDown) && Shows(down, s.queues[R.CineDown])
    requires Removed(down, s.cineNet.reply, answer, down')
    ensures var s', note := R.Apply(s, R.CineNetDown), R.Typed(s, R.CineDown, s.cineNet.reply);
            && Shows(down', s'.queues[R.CineDown]) && s'.cineNet.Free?
            && Alike(answer, note) && s'.queues[R.Downlink] == s.queues[R.Downlink] + [Envelope(1, note)]
  {
    hide Shows, Removed, Channel, Without, Oldest, NoteOf;
    RemovedShows(down, s.queues[R.CineDown], s.cineNet.reply, answer, down');
  }

  // ----- the session listener: cinema_listen_client and cinema_handle -----

  predicate ForAdmin(choice: uint32) {
    choice in {CHOICE_SEATS_REQUEST, CHOICE_ROOMS_REQUEST, CHOICE_PAY_RESERVATION_REQUEST, CHOICE_SEAT_SELECT_REQUEST}
  }

  function Answer(choice: uint32): Message {
    Message(0, 0, choice, Identity(0))
  }

  /** A listener refuses what the admin would not know, and a login, which is not a session's. */
  predicate Refused(m: Message)
    requires WellFormed(m)
  {
    RequestIn(m).Unknown? || RequestIn(m).Register?
  }

  class SessionListener {
    const user: int
    const clientComm: Channels
    const adminComm: Channels
    var waiting: bool
    var held: Option<Message>
    var exit: bool

    ghost predicate Valid()
      reads clientComm, adminComm
    {
      && 2 < user < 0x8000_0000
      && clientComm.orientation == COMMQUEUE_AS_SERVER && clientComm.id == user
      && adminComm.orientation == COMMQUEUE_AS_CLIENT && adminComm.id == ADMIN_REQUEST
      && {clientComm.first, clientComm.second} !! {adminComm.first, adminComm.second}
      && clientComm.first != clientComm.second && adminComm.first != adminComm.second
    }

    constructor (user: int, clientComm: Channels, adminComm: Channels)
      requires 2 < user < 0x8000_0000 && clientComm != adminComm
      requires {clientComm.first, clientComm.second} !! {adminComm.first, adminComm.second}
      requires clientComm.first != clientComm.second && adminComm.first != adminComm.second
      modifies clientComm, adminComm
      ensures Valid() && !waiting && held == None && !exit
      ensures this.user == user && this.clientComm == clientComm && this.adminComm == adminComm
    {
      this.user, this.clientComm, this.adminComm := user, clientComm, adminComm;
      waiting, held, exit := false, None, false;
      new;
      clientComm.orientation, clientComm.id := COMMQUEUE_AS_SERVER, user;
      adminComm.orientation, adminComm.id := COMMQUEUE_AS_CLIENT, ADMIN_REQUEST;
    }

    /**
     The turn up to the admin: a request it answers is passed to it, an EXIT is passed to it and the
     answer held, anything else is answered at once.
     */
    method Take() returns (request: Message)
      requires Valid() && Channel(clientComm.Incoming().pending, user) != []
      modifies this, clientComm.Incoming(), clientComm.Outgoing(), adminComm.Outgoing()
      ensures Valid()
      ensures Removed(old(clientComm.Incoming().pending), user, request, clientComm.Incoming().pending)
      ensures if ForAdmin(request.choice) || request.choice == CHOICE_EXIT
              then Appended(old(adminComm.Outgoing().pending), ADMIN_REQUEST, request.(clientId := user),
                            adminComm.Outgoing().pending)
              else adminComm.Outgoing().pending == old(adminComm.Outgoing().pending)
      ensures if ForAdmin(request.choice) || request.choice == CHOICE_EXIT
              then clientComm.Outgoing().pending == old(clientComm.Outgoing().pending)
              else Appended(old(clientComm.Outgoing().pending), user, Answer(CHOICE_INVALID_REQUEST),
                            clientComm.Outgoing().pending)
      ensures WellFormed(request) && !Refused(request) ==>
        && Appended(old(adminComm.Outgoing().pending), ADMIN_REQUEST, request.(clientId := user),
                    adminComm.Outgoing().pending)
        && clientComm.Outgoing().pending == old(clientComm.Outgoing().pending)
        && (waiting <==> !RequestIn(request).Exit?)
      ensures WellFormed(request) && Refused(request) ==>
        && adminComm.Outgoing().pending == old(adminComm.Outgoing().pending) && !waiting
        && Appended(old(clientComm.Outgoing().pending), user, Answer(CHOICE_INVALID_REQUEST),
                    clientComm.Outgoing().pending)
      ensures waiting == ForAdmin(request.choice)
      ensures held == if request.choice == CHOICE_EXIT then Some(Answer(CHOICE_EXIT)) else None
      ensures exit <==> old(exit) || request.choice == CHOICE_EXIT
    {
      var received := clientComm.Receive();
      request := received.value;
      waiting, held := false, None;
      if ForAdmin(request.choice) {
        var _ := adminComm.SendMessage(request.(clientId := user));
        waiting := true;
      } else if request.choice == CHOICE_EXIT {
        var _ := adminComm.SendMessage(request.(clientId := user));
        held := Some(Answer(CHOICE_EXIT));
        exit := true;
      } else {
        var _ := clientComm.SendMessage(Answer(CHOICE_INVALID_REQUEST));
      }
    }

    /** The turn after the admin: its answer for this user, or the one held, goes to the client. */
    method Reply() returns (answer: Message)
      requires Valid() && (waiting || held.Some?)
      requires waiting ==> held == None && Channel(adminComm.Incoming().pending, user) != []
      modifies this, adminComm.Incoming(), clientComm.Outgoing()
      ensures Valid() && !waiting && held == None && exit == old(exit)
      ensures old(waiting) ==> Removed(old(adminComm.Incoming().pending), user, answer, adminComm.Incoming().pending)
      ensures !old(waiting) ==> old(held) == Some(answer)
                                && adminComm.Incoming().pending == old(adminComm.Incoming().pending)
      ensures Appended(old(clientComm.Outgoing().pending), user, answer, clientComm.Outgoing().pending)
    {
      if waiting {
        answer := adminComm.ReceiveTyped(user);
      } else {
        answer := held.value;
      }
      waiting, held := false, None;
      var _ := clientComm.SendMessage(answer);
    }
  }

  /** What the relay takes a message to be is what the admin's switch makes of it. */
  lemma KindsOfRequests(m: Message)
    requires WellFormed(m)
    ensures ChoiceOf(m.choice).Leave? <==> RequestIn(m).Exit?
    ensures ChoiceOf(m.choice).Accepted? <==> RequestIn(m).Register?
    ensures ChoiceOf(m.choice).Request? <==> !Refused(m) && !RequestIn(m).Exit?
  {
  }

  /** No call's message is refused by the listener. */
  lemma CallsAreServed(call: Call, list: seq<Place>, cinemaId: int32, m: Message)
    requires CallFits(call, list) && m == MessageOf(call, list, cinemaId).(messageType := m.messageType)
    ensures WellFormed(m) && !Refused(m)
    ensures RequestIn(m).Exit? <==> call.EndMom?
  {
  }

  /** And its answers are what the relay's handlers answer, but that a request may also be found invalid. */
  lemma KindsOfAnswers(user: int32, reply: Handlers.Reply, text: seq<byte>)
    requires ReplyFits(reply) && |text| == MAX_LENGTH_STRING
    ensures var kind := ChoiceOf(AnswerWith(user, reply, text).choice);
            (kind.Accepted? <==> reply.Registered?) && (kind.Invalid? <==> reply.Invalid?)
            && (kind.Response? <==> !reply.Registered? && !reply.Invalid?)
  {
  }

  lemma Kinds(choice: uint32)
    ensures ForAdmin(choice) <==> ChoiceOf(choice).Request?
    ensures choice == CHOICE_EXIT <==> ChoiceOf(choice).Leave?
    ensures ChoiceOf(CHOICE_INVALID_REQUEST).Invalid?
  {
  }

  /** A turn that asks the admin is the relay's step. */
  lemma TakeIsAsking(s: R.State, u: int, request: Message, up: seq<Envelope<Message>>, up': seq<Envelope<Message>>,
                     admin: seq<Envelope<Message>>, admin': seq<Envelope<Message>>)
    requires R.HasTyped(s, R.CineUp, u) && -0x8000_0000 <= u < 0x8000_0000
    requires Shows(up, s.queues[R.CineUp]) && Shows(admin, s.queues[R.AdminUp])
    requires Removed(up, u, request, up') && ForAdmin(request.choice)
    requires Appended(admin, ADMIN_REQUEST, request.(clientId := u), admin')
    ensures var s' := R.ApplyListenerTakes(s, u);
            && Shows(up', s'.queues[R.CineUp]) && Shows(admin', s'.queues[R.AdminUp])
            && s'.queues[R.CineDown] == s.queues[R.CineDown] && s'.listeners == s.listeners[u := R.AwaitingAdmin]
  {
    hide Shows, Removed, Appended, Channel, Without, Oldest, R.Stamp, R.SendType, ChoiceOf, ForAdmin;
    Kinds(request.choice);
    RemovedShows(up, s.queues[R.CineUp], u, request, up');
    AppendedShows(admin, s.queues[R.AdminUp], ADMIN_REQUEST, request.(clientId := u), admin',
                  R.Typed(s, R.CineUp, u).(clientId := u));
  }

  lemma RefusalIs(s: R.State, u: int)
    requires R.HasTyped(s, R.CineUp, u)
    requires !R.Typed(s, R.CineUp, u).choice.Request? && !R.Typed(s, R.CineUp, u).choice.Leave?
    ensures R.ApplyListenerTakes(s, u)
            == R.Send(R.TakeTyped(s, R.CineUp, u), R.CineDown, u, R.Blank(R.Invalid, 0, R.Typed(s, R.CineUp, u).tag))
  {
    hide Channel, Oldest, R.Send, R.TakeTyped, R.Typed, R.Blank, R.Post, R.Pull;
  }

  lemma MovedQueues(s: R.State, u: int, answer: R.Note)
    requires R.HasTyped(s, R.CineUp, u)
    ensures var s' := R.Send(R.TakeTyped(s, R.CineUp, u), R.CineDown, u, answer);
            && s'.queues[R.CineUp] == Without(s.queues[R.CineUp], Oldest(s.queues[R.CineUp], u))
            && s'.queues[R.CineDown]
               == s.queues[R.CineDown] + [Envelope(R.SendType(u, answer), R.Stamp(u, answer))]
            && s'.queues[R.AdminUp] == s.queues[R.AdminUp] && s'.listeners == s.listeners
  {
    hide Channel, Without, Oldest, R.Stamp, R.SendType, R.TokenOf;
  }

  /** So is one that refuses. */
  lemma TakeIsRefusing(s: R.State, u: int, request: Message, up: seq<Envelope<Message>>, up': seq<Envelope<Message>>,
                       down: seq<Envelope<Message>>, down': seq<Envelope<Message>>)
    requires R.HasTyped(s, R.CineUp, u) && u != UNDEFINED_ID
    requires Shows(up, s.queues[R.CineUp]) && Shows(down, s.queues[R.CineDown])
    requires Removed(up, u, request, up') && !ForAdmin(request.choice) && request.choice != CHOICE_EXIT
    requires Appended(down, u, Answer(CHOICE_INVALID_REQUEST), down')
    ensures var s' := R.ApplyListenerTakes(s, u);
            && Shows(up', s'.queues[R.CineUp]) && Shows(down', s'.queues[R.CineDown])
            && s'.queues[R.AdminUp] == s.queues[R.AdminUp] && s'.listeners == s.listeners
  {
    hide Shows, Removed, Appended, Channel, Without, Oldest, R.Stamp, R.SendType, ChoiceOf, ForAdmin,
         R.ApplyListenerTakes, R.Send, R.TakeTyped;
    Kinds(request.choice);
    RemovedShows(up, s.queues[R.CineUp], u, request, up');
    AppendedShows(down, s.queues[R.CineDown], u, Answer(CHOICE_INVALID_REQUEST), down',
                  R.Blank(R.Invalid, 0, R.Typed(s, R.CineUp, u).tag));
    RefusalIs(s, u);
    MovedQueues(s, u, R.Blank(R.Invalid, 0, R.Typed(s, R.CineUp, u).tag));
  }

  /** And one that takes an EXIT: the admin's copy is out, the answer held. */
  lemma TakeIsLeaving(s: R.State, u: int, request: Message, up: seq<Envelope<Message>>, up': seq<Envelope<Message>>,
                      admin: seq<Envelope<Message>>, admin': seq<Envelope<Message>>)
    requires R.HasTyped(s, R.CineUp, u) && -0x8000_0000 <= u < 0x8000_0000
    requires Shows(up, s.queues[R.CineUp]) && Shows(admin, s.queues[R.AdminUp])
    requires Removed(up, u, request, up') && request.choice == CHOICE_EXIT
    requires Appended(admin, ADMIN_REQUEST, request.(clientId := u), admin')
    ensures var s', tag := R.ApplyListenerTakes(s, u), R.Typed(s, R.CineUp, u).tag;
            && Shows(up', s'.queues[R.CineUp]) && Shows(admin', s'.queues[R.AdminUp])
            && s'.listeners == s.listeners[u := R.Leaving]
            && s'.queues[R.Hands] == s.queues[R.Hands] + [Envelope(u, NoteOf(Answer(CHOICE_EXIT), tag))]
  {
    hide Shows, Removed, Appended, Channel, Without, Oldest, R.Stamp, R.SendType, ChoiceOf, ForAdmin;
    Kinds(request.choice);
    RemovedShows(up, s.queues[R.CineUp], u, request, up');
    var tag := R.Typed(s, R.CineUp, u).tag;
    AppendedShows(admin, s.queues[R.AdminUp], ADMIN_REQUEST, request.(clientId := u), admin',
                  R.Typed(s, R.CineUp, u).(clientId := u, tag := tag.(notice := true)));
  }

  /** And the turn with the admin's answer. */
  lemma ReplyIsListenerAnswers(s: R.State, u: int, answer: Message,
                               admin: seq<Envelope<Message>>, admin': seq<Envelope<Message>>,
                               down: seq<Envelope<Message>>, down': seq<Envelope<Message>>)
    requires R.Enabled(s, R.ListenerAnswers(u)) && u != UNDEFINED_ID
    requires Shows(admin, s.queues[R.AdminDown]) && Shows(down, s.queues[R.CineDown])
    requires Removed(admin, u, answer, admin') && Appended(down, u, answer, down')
    ensures var s' := R.Apply(s, R.ListenerAnswers(u));
            Shows(admin', s'.queues[R.AdminDown]) && Shows(down', s'.queues[R.CineDown]) && s'.listeners[u].Listening?
  {
    hide Shows, Removed, Appended, Channel, Without, Oldest, R.Stamp, R.SendType;
    RemovedShows(admin, s.queues[R.AdminDown], u, answer, admin');
    AppendedShows(down, s.queues[R.CineDown], u, answer, down', R.Typed(s, R.AdminDown, u));
  }

  /** And the one with the answer to an EXIT, which was held. */
  lemma ReplyIsListenerLeaves(s: R.State, u: int, held: Message, down: seq<Envelope<Message>>,
                              down': seq<Envelope<Message>>)
    requires R.Enabled(s, R.ListenerLeaves(u)) && u != UNDEFINED_ID && Shows(down, s.queues[R.CineDown])
    requires Alike(held, R.Typed(s, R.Hands, u))
    requires Appended(down, u, held, down')
    ensures var s' := R.Apply(s, R.ListenerLeaves(u));
            Shows(down', s'.queues[R.CineDown]) && s'.listeners == s.listeners[u := R.Finished]
  {
    hide Shows, Appended, Channel, Without, Oldest, NoteOf, R.Stamp, R.SendType;
    AppendedShows(down, s.queues[R.CineDown], u, held, down', R.Typed(s, R.Hands, u));
  }
}
