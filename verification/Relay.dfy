/**
 The path of a request and of its answer: client, MOM (src/middleware/mom.cpp), the socket
 between the hosts, the cinema's network process, the session listener (src/cinema/cinema.cpp,
 src/cinema/cinema_handler.cpp) and the admin's handlers, joined by typed queues. Every process
 takes one message at a time; any process that can go on may be the next to do so.
 */
module Relay {
  import Messages
  import opened TypedQueue
  import opened Wrappers

  const CINEMA_REQUEST: int := Messages.TYPE_CONNECTION_CINEMA_REQUEST
  const MOM_REQUEST: int := Messages.TYPE_CONNECTION_MOM_REQUEST
  const ADMIN: int := Messages.ADMIN_REQUEST
  const UNDEFINED: int := Messages.UNDEFINED_ID

  /** The choice numbers, as far as they decide where a message goes. */
  datatype Choice =
    | Init      // init_mom: the connection request to the MOM
    | Connect   // login: the connection request to the cinema
    | Accepted
    | Request   // rooms, seats, selection and payment requests
    | Response
    | Leave     // CHOICE_EXIT
    | Other
    | Invalid

  /**
   Which request of which client a message is about; `notice` marks the copy of an EXIT that goes
   to the admin. The tag is copied from request to answer by whoever computes the answer. It is
   there for the proof: no process looks at it.
   */
  datatype Tag = Tag(client: int, serial: nat, notice: bool)

  /** `id` is the client id a connection request or its acceptance carries. */
  datatype Note = Note(messageType: int, clientId: int, choice: Choice, id: int, tag: Tag)

  /** The queues and sockets, and two places where a process holds messages of its own. */
  datatype Node =
    | MomUp      // clients to MOM
    | RelayUp    // MOM's client processes to its network process
    | Uplink     // the socket, to the cinema
    | CineUp     // the cinema's network process to the session listeners
    | AdminUp    // requests to the admin
    | Pool       // the requests being handled by the admin's child processes
    | Hands      // EXIT answers the listeners are about to send
    | AdminDown
    | CineDown
    | Downlink
    | RelayDown
    | MomDown

  type Queues = q: map<Node, seq<Envelope<Note>>> | forall n: Node :: n in q
    witness map n: Node | true :: []

  datatype ClientPc = New | Home | Waiting | Closed
  /** `choice` is the request last sent and `serial` its number. */
  datatype Client = Client(pc: ClientPc, choice: Choice, serial: nat, loggedIn: bool)

  datatype ForkPc = Serving | Awaiting | Ended
  /** A MOM process serving one client (`fork_client`). */
  datatype Fork = Fork(pc: ForkPc, cinemaId: int)

  datatype MainPc = Connecting | Forking(client: int)                          // connect_client
  datatype TakerPc = Accepting | Registering(token: int) | Spawning(token: int, user: int)  // cinema_take_client
  datatype ListenerPc = Listening | AwaitingAdmin | Leaving | Finished          // cinema_listen_client
  datatype NetPc = Free | Busy(reply: int)                                      // network_listen, cinema side

  datatype Token = Token(client: int, notice: bool)
  datatype Spot = Spot(node: Node, env: Envelope<Note>)

  /**
   `issued` are the cinema ids given out. The last four components are there for the proof and no
   guard reads them: where each message is, whose message is between the MOM's network process and the
   cinema, the cinema id each client was given, and the one it was given when it logged in again.
   */
  datatype State = State(queues: Queues, clients: map<int, Client>, forks: map<int, Fork>, main: MainPc,
                         momBusy: bool, cineNet: NetPc, taker: TakerPc, listeners: map<int, ListenerPc>,
                         issued: set<int>, place: map<Token, Spot>, wire: Option<int>, users: map<int, int>,
                         again: map<int, int>)

  function TokenOf(note: Note): Token {
    Token(note.tag.client, note.tag.notice)
  }

  // ----- moving messages -----

  function Pull(s: State, from: Node, i: nat): State
    requires i < |s.queues[from]|
  {
    s.(queues := s.queues[from := Without(s.queues[from], i)],
       place := s.place - {TokenOf(s.queues[from][i].body)})
  }

  function Post(s: State, to: Node, t: int, note: Note): State {
    s.(queues := s.queues[to := s.queues[to] + [Envelope(t, note)]],
       place := s.place[TokenOf(note) := Spot(to, Envelope(t, note))])
  }

  /** `send_message` on a queue end with id `id`: the type it is sent with. */
  function SendType(id: int, note: Note): int {
    if id != UNDEFINED then id else note.messageType
  }

  /** `send_message`: the message type as it is sent. */
  function Stamp(id: int, note: Note): (stamped: Note)
    ensures stamped.tag == note.tag && stamped.clientId == note.clientId
  {
    if note.messageType == CINEMA_REQUEST then note else note.(messageType := SendType(id, note))
  }

  function Send(s: State, to: Node, id: int, note: Note): State {
    Post(s, to, SendType(id, note), Stamp(id, note))
  }

  predicate HasTyped(s: State, n: Node, t: int) {
    Channel(s.queues[n], t) != []
  }

  /** The message a typed receive takes. */
  function Typed(s: State, n: Node, t: int): Note
    requires HasTyped(s, n, t)
  {
    s.queues[n][Oldest(s.queues[n], t)].body
  }

  function TakeTyped(s: State, n: Node, t: int): State
    requires HasTyped(s, n, t)
  {
    Pull(s, n, Oldest(s.queues[n], t))
  }

  // ----- the steps of the processes -----

  datatype Action =
    | ClientSends(client: int, choice: Choice)
    | MainAccepts | MainForks
    | ForkUp(client: int) | ForkDown(client: int)
    | MomNetUp | MomNetDown
    | CineNetUp | CineNetDown
    | TakerTakes | TakerConfirms | TakerSpawns
    | ListenerTakes(user: int) | ListenerAnswers(user: int) | ListenerLeaves(user: int)
    | AdminForks | HandlerEnds(i: nat, newUser: int)
    | ClientReceives(client: int)

  /** A client joins, and then logs in and sends requests in whatever order, one at a time. */
  predicate MaySend(c: Client, choice: Choice) {
    if c.pc.New? then choice.Init?
    else c.pc.Home? && (choice.Connect? || choice.Request? || choice.Leave? || choice.Other?)
  }

  /** A cinema id not used for routing so far. */
  predicate FreshId(s: State, user: int) {
    user > 2 && user !in s.clients && user !in s.issued
  }

  function ReplyTypeOf(f: Fork, client: int): int {
    if f.cinemaId != UNDEFINED then f.cinemaId else client
  }

  predicate Enabled(s: State, a: Action) {
    match a
    case ClientSends(c, choice) => c in s.clients && MaySend(s.clients[c], choice)
    case MainAccepts => s.main.Connecting? && HasTyped(s, MomUp, MOM_REQUEST)
    case MainForks => s.main.Forking?
    case ForkUp(c) => c in s.forks && s.forks[c].pc.Serving? && HasTyped(s, MomUp, c)
    case ForkDown(c) => c in s.forks && s.forks[c].pc.Awaiting? && HasTyped(s, RelayDown, ReplyTypeOf(s.forks[c], c))
    case MomNetUp => !s.momBusy && s.queues[RelayUp] != []
    case MomNetDown => s.momBusy && s.queues[Downlink] != []
    case CineNetUp => s.cineNet.Free? && s.queues[Uplink] != []
    case CineNetDown => s.cineNet.Busy? && HasTyped(s, CineDown, s.cineNet.reply)
    case TakerTakes => s.taker.Accepting? && HasTyped(s, CineUp, CINEMA_REQUEST)
    case TakerConfirms => s.taker.Registering? && HasTyped(s, AdminDown, s.taker.token)
    case TakerSpawns => s.taker.Spawning?
    case ListenerTakes(u) => u in s.listeners && s.listeners[u].Listening? && HasTyped(s, CineUp, u)
    case ListenerAnswers(u) => u in s.listeners && s.listeners[u].AwaitingAdmin? && HasTyped(s, AdminDown, u)
    case ListenerLeaves(u) => u in s.listeners && s.listeners[u].Leaving? && HasTyped(s, Hands, u)
    case AdminForks => HasTyped(s, AdminUp, ADMIN)
    case HandlerEnds(i, user) => i < |s.queues[Pool]| && FreshId(s, user)
    case ClientReceives(c) => c in s.clients && s.clients[c].pc.Waiting? && HasTyped(s, MomDown, c)
  }

  function Blank(choice: Choice, id: int, tag: Tag): Note {
    Note(0, 0, choice, id, tag)
  }

  /** A client names itself when it joins and when it logs in. */
  function IdIn(choice: Choice, c: int): int {
    if choice.Init? || choice.Connect? then c else 0
  }

  function ApplyClientSends(s: State, c: int, choice: Choice): State
    requires c in s.clients
  {
    var serial := s.clients[c].serial + 1;
    var s1 := s.(clients := s.clients[c := Client(Waiting, choice, serial, s.clients[c].loggedIn)]);
    var note := Blank(choice, IdIn(choice, c), Tag(c, serial, false));
    match choice
    case Init => Send(s1, MomUp, UNDEFINED, note.(messageType := MOM_REQUEST))
    case Connect => Send(s1, MomUp, c, note.(messageType := CINEMA_REQUEST))
    case _ => Send(s1, MomUp, c, note)
  }

  function ApplyMainAccepts(s: State): State
    requires HasTyped(s, MomUp, MOM_REQUEST)
  {
    var note := Typed(s, MomUp, MOM_REQUEST);
    var s1 := TakeTyped(s, MomUp, MOM_REQUEST).(main := Forking(note.id));
    Send(s1, MomDown, note.id, Blank(Accepted, note.id % Messages.MAX_CLIENTS_HOST, note.tag))
  }

  function ApplyForkUp(s: State, c: int): State
    requires c in s.forks && HasTyped(s, MomUp, c)
  {
    var s1 := TakeTyped(s, MomUp, c).(forks := s.forks[c := s.forks[c].(pc := Awaiting)]);
    Send(s1, RelayUp, s.forks[c].cinemaId, Typed(s, MomUp, c))
  }

  /** The answer is passed on, and `process_message` looks at it. */
  function ApplyForkDown(s: State, c: int): State
    requires c in s.forks && HasTyped(s, RelayDown, ReplyTypeOf(s.forks[c], c))
  {
    var t := ReplyTypeOf(s.forks[c], c);
    var note := Typed(s, RelayDown, t);
    var fork := Fork(if note.choice.Leave? then Ended else Serving,
                     if note.choice.Accepted? then note.id else s.forks[c].cinemaId);
    Send(TakeTyped(s, RelayDown, t).(forks := s.forks[c := fork]), MomDown, c, note)
  }

  /** The cinema's network process waits for an answer of this type before it reads on. */
  function AwaitedType(note: Note): int {
    if note.messageType == CINEMA_REQUEST then note.id else note.messageType
  }

  function ApplyCineNetUp(s: State): State
    requires s.queues[Uplink] != []
  {
    var note := s.queues[Uplink][0].body;
    Send(Pull(s, Uplink, 0).(cineNet := Busy(AwaitedType(note))), CineUp, UNDEFINED, note)
  }

  function ApplyTakerTakes(s: State): State
    requires HasTyped(s, CineUp, CINEMA_REQUEST)
  {
    var note := Typed(s, CineUp, CINEMA_REQUEST);
    var s1 := TakeTyped(s, CineUp, CINEMA_REQUEST).(taker := Registering(note.id));
    Send(s1, AdminUp, ADMIN, Blank(Accepted, 0, note.tag).(clientId := note.id))
  }

  function ApplyTakerConfirms(s: State): State
    requires s.taker.Registering? && HasTyped(s, AdminDown, s.taker.token)
  {
    var note := Typed(s, AdminDown, s.taker.token);
    var s1 := TakeTyped(s, AdminDown, s.taker.token).(taker := Spawning(s.taker.token, note.id));
    Send(s1, CineDown, s.taker.token, Blank(Accepted, note.id, note.tag))
  }

  /** `cinema_handle`: to the admin and wait, to the admin and leave, or answered on the spot. */
  function ApplyListenerTakes(s: State, u: int): State
    requires HasTyped(s, CineUp, u)
  {
    var note := Typed(s, CineUp, u).(clientId := u);
    var s1 := TakeTyped(s, CineUp, u);
    match note.choice
    case Request => Send(s1.(listeners := s.listeners[u := AwaitingAdmin]), AdminUp, ADMIN, note)
    case Leave =>
      var s2 := Send(s1.(listeners := s.listeners[u := Leaving]), AdminUp, ADMIN,
                     note.(tag := note.tag.(notice := true)));
      Post(s2, Hands, u, Blank(Leave, 0, note.tag))
    case _ => Send(s1, CineDown, u, Blank(Invalid, 0, note.tag))
  }

  function ApplyListenerAnswers(s: State, u: int): State
    requires HasTyped(s, AdminDown, u)
  {
    Send(TakeTyped(s, AdminDown, u).(listeners := s.listeners[u := Listening]), CineDown, u, Typed(s, AdminDown, u))
  }

  function ApplyListenerLeaves(s: State, u: int): State
    requires HasTyped(s, Hands, u)
  {
    Send(TakeTyped(s, Hands, u).(listeners := s.listeners[u := Finished]), CineDown, u, Typed(s, Hands, u))
  }

  /** A new cinema id for a client. */
  function Grant(s: State, c: int, user: int): (granted: State)
    ensures granted == s.(issued := granted.issued, users := granted.users, again := granted.again)
  {
    if c in s.users then s.(issued := s.issued + {user}, again := s.again[c := user])
    else s.(issued := s.issued + {user}, users := s.users[c := user])
  }

  /** A handler ends: with an answer to the client id of its request, or after an EXIT without one. */
  function ApplyHandlerEnds(s: State, i: nat, user: int): State
    requires i < |s.queues[Pool]|
  {
    var note := s.queues[Pool][i].body;
    var s1 := Pull(s, Pool, i);
    var answer := Note(0, note.clientId, Invalid, 0, note.tag);
    match note.choice
    case Accepted =>
      Send(Grant(s1, note.tag.client, user), AdminDown, note.clientId, answer.(choice := Accepted, id := user))
    case Request => Send(s1, AdminDown, note.clientId, answer.(choice := Response))
    case Leave => s1
    case _ => Send(s1, AdminDown, note.clientId, answer)
  }

  function ApplyClientReceives(s: State, c: int): State
    requires c in s.clients && HasTyped(s, MomDown, c)
  {
    var note, client := Typed(s, MomDown, c), s.clients[c];
    var client' := client.(pc := if note.choice.Leave? then Closed else Home,
                           loggedIn := client.loggedIn || (client.choice.Connect? && note.choice.Accepted?));
    TakeTyped(s, MomDown, c).(clients := s.clients[c := client'])
  }

  function Apply(s: State, a: Action): State
    requires Enabled(s, a)
  {
    match a
    case ClientSends(c, choice) => ApplyClientSends(s, c, choice)
    case MainAccepts => ApplyMainAccepts(s)
    case MainForks => s.(forks := s.forks[s.main.client := Fork(Serving, UNDEFINED)], main := Connecting)
    case ForkUp(c) => ApplyForkUp(s, c)
    case ForkDown(c) => ApplyForkDown(s, c)
    case MomNetUp =>
      var env := s.queues[RelayUp][0];
      Post(Pull(s, RelayUp, 0).(momBusy := true, wire := Some(env.body.tag.client)), Uplink, 1, env.body)
    case MomNetDown =>
      Send(Pull(s, Downlink, 0).(momBusy := false, wire := None), RelayDown, UNDEFINED, s.queues[Downlink][0].body)
    case CineNetUp => ApplyCineNetUp(s)
    case CineNetDown =>
      Post(TakeTyped(s, CineDown, s.cineNet.reply).(cineNet := Free), Downlink, 1, Typed(s, CineDown, s.cineNet.reply))
    case TakerTakes => ApplyTakerTakes(s)
    case TakerConfirms => ApplyTakerConfirms(s)
    case TakerSpawns => s.(listeners := s.listeners[s.taker.user := Listening], taker := Accepting)
    case ListenerTakes(u) => ApplyListenerTakes(s, u)
    case ListenerAnswers(u) => ApplyListenerAnswers(s, u)
    case ListenerLeaves(u) => ApplyListenerLeaves(s, u)
    case AdminForks => Post(TakeTyped(s, AdminUp, ADMIN), Pool, 1, Typed(s, AdminUp, ADMIN))
    case HandlerEnds(i, user) => ApplyHandlerEnds(s, i, user)
    case ClientReceives(c) => ApplyClientReceives(s, c)
  }

  /** Clients that have not joined yet, and nothing anywhere. */
  predicate Initial(s: State) {
    && (forall c :: c in s.clients ==> c > 2 && s.clients[c] == Client(New, Init, 0, false))
    && (forall n: Node :: s.queues[n] == [])
    && s.forks == map[] && s.main == Connecting && !s.momBusy && s.cineNet == Free && s.taker == Accepting
    && s.listeners == map[] && s.issued == {} && s.place == map[] && s.wire == None && s.users == map[]
    && s.again == map[]
  }

  ghost predicate Run(states: seq<State>, acts: seq<Action>) {
    && |states| == |acts| + 1 && Initial(states[0])
    && forall i :: 0 <= i < |acts| ==> Enabled(states[i], acts[i]) && states[i + 1] == Apply(states[i], acts[i])
  }
}
