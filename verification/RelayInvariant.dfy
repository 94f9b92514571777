/**
 What every state of the relay looks like: each waiting client has one message, somewhere, and
 the processes on its way are in the states that go with the place.
 */
module RelayInvariant {
  import opened TypedQueue
  import opened Wrappers
  import opened Relay

  // ----- queues and places -----

  /** The queue at `n` holds the messages whose place is `n`, each once. */
  ghost predicate QueueAgrees(q: seq<Envelope<Note>>, n: Node, place: map<Token, Spot>) {
    && (forall i :: 0 <= i < |q| ==> TokenOf(q[i].body) in place && place[TokenOf(q[i].body)] == Spot(n, q[i]))
    && (forall i, j :: 0 <= i < j < |q| ==> TokenOf(q[i].body) != TokenOf(q[j].body))
    && (forall t :: t in place && place[t].node == n ==> TokenOf(place[t].env.body) == t && place[t].env in q)
  }

  ghost predicate QueuesAgree(s: State) {
    forall n: Node :: QueueAgrees(s.queues[n], n, s.place)
  }

  lemma PullFromQueue(q: seq<Envelope<Note>>, n: Node, place: map<Token, Spot>, i: nat)
    requires QueueAgrees(q, n, place) && i < |q|
    ensures QueueAgrees(Without(q, i), n, place - {TokenOf(q[i].body)})
  {
    var q', t := Without(q, i), TokenOf(q[i].body);
    assert forall j :: 0 <= j < |q'| ==> q'[j] == if j < i then q[j] else q[j + 1];
    forall u | u in place && u != t && place[u].node == n ensures place[u].env in q' {
      var j :| 0 <= j < |q| && q[j] == place[u].env;
      assert j != i;
      assert q'[if j < i then j else j - 1] == q[j];
    }
  }

  lemma PullFromElsewhere(q: seq<Envelope<Note>>, n: Node, place: map<Token, Spot>, t: Token)
    requires QueueAgrees(q, n, place) && t in place && place[t].node != n
    ensures QueueAgrees(q, n, place - {t})
  {
  }

  lemma PullAgrees(s: State, from: Node, i: nat)
    requires QueuesAgree(s) && i < |s.queues[from]|
    ensures QueuesAgree(Pull(s, from, i))
  {
    hide QueueAgrees, Without;
    var s' := Pull(s, from, i);
    var t := TokenOf(s.queues[from][i].body);
    Found(s, from, i);
    forall n: Node ensures QueueAgrees(s'.queues[n], n, s'.place) {
      if n == from {
        PullFromQueue(s.queues[from], from, s.place, i);
      } else {
        PullFromElsewhere(s.queues[n], n, s.place, t);
      }
    }
  }

  lemma PostToQueue(q: seq<Envelope<Note>>, n: Node, place: map<Token, Spot>, env: Envelope<Note>)
    requires QueueAgrees(q, n, place) && TokenOf(env.body) !in place
    ensures QueueAgrees(q + [env], n, place[TokenOf(env.body) := Spot(n, env)])
  {
    assert (q + [env])[|q|] == env;
  }

  lemma PostElsewhere(q: seq<Envelope<Note>>, n: Node, place: map<Token, Spot>, t: Token, spot: Spot)
    requires QueueAgrees(q, n, place) && t !in place && spot.node != n
    ensures QueueAgrees(q, n, place[t := spot])
  {
  }

  lemma PostAgrees(s: State, to: Node, t: int, note: Note)
    requires QueuesAgree(s) && TokenOf(note) !in s.place
    ensures QueuesAgree(Post(s, to, t, note))
  {
    hide QueueAgrees;
    var s' := Post(s, to, t, note);
    var env := Envelope(t, note);
    forall n: Node ensures QueueAgrees(s'.queues[n], n, s'.place) {
      if n == to {
        PostToQueue(s.queues[n], n, s.place, env);
      } else {
        PostElsewhere(s.queues[n], n, s.place, TokenOf(note), Spot(to, env));
      }
    }
  }

  /** The message at an index of a queue is where its token's place says. */
  lemma Found(s: State, n: Node, i: nat)
    requires QueuesAgree(s) && i < |s.queues[n]|
    ensures var t := TokenOf(s.queues[n][i].body); t in s.place && s.place[t] == Spot(n, s.queues[n][i])
  {
    assert QueueAgrees(s.queues[n], n, s.place);
  }

  /** A token whose place is `n` with type `t` makes a receive of that type at `n` possible. */
  lemma Available(s: State, token: Token)
    requires QueuesAgree(s) && token in s.place
    ensures var spot := s.place[token];
            s.queues[spot.node] != [] && HasTyped(s, spot.node, spot.env.mtype)
  {
    var spot := s.place[token];
    var q := s.queues[spot.node];
    assert QueueAgrees(q, spot.node, s.place);
    var j :| 0 <= j < |q| && q[j] == spot.env;
    InNonEmptyChannel(q, j);
  }

  // ----- one client -----

  /** Everything in the state that concerns one client. */
  datatype Local = Local(client: Client, main: Option<Spot>, notice: Option<Spot>, fork: Option<Fork>,
                         forking: bool, user: Option<int>, again: Option<int>, listener: Option<ListenerPc>,
                         spawning: bool, registering: bool, onWire: bool, cineNet: NetPc)

  function Lookup<K, V>(m: map<K, V>, k: K): Option<V> {
    if k in m then Some(m[k]) else None
  }

  function LocalOf(s: State, c: int): Local
    requires c in s.clients
  {
    var user := Lookup(s.users, c);
    Local(s.clients[c], Lookup(s.place, Token(c, false)), Lookup(s.place, Token(c, true)),
          Lookup(s.forks, c), s.main == Forking(c), user, Lookup(s.again, c),
          if user.Some? then Lookup(s.listeners, user.value) else None,
          user.Some? && s.taker == Spawning(c, user.value), s.taker == Registering(c),
          s.wire == Some(c), if s.wire == Some(c) then s.cineNet else Free)
  }

  predicate OnWire(n: Node) {
    n in {Uplink, CineUp, AdminUp, Pool, Hands, AdminDown, CineDown, Downlink}
  }

  predicate InCinema(n: Node) {
    n in {CineUp, AdminUp, Pool, Hands, AdminDown, CineDown}
  }

  predicate WithAdmin(n: Node) {
    n in {AdminUp, Pool, AdminDown}
  }

  predicate OnReturn(n: Node) {
    n in {CineDown, Downlink, RelayDown, MomDown}
  }

  /** The choice of the answer to a request. */
  function AnswerTo(choice: Choice): Choice {
    match choice
    case Init => Accepted
    case Connect => Accepted
    case Request => Response
    case Leave => Leave
    case _ => Invalid
  }

  /** The MOM's process for the client is there or about to be. */
  predicate ForkReady(l: Local, cinemaId: int) {
    if l.forking then l.fork == None else l.fork == Some(Fork(Serving, cinemaId))
  }

  predicate ListenerReady(l: Local) {
    if l.spawning then l.listener == None else l.listener == Some(Listening)
  }

  predicate NoListener(l: Local) {
    l.listener == None && !l.spawning
  }

  /** A request without a login: no session will ever take it. */
  predicate Premature(client: Client) {
    !client.loggedIn && (client.choice.Request? || client.choice.Leave? || client.choice.Other?)
  }

  /** A login of a client that is logged in. */
  predicate Again(client: Client) {
    client.loggedIn && client.choice.Connect?
  }

  /** The places a message about the client's request can be. */
  predicate Reaches(client: Client, n: Node) {
    if Premature(client) then n.MomUp? || n.RelayUp? || n.Uplink? || n.CineUp?
    else match client.choice
    case Init => n == MomUp || n == MomDown
    case Connect => n != Hands && (Again(client) ==> n != MomDown)
    case Request => n != Hands
    case Leave => !WithAdmin(n)
    case Other => !WithAdmin(n) && n != Hands
    case _ => false
  }

  /** The id by which the cinema answers the client. */
  function RouteId(c: int, choice: Choice, l: Local): int {
    if choice.Connect? || l.user == None then c else l.user.value
  }

  /** The cinema id a login gets. */
  function Granted(l: Local): Option<int> {
    if l.client.loggedIn then l.again else l.user
  }

  predicate NoteOk(c: int, l: Local, n: Node, env: Envelope<Note>) {
    var choice, note := l.client.choice, env.body;
    var route := RouteId(c, choice, l);
    var wireType := if choice.Connect? && (n.MomUp? || n.RelayUp? || n.Uplink? || n.CineUp?) then 1 else route;
    && note.tag == Tag(c, l.client.serial, false)
    && match n
       case MomUp =>
         && note.choice == choice && env.mtype == (if choice.Init? then MOM_REQUEST else c)
         && (choice.Init? || choice.Connect? ==> note.id == c)
         && note.messageType == (if choice.Init? then MOM_REQUEST else if choice.Connect? then 1 else c)
       case RelayUp =>
         && note.choice == choice && note.messageType == wireType && (choice.Connect? ==> note.id == c)
         && env.mtype == if Again(l.client) && l.user.Some? then l.user.value else wireType
       case Uplink =>
         note.choice == choice && note.messageType == wireType && (choice.Connect? ==> note.id == c)
       case CineUp =>
         note.choice == choice && note.messageType == env.mtype == wireType && (choice.Connect? ==> note.id == c)
       case AdminUp =>
         && env.mtype == ADMIN && note.clientId == route
         && note.choice == (if choice.Connect? then Accepted else choice)
       case Pool =>
         note.clientId == route && note.choice == (if choice.Connect? then Accepted else choice)
       case MomDown =>
         && env.mtype == c && note.choice == AnswerTo(choice)
         && (choice.Init? ==> note.id == c % Messages.MAX_CLIENTS_HOST)
         && (choice.Connect? ==> Granted(l) == Some(note.id))
       case Downlink =>
         && note.messageType == route && note.choice == AnswerTo(choice)
         && (choice.Connect? ==> Granted(l) == Some(note.id))
       case _ =>
         && env.mtype == route && note.messageType == (if n.Hands? then 0 else route) && note.choice == AnswerTo(choice)
         && (choice.Connect? ==> Granted(l) == Some(note.id))
  }

  /** The MOM's process for a client that waits. */
  predicate ForkOk(c: int, l: Local, n: Node) {
    var choice := l.client.choice;
    if choice.Init? then
      if n.MomUp? then l.fork == None && !l.forking else ForkReady(l, UNDEFINED)
    else
      var cinemaId :=
        if choice.Connect? && !l.client.loggedIn && !n.MomDown? then UNDEFINED
        else if l.user.Some? then l.user.value else UNDEFINED;
      if n.MomUp? then ForkReady(l, cinemaId) && (!l.client.loggedIn || !l.forking)
      else
        && !l.forking
        && l.fork == Some(Fork(if !n.MomDown? then Awaiting else if choice.Leave? then Ended else Serving, cinemaId))
  }

  predicate AccountOk(l: Local, n: Node) {
    var choice := l.client.choice;
    && (l.user.Some? <==> l.client.loggedIn || (choice.Connect? && (n.AdminDown? || OnReturn(n))))
    && (l.again.Some? <==> Again(l.client) && (n.AdminDown? || OnReturn(n)))
    && (l.client.loggedIn ==> !choice.Init?)
    && (l.registering <==> choice.Connect? && WithAdmin(n))
  }

  predicate ListenerOk(l: Local, n: Node) {
    if Premature(l.client) then NoListener(l)
    else match l.client.choice
    case Init => NoListener(l)
    case Connect => if l.client.loggedIn || OnReturn(n) then ListenerReady(l) else NoListener(l)
    case Request => if WithAdmin(n) then l.listener == Some(AwaitingAdmin) && !l.spawning else ListenerReady(l)
    case Leave =>
      if n.Hands? then l.listener == Some(Leaving) && !l.spawning
      else if OnReturn(n) then l.listener == Some(Finished) && !l.spawning
      else ListenerReady(l)
    case _ => ListenerReady(l)
  }

  predicate WireOk(c: int, l: Local, n: Node) {
    && (l.onWire <==> OnWire(n) && !l.client.choice.Init?)
    && (l.onWire ==> l.cineNet == if InCinema(n) then Busy(RouteId(c, l.client.choice, l)) else Free)
  }

  /** A client that waits, with its message at `spot`. */
  predicate WaitingOk(c: int, l: Local, spot: Spot) {
    var n := spot.node;
    && Reaches(l.client, n) && NoteOk(c, l, n, spot.env) && ForkOk(c, l, n) && AccountOk(l, n)
    && ListenerOk(l, n) && WireOk(c, l, n)
  }

  predicate AtHome(l: Local) {
    && l.main == None && !l.onWire && !l.registering && l.again == None
    && (l.client.loggedIn <==> !l.client.choice.Init?)
    && if l.client.loggedIn then
         && l.user.Some? && !l.forking && l.fork == Some(Fork(Serving, l.user.value)) && ListenerReady(l)
       else l.user == None && ForkReady(l, UNDEFINED) && NoListener(l)
  }

  /** The admin's copy of an EXIT: only after the listener has taken the EXIT, and never an answer. */
  predicate NoticeOk(c: int, l: Local) {
    l.notice.Some? ==>
      var spot := l.notice.value;
      && l.client.choice.Leave? && l.user.Some?
      && (l.client.pc.Closed? || (l.main.Some? && (l.main.value.node.Hands? || OnReturn(l.main.value.node))))
      && (spot.node.AdminUp? || spot.node.Pool?) && (spot.node.AdminUp? ==> spot.env.mtype == ADMIN)
      && spot.env.body.clientId == l.user.value && spot.env.body.choice.Leave?
      && spot.env.body.tag == Tag(c, l.client.serial, true)
  }

  predicate LocalOk(c: int, l: Local) {
    && NoticeOk(c, l)
    && match l.client.pc
       case New =>
         && l.main == None && l.fork == None && !l.forking && l.user == None && l.again == None && NoListener(l)
         && !l.registering && !l.onWire && !l.client.loggedIn
       case Home => AtHome(l)
       case Closed =>
         && l.main == None && !l.onWire && !l.registering && !l.forking && !l.spawning
         && l.client.choice.Leave? && l.user.Some? && l.again == None && l.fork == Some(Fork(Ended, l.user.value))
         && l.listener == Some(Finished)
       case Waiting => l.main.Some? && WaitingOk(c, l, l.main.value)
  }

  // ----- the whole state -----

  /** Tokens and cinema ids are all different. */
  predicate IdsApart(clients: set<int>, issued: set<int>, users: map<int, int>, again: map<int, int>) {
    && (forall c :: c in clients ==> c > 2)
    && (forall u :: u in issued ==> u > 2 && u !in clients)
    && (forall c :: c in users ==> users[c] in issued)
    && (forall c, d :: c in users && d in users && users[c] == users[d] ==> c == d)
    && (forall c :: c in again ==> again[c] in issued)
    && (forall c, d :: c in again && d in users ==> again[c] != users[d])
    && (forall c, d :: c in again && d in again && again[c] == again[d] ==> c == d)
  }

  predicate IdsOk(s: State) {
    IdsApart(s.clients.Keys, s.issued, s.users, s.again)
  }

  /** The listener about to be forked is for the client's cinema id, or for the one of a second login. */
  predicate SpawnsFor(s: State, c: int, user: int) {
    c in s.clients && ((c in s.users && s.users[c] == user) || (c in s.again && s.again[c] == user))
  }

  /** Nothing in the state is about anyone but the clients. */
  predicate Scoped(s: State) {
    && (forall t :: t in s.place ==> t.client in s.clients)
    && s.users.Keys <= s.clients.Keys && s.again.Keys <= s.clients.Keys && s.forks.Keys <= s.clients.Keys
    && s.listeners.Keys <= s.issued
    && (s.main.Forking? ==> s.main.client in s.clients)
    && (s.taker.Registering? ==> s.taker.token in s.clients)
    && (s.taker.Spawning? ==> SpawnsFor(s, s.taker.token, s.taker.user))
    && (s.wire.Some? ==> s.wire.value in s.clients)
    && (s.momBusy <==> s.wire.Some?) && (s.wire == None ==> s.cineNet == Free)
  }

  ghost predicate Inv(s: State) {
    && QueuesAgree(s) && IdsOk(s) && Scoped(s)
    && forall c :: c in s.clients ==> LocalOk(c, LocalOf(s, c))
  }

  lemma InitialInv(s: State)
    requires Initial(s)
    ensures Inv(s)
  {
  }
}
