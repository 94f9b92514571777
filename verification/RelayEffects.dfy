/**
 What one step of the relay does to the lengths of the queues and to the processes.
 */
module RelayEffects {
  import opened TypedQueue
  import opened Relay

  // ----- queues -----

  /** More than twice the hops before a message at this place; an EXIT at CineUp is still to become two messages. */
  function Weight(n: Node): nat {
    match n
    case MomUp => 34
    case RelayUp => 32
    case Uplink => 30
    case CineUp => 28
    case AdminUp => 16
    case Pool => 14
    case AdminDown => 12
    case Hands => 10
    case CineDown => 8
    case Downlink => 6
    case RelayDown => 4
    case MomDown => 2
  }

  function Hops(q: Queues): nat {
    34 * |q[MomUp]| + 32 * |q[RelayUp]| + 30 * |q[Uplink]| + 28 * |q[CineUp]| + 16 * |q[AdminUp]| + 14 * |q[Pool]|
    + 12 * |q[AdminDown]| + 10 * |q[Hands]| + 8 * |q[CineDown]| + 6 * |q[Downlink]| + 4 * |q[RelayDown]|
    + 2 * |q[MomDown]|
  }

  lemma Shorter(q: Queues, from: Node, i: nat)
    requires i < |q[from]|
    ensures Hops(q[from := Without(q[from], i)]) == Hops(q) - Weight(from)
    ensures forall env :: env in Without(q[from], i) ==> env in q[from]
  {
  }

  lemma Longer(q: Queues, to: Node, env: Envelope<Note>)
    ensures Hops(q[to := q[to] + [env]]) == Hops(q) + Weight(to)
  {
  }

  /** A step takes the message at `i` of `from` and puts `env` at `to`. */
  predicate Moves(s: State, s': State, from: Node, i: nat, to: Node, env: Envelope<Note>) {
    && i < |s.queues[from]| && from != to
    && var m := s.queues[from := Without(s.queues[from], i)];
       s'.queues == m[to := m[to] + [env]]
  }

  /** Whose id a note put before the admin carries. */
  predicate ForAdmin(s: State, a: Action, note: Note)
    requires Enabled(s, a)
  {
    || (a.TakerTakes? && note.clientId == Typed(s, CineUp, CINEMA_REQUEST).id)
    || (a.ListenerTakes? && note.clientId == a.user && s.listeners[a.user].Listening?)
  }

  /** A request not handled yet is at one of these. */
  predicate Early(n: Node) {
    n.MomUp? || n.RelayUp? || n.Uplink? || n.CineUp? || n.AdminUp?
  }

  predicate SameRequest(note: Note, other: Note) {
    note.tag.client == other.tag.client && note.tag.serial == other.tag.serial
  }

  /** The `k`th request of client `c` is on its way to a handler. */
  ghost predicate Underway(q: Queues, c: int, k: nat) {
    exists n: Node, env :: Early(n) && env in q[n] && env.body.tag.client == c && env.body.tag.serial == k
  }

  /** Where messages are received whatever their type: by a network process, or off a socket. */
  predicate Untyped(n: Node) {
    n.RelayUp? || n.Uplink? || n.Downlink?
  }

  /** The message at `i` is the first of its type, and at some places the first of all. */
  predicate Foremost(n: Node, q: seq<Envelope<Note>>, i: nat) {
    && i < |q| && (Untyped(n) ==> i == 0)
    && forall j :: 0 <= j < i ==> q[j].mtype != q[i].mtype
  }

  /** A message is put behind the others, or the foremost of its type taken; handlers end in any order. */
  ghost predicate Queued(n: Node, q: seq<Envelope<Note>>, q': seq<Envelope<Note>>) {
    || n.Pool? || q' == q || (exists env :: q' == q + [env])
    || exists i: nat :: Foremost(n, q, i) && q' == Without(q, i)
  }

  /**
   The messages come nearer their ends, only so much reaches the admin, no request is made up and none
   handled unseen.
   */
  ghost predicate Nearer(s: State, a: Action, s': State)
    requires Enabled(s, a)
  {
    && Hops(s'.queues) + 2 <= Hops(s.queues)
    && (forall c, k :: Underway(s'.queues, c, k) ==> Underway(s.queues, c, k))
    && (a.AdminForks? || a.HandlerEnds? || s'.queues[Pool] == s.queues[Pool])
    && (forall n: Node :: Queued(n, s.queues[n], s'.queues[n]))
    && forall env :: env in s'.queues[AdminUp] ==> env in s.queues[AdminUp] || ForAdmin(s, a, env.body)
  }

  lemma MovedQueues(q: Queues, from: Node, i: nat, to: Node, env: Envelope<Note>)
    requires i < |q[from]| && from != to && Weight(to) < Weight(from)
    ensures var m := q[from := Without(q[from], i)];
            var q' := m[to := m[to] + [env]];
            && Hops(q') + 2 <= Hops(q)
            && (from.Pool? || to.Pool? || q'[Pool] == q[Pool])
            && forall n: Node, e :: e in q'[n] ==> e in q[n] || (n == to && e == env)
  {
    hide Without, Hops;
    Shorter(q, from, i);
    Longer(q[from := Without(q[from], i)], to, env);
  }

  lemma MovedInOrder(q: Queues, from: Node, i: nat, to: Node, env: Envelope<Note>)
    requires i < |q[from]| && from != to && (from.Pool? || Foremost(from, q[from], i))
    ensures var m := q[from := Without(q[from], i)];
            var q' := m[to := m[to] + [env]];
            forall n: Node :: Queued(n, q[n], q'[n])
  {
    hide Without, Foremost;
  }

  lemma PulledInOrder(q: Queues, from: Node, i: nat)
    requires i < |q[from]| && (from.Pool? || Foremost(from, q[from], i))
    ensures forall n: Node :: Queued(n, q[n], q[from := Without(q[from], i)][n])
  {
    hide Without, Foremost;
  }

  lemma NothingMadeUp(q: Queues, q': Queues, from: Node, i: nat, to: Node, env: Envelope<Note>)
    requires i < |q[from]|
    requires forall n: Node, e :: e in q'[n] ==> e in q[n] || (n == to && e == env)
    requires Early(to) ==> Early(from) && SameRequest(env.body, q[from][i].body)
    ensures forall c, k :: Underway(q', c, k) ==> Underway(q, c, k)
  {
    forall c, k: nat | Underway(q', c, k) ensures Underway(q, c, k) {
      var n: Node, e: Envelope<Note> :| Early(n) && e in q'[n] && e.body.tag.client == c && e.body.tag.serial == k;
      if e !in q[n] {
        assert q[from][i] in q[from];
      }
    }
  }

  lemma MoveEffect(s: State, a: Action, from: Node, i: nat, to: Node, env: Envelope<Note>)
    requires Enabled(s, a) && Weight(to) < Weight(from) && Moves(s, Apply(s, a), from, i, to, env)
    requires to.AdminUp? ==> ForAdmin(s, a, env.body)
    requires from.Pool? || to.Pool? ==> a.AdminForks? || a.HandlerEnds?
    requires from.Pool? || Foremost(from, s.queues[from], i)
    requires Early(to) ==> Early(from) && SameRequest(env.body, s.queues[from][i].body)
    ensures Nearer(s, a, Apply(s, a))
  {
    hide Enabled, Apply, Without, ForAdmin, Hops, Weight, Underway, SameRequest, Early, Foremost, Queued;
    MovedInOrder(s.queues, from, i, to, env);
    MovedQueues(s.queues, from, i, to, env);
    NothingMadeUp(s.queues, Apply(s, a).queues, from, i, to, env);
  }

  lemma AcceptsEffect(s: State, a: Action)
    requires Enabled(s, a) && a.MainAccepts?
    ensures Nearer(s, a, Apply(s, a))
  {
    hide Nearer, Channel, Oldest, Without, Stamp, SendType, Blank, TokenOf;
    var i := Oldest(s.queues[MomUp], MOM_REQUEST);
    var note := s.queues[MomUp][i].body;
    var answer := Blank(Accepted, note.id % Messages.MAX_CLIENTS_HOST, note.tag);
    MoveEffect(s, a, MomUp, i, MomDown, Envelope(SendType(note.id, answer), Stamp(note.id, answer)));
  }

  lemma ForkUpEffect(s: State, c: int)
    requires Enabled(s, ForkUp(c))
    ensures Nearer(s, ForkUp(c), Apply(s, ForkUp(c)))
  {
    hide Nearer, Channel, Oldest, Without, Stamp, SendType, TokenOf;
    var i, id := Oldest(s.queues[MomUp], c), s.forks[c].cinemaId;
    var note := s.queues[MomUp][i].body;
    MoveEffect(s, ForkUp(c), MomUp, i, RelayUp, Envelope(SendType(id, note), Stamp(id, note)));
  }

  lemma ForkDownEffect(s: State, c: int)
    requires Enabled(s, ForkDown(c))
    ensures Nearer(s, ForkDown(c), Apply(s, ForkDown(c)))
  {
    hide Nearer, Channel, Oldest, Without, Stamp, SendType, ReplyTypeOf, TokenOf;
    var i := Oldest(s.queues[RelayDown], ReplyTypeOf(s.forks[c], c));
    var note := s.queues[RelayDown][i].body;
    MoveEffect(s, ForkDown(c), RelayDown, i, MomDown, Envelope(SendType(c, note), Stamp(c, note)));
  }

  lemma MomNetUpEffect(s: State)
    requires Enabled(s, MomNetUp)
    ensures Nearer(s, MomNetUp, Apply(s, MomNetUp))
  {
    hide Nearer, Channel, Oldest, Without, Stamp, SendType, TokenOf;
    MoveEffect(s, MomNetUp, RelayUp, 0, Uplink, Envelope(1, s.queues[RelayUp][0].body));
  }

  lemma MomNetDownEffect(s: State)
    requires Enabled(s, MomNetDown)
    ensures Nearer(s, MomNetDown, Apply(s, MomNetDown))
  {
    hide Nearer, Channel, Oldest, Without, Stamp, SendType, TokenOf;
    var note := s.queues[Downlink][0].body;
    MoveEffect(s, MomNetDown, Downlink, 0, RelayDown, Envelope(SendType(UNDEFINED, note), Stamp(UNDEFINED, note)));
  }

  lemma CineNetUpEffect(s: State, a: Action)
    requires Enabled(s, a) && a.CineNetUp?
    ensures Nearer(s, a, Apply(s, a))
  {
    hide Nearer, Channel, Without, Stamp, SendType, TokenOf, AwaitedType;
    var note := s.queues[Uplink][0].body;
    MoveEffect(s, a, Uplink, 0, CineUp, Envelope(SendType(UNDEFINED, note), Stamp(UNDEFINED, note)));
  }

  lemma CineNetDownEffect(s: State, a: Action)
    requires Enabled(s, a) && a.CineNetDown?
    ensures Nearer(s, a, Apply(s, a))
  {
    hide Nearer, Channel, Oldest, Without, TokenOf;
    var i := Oldest(s.queues[CineDown], s.cineNet.reply);
    MoveEffect(s, a, CineDown, i, Downlink, Envelope(1, s.queues[CineDown][i].body));
  }

  lemma TakerTakesEffect(s: State, a: Action)
    requires Enabled(s, a) && a.TakerTakes?
    ensures Nearer(s, a, Apply(s, a))
  {
    hide Nearer, Channel, Oldest, Without, SendType, Stamp, TokenOf;
    var i := Oldest(s.queues[CineUp], CINEMA_REQUEST);
    var note := s.queues[CineUp][i].body;
    var request := Blank(Accepted, 0, note.tag).(clientId := note.id);
    MoveEffect(s, a, CineUp, i, AdminUp, Envelope(SendType(ADMIN, request), Stamp(ADMIN, request)));
  }

  lemma TakerConfirmsEffect(s: State, a: Action)
    requires Enabled(s, a) && a.TakerConfirms?
    ensures Nearer(s, a, Apply(s, a))
  {
    hide Nearer, Channel, Oldest, Without, SendType, Stamp, TokenOf;
    var t := s.taker.token;
    var i := Oldest(s.queues[AdminDown], t);
    var answer := Blank(Accepted, s.queues[AdminDown][i].body.id, s.queues[AdminDown][i].body.tag);
    MoveEffect(s, a, AdminDown, i, CineDown, Envelope(SendType(t, answer), Stamp(t, answer)));
  }

  lemma ListenerAnswersEffect(s: State, u: int)
    requires Enabled(s, ListenerAnswers(u))
    ensures Nearer(s, ListenerAnswers(u), Apply(s, ListenerAnswers(u)))
  {
    hide Nearer, Channel, Oldest, Without, Stamp, SendType, TokenOf;
    var i := Oldest(s.queues[AdminDown], u);
    var note := s.queues[AdminDown][i].body;
    MoveEffect(s, ListenerAnswers(u), AdminDown, i, CineDown, Envelope(SendType(u, note), Stamp(u, note)));
  }

  lemma ListenerLeavesEffect(s: State, u: int)
    requires Enabled(s, ListenerLeaves(u))
    ensures Nearer(s, ListenerLeaves(u), Apply(s, ListenerLeaves(u)))
  {
    hide Nearer, Channel, Oldest, Without, Stamp, SendType, TokenOf;
    var i := Oldest(s.queues[Hands], u);
    var note := s.queues[Hands][i].body;
    MoveEffect(s, ListenerLeaves(u), Hands, i, CineDown, Envelope(SendType(u, note), Stamp(u, note)));
  }

  lemma ListenerAsksEffect(s: State, a: Action)
    requires Enabled(s, a) && a.ListenerTakes? && Typed(s, CineUp, a.user).choice.Request?
    ensures Nearer(s, a, Apply(s, a))
  {
    hide Nearer, Channel, Oldest, Without, TokenOf, SendType, Stamp;
    var u, i := a.user, Oldest(s.queues[CineUp], a.user);
    var note := s.queues[CineUp][i].body.(clientId := u);
    MoveEffect(s, a, CineUp, i, AdminUp, Envelope(SendType(ADMIN, note), Stamp(ADMIN, note)));
  }

  lemma ListenerTakesStep(s: State, a: Action)
    requires Enabled(s, a) && a.ListenerTakes?
    ensures HasTyped(s, CineUp, a.user) && Apply(s, a) == ApplyListenerTakes(s, a.user)
  {
    hide ApplyListenerTakes;
  }

  lemma ListenerRefusesEffect(s: State, a: Action)
    requires Enabled(s, a) && a.ListenerTakes?
    requires !Typed(s, CineUp, a.user).choice.Request? && !Typed(s, CineUp, a.user).choice.Leave?
    ensures Nearer(s, a, Apply(s, a))
  {
    ListenerTakesStep(s, a);
    hide Nearer, Channel, Oldest, Without, TokenOf, SendType, Stamp, Apply, Enabled, ForAdmin;
    var u, i := a.user, Oldest(s.queues[CineUp], a.user);
    var answer := Blank(Invalid, 0, s.queues[CineUp][i].body.tag);
    MoveEffect(s, a, CineUp, i, CineDown, Envelope(SendType(u, answer), Stamp(u, answer)));
  }

  lemma ListenerTakesLeaveEffect(s: State, a: Action)
    requires Enabled(s, a) && a.ListenerTakes? && Typed(s, CineUp, a.user).choice.Leave?
    ensures Nearer(s, a, Apply(s, a))
  {
    hide Nearer, Channel, Oldest, Without, TokenOf, SendType, Blank;
    var u, i := a.user, Oldest(s.queues[CineUp], a.user);
    var note := s.queues[CineUp][i].body.(clientId := u);
    var notice := note.(tag := note.tag.(notice := true));
    LeaveMoves(s, a, i, Envelope(SendType(ADMIN, notice), Stamp(ADMIN, notice)),
               Envelope(u, Blank(Leave, 0, note.tag)));
  }

  /** An EXIT taken becomes two messages. */
  lemma LeaveMoves(s: State, a: Action, i: nat, notice: Envelope<Note>, answer: Envelope<Note>)
    requires Enabled(s, a) && i < |s.queues[CineUp]| && a.ListenerTakes? && Foremost(CineUp, s.queues[CineUp], i)
    requires ForAdmin(s, a, notice.body) && SameRequest(notice.body, s.queues[CineUp][i].body)
    requires Apply(s, a).queues == s.queues[CineUp := Without(s.queues[CineUp], i)]
               [AdminUp := s.queues[AdminUp] + [notice]][Hands := s.queues[Hands] + [answer]]
    ensures Nearer(s, a, Apply(s, a))
  {
    hide Enabled, Apply, Without, ForAdmin, Underway, SameRequest, Hops, Foremost;
    var q := s.queues;
    var m := q[CineUp := Without(q[CineUp], i)];
    var m' := m[AdminUp := m[AdminUp] + [notice]];
    Shorter(q, CineUp, i);
    Longer(m, AdminUp, notice);
    NothingMadeUp(q, m', CineUp, i, AdminUp, notice);
    Longer(m', Hands, answer);
    NothingMadeUp(m', Apply(s, a).queues, AdminUp, |m[AdminUp]|, Hands, answer);
  }

  lemma AdminForksEffect(s: State, a: Action)
    requires Enabled(s, a) && a.AdminForks?
    ensures Nearer(s, a, Apply(s, a))
  {
    hide Nearer, Channel, Oldest, Without, TokenOf;
    var i := Oldest(s.queues[AdminUp], ADMIN);
    MoveEffect(s, a, AdminUp, i, Pool, Envelope(1, s.queues[AdminUp][i].body));
  }

  lemma HandlerEndsStep(s: State, a: Action)
    requires Enabled(s, a) && a.HandlerEnds?
    ensures a.i < |s.queues[Pool]| && Apply(s, a) == ApplyHandlerEnds(s, a.i, a.newUser)
  {
    hide ApplyHandlerEnds;
  }

  lemma HandlerEndsEffect(s: State, a: Action)
    requires Enabled(s, a) && a.HandlerEnds?
    ensures Nearer(s, a, Apply(s, a))
  {
    HandlerEndsStep(s, a);
    hide Nearer, Channel, Oldest, Without, Stamp, SendType, TokenOf, Weight, Apply, Enabled, Grant;
    var note := s.queues[Pool][a.i].body;
    if note.choice.Leave? {
      PullEffect(s, a, Pool, a.i);
    } else {
      var choice := if note.choice.Accepted? then Accepted else if note.choice.Request? then Response else Invalid;
      AnswerEffect(s, a, Note(0, note.clientId, choice, if note.choice.Accepted? then a.newUser else 0, note.tag));
    }
  }

  lemma AnswerEffect(s: State, a: Action, answer: Note)
    requires Enabled(s, a) && a.HandlerEnds? && a.i < |s.queues[Pool]|
    requires Apply(s, a).queues == Send(Pull(s, Pool, a.i), AdminDown, answer.clientId, answer).queues
    ensures Nearer(s, a, Apply(s, a))
  {
    hide Nearer, Enabled, Apply, Stamp, SendType, Without, TokenOf;
    MoveEffect(s, a, Pool, a.i, AdminDown,
               Envelope(SendType(answer.clientId, answer), Stamp(answer.clientId, answer)));
  }

  lemma PullEffect(s: State, a: Action, from: Node, i: nat)
    requires Enabled(s, a) && i < |s.queues[from]| && (from.Pool? ==> a.HandlerEnds?)
    requires from.Pool? || Foremost(from, s.queues[from], i)
    requires Apply(s, a).queues == s.queues[from := Without(s.queues[from], i)]
    ensures Nearer(s, a, Apply(s, a))
  {
    hide Enabled, Apply, Without, ForAdmin, Hops, Underway, SameRequest, Foremost, Queued;
    PulledInOrder(s.queues, from, i);
    Shorter(s.queues, from, i);
    NothingMadeUp(s.queues, Apply(s, a).queues, from, i, MomDown, s.queues[from][i]);
  }

  lemma ClientEffect(s: State, a: Action)
    requires Enabled(s, a) && a.ClientReceives?
    ensures Nearer(s, a, Apply(s, a))
  {
    hide Nearer, Channel, Oldest, Without, TokenOf;
    PullEffect(s, a, MomDown, Oldest(s.queues[MomDown], a.client));
  }

  lemma ListenerTakesEffect(s: State, a: Action)
    requires Enabled(s, a) && a.ListenerTakes?
    ensures Nearer(s, a, Apply(s, a))
  {
    hide Nearer, Apply, Typed, Channel;
    if Typed(s, CineUp, a.user).choice.Leave? {
      ListenerTakesLeaveEffect(s, a);
    } else if Typed(s, CineUp, a.user).choice.Request? {
      ListenerAsksEffect(s, a);
    } else {
      ListenerRefusesEffect(s, a);
    }
  }

  /** Every step but the sending of a new request and the making of a fork. */
  lemma StepsNearer(s: State, a: Action)
    requires Enabled(s, a) && !a.ClientSends? && !a.MainForks? && !a.TakerSpawns?
    ensures Nearer(s, a, Apply(s, a))
  {
    hide Nearer, Apply, Enabled, Typed;
    match a
    case MainAccepts => AcceptsEffect(s, a);
    case ForkUp(c) => ForkUpEffect(s, c);
    case ForkDown(c) => ForkDownEffect(s, c);
    case MomNetUp => MomNetUpEffect(s);
    case MomNetDown => MomNetDownEffect(s);
    case CineNetUp => CineNetUpEffect(s, a);
    case CineNetDown => CineNetDownEffect(s, a);
    case TakerTakes => TakerTakesEffect(s, a);
    case TakerConfirms => TakerConfirmsEffect(s, a);
    case ListenerTakes(u) => ListenerTakesEffect(s, a);
    case ListenerAnswers(u) => ListenerAnswersEffect(s, u);
    case ListenerLeaves(u) => ListenerLeavesEffect(s, u);
    case AdminForks => AdminForksEffect(s, a);
    case HandlerEnds(_, _) => HandlerEndsEffect(s, a);
    case ClientReceives(_) => ClientEffect(s, a);
  }

  // ----- processes -----

  predicate TookExit(pc: ListenerPc) {
    pc.Leaving? || pc.Finished?
  }

  /** No client appears or changes but by its own calls, forks are announced before they are made, the wire
   is the network processes', and who has taken an EXIT takes nothing more. */
  ghost predicate GoesOn(s: State, a: Action, s': State) {
    && s'.clients.Keys == s.clients.Keys
    && (forall c :: c in s.clients ==>
          && s.clients[c].serial <= s'.clients[c].serial
          && (s'.clients[c] == s.clients[c] || a == ClientReceives(c) || (a.ClientSends? && a.client == c)))
    && (a.MomNetUp? || a.MomNetDown? || s'.wire == s.wire)
    && (a.HandlerEnds? || (s'.users == s.users && s'.again == s.again))
    && s'.main.Forking? == (a.MainAccepts? || (s.main.Forking? && !a.MainForks?))
    && s'.taker.Spawning? == (a.TakerConfirms? || (s.taker.Spawning? && !a.TakerSpawns?))
    && forall u :: u in s.listeners && TookExit(s.listeners[u]) && !(s.taker.Spawning? && s.taker.user == u) ==>
         u in s'.listeners && TookExit(s'.listeners[u])
  }

  /** Taking and putting messages is no business of the processes. */
  lemma MessagesOnly()
    ensures forall s: State, from: Node, i: nat {:trigger Pull(s, from, i)} | i < |s.queues[from]| ::
              var m := Pull(s, from, i);
              m.clients == s.clients && m.listeners == s.listeners && m.main == s.main && m.taker == s.taker
              && m.users == s.users && m.again == s.again && m.wire == s.wire
    ensures forall s: State, to: Node, t: int, note: Note {:trigger Post(s, to, t, note)} ::
              var m := Post(s, to, t, note);
              m.clients == s.clients && m.listeners == s.listeners && m.main == s.main && m.taker == s.taker
              && m.users == s.users && m.again == s.again && m.wire == s.wire
  {
    hide TokenOf, Without;
  }

  lemma MomGoesOn(s: State, a: Action)
    requires Enabled(s, a) && (a.MainAccepts? || a.MainForks? || a.MomNetUp? || a.MomNetDown?)
    ensures GoesOn(s, a, Apply(s, a))
  {
    hide Channel, Oldest, Without, Stamp, SendType, Blank, TokenOf, Typed, Pull, Post;
    MessagesOnly();
  }

  lemma ForksGoOn(s: State, a: Action)
    requires Enabled(s, a) && (a.ForkUp? || a.ForkDown?)
    ensures GoesOn(s, a, Apply(s, a))
  {
    hide Channel, Oldest, Without, Stamp, SendType, Blank, TokenOf, ReplyTypeOf, Typed, Pull, Post;
    MessagesOnly();
  }

  lemma CineNetGoesOn(s: State, a: Action)
    requires Enabled(s, a) && (a.CineNetUp? || a.CineNetDown?)
    ensures GoesOn(s, a, Apply(s, a))
  {
    hide Channel, Oldest, Without, Stamp, SendType, Blank, TokenOf, AwaitedType, Typed, Pull, Post;
    MessagesOnly();
  }

  lemma TakerGoesOn(s: State, a: Action)
    requires Enabled(s, a) && (a.TakerTakes? || a.TakerConfirms? || a.TakerSpawns?)
    ensures GoesOn(s, a, Apply(s, a))
  {
    hide Channel, Oldest, Without, Stamp, SendType, Blank, TokenOf, AwaitedType, Typed, Pull, Post;
    MessagesOnly();
  }

  lemma ListenerTakesGoesOn(s: State, a: Action)
    requires Enabled(s, a) && a.ListenerTakes?
    ensures GoesOn(s, a, Apply(s, a))
  {
    hide Channel, Oldest, Without, Stamp, SendType, Blank, TokenOf, Typed, Pull, Post, GoesOn;
    MessagesOnly();
    var choice := Typed(s, CineUp, a.user).choice;
    ListenerOnly(s, a, Apply(s, a),
                 if choice.Request? then AwaitingAdmin else if choice.Leave? then Leaving else Listening);
  }

  lemma ListenerOnly(s: State, a: Action, s': State, pc: ListenerPc)
    requires a.ListenerTakes? && a.user in s.listeners && s.listeners[a.user] == Listening
    requires s'.clients == s.clients && s'.main == s.main && s'.taker == s.taker && s'.users == s.users
    requires s'.wire == s.wire && s'.again == s.again
    requires s'.listeners == s.listeners[a.user := pc]
    ensures GoesOn(s, a, s')
  {
  }

  lemma ListenerGoesOn(s: State, a: Action)
    requires Enabled(s, a) && (a.ListenerAnswers? || a.ListenerLeaves? || a.AdminForks?)
    ensures GoesOn(s, a, Apply(s, a))
  {
    hide Channel, Oldest, Without, Stamp, SendType, Blank, TokenOf, Typed, Pull, Post, MaySend, FreshId;
    MessagesOnly();
  }

  lemma HandlerKeepsProcesses(s: State, i: nat, user: int)
    requires i < |s.queues[Pool]|
    ensures var s' := ApplyHandlerEnds(s, i, user);
            && s'.clients == s.clients && s'.listeners == s.listeners && s'.main == s.main && s'.taker == s.taker
            && s'.wire == s.wire
  {
    hide Stamp, SendType, Pull, Post, Grant;
    MessagesOnly();
  }

  lemma HandlerGoesOn(s: State, a: Action)
    requires Enabled(s, a) && a.HandlerEnds?
    ensures GoesOn(s, a, Apply(s, a))
  {
    HandlerEndsStep(s, a);
    hide Apply, Enabled, ApplyHandlerEnds;
    HandlerKeepsProcesses(s, a.i, a.newUser);
  }

  lemma ClientSendsStep(s: State, a: Action)
    requires Enabled(s, a) && a.ClientSends?
    ensures a.client in s.clients && Apply(s, a) == ApplyClientSends(s, a.client, a.choice)
  {
    hide ApplyClientSends;
  }

  lemma SendingKeepsProcesses(s: State, c: int, choice: Choice)
    requires c in s.clients
    ensures var s' := ApplyClientSends(s, c, choice);
            && s'.clients == s.clients[c := Client(Waiting, choice, s.clients[c].serial + 1, s.clients[c].loggedIn)]
            && s'.listeners == s.listeners && s'.main == s.main && s'.taker == s.taker
            && s'.wire == s.wire && s'.users == s.users && s'.again == s.again
  {
    hide Stamp, SendType, Blank, Post;
    MessagesOnly();
  }

  lemma SendingGoesOn(s: State, a: Action)
    requires Enabled(s, a) && a.ClientSends?
    ensures GoesOn(s, a, Apply(s, a))
  {
    ClientSendsStep(s, a);
    hide Apply, Enabled, ApplyClientSends;
    SendingKeepsProcesses(s, a.client, a.choice);
  }

  lemma ReceivingGoesOn(s: State, a: Action)
    requires Enabled(s, a) && a.ClientReceives?
    ensures GoesOn(s, a, Apply(s, a))
  {
    hide Channel, Oldest, Typed, Pull;
    MessagesOnly();
  }

  lemma StepsGoOn(s: State, a: Action)
    requires Enabled(s, a)
    ensures GoesOn(s, a, Apply(s, a))
  {
    hide GoesOn, Enabled, Apply;
    if a.MainAccepts? || a.MainForks? || a.MomNetUp? || a.MomNetDown? {
      MomGoesOn(s, a);
    } else if a.ForkUp? || a.ForkDown? {
      ForksGoOn(s, a);
    } else if a.CineNetUp? || a.CineNetDown? {
      CineNetGoesOn(s, a);
    } else if a.TakerTakes? || a.TakerConfirms? || a.TakerSpawns? {
      TakerGoesOn(s, a);
    } else if a.ListenerTakes? {
      ListenerTakesGoesOn(s, a);
    } else if a.ListenerAnswers? || a.ListenerLeaves? || a.AdminForks? {
      ListenerGoesOn(s, a);
    } else if a.HandlerEnds? {
      HandlerGoesOn(s, a);
    } else if a.ClientSends? {
      SendingGoesOn(s, a);
    } else {
      ReceivingGoesOn(s, a);
    }
  }

  // ----- new requests -----

  lemma SendsOne(s: State, a: Action) returns (env: Envelope<Note>)
    requires Enabled(s, a) && a.ClientSends?
    ensures Apply(s, a).queues == s.queues[MomUp := s.queues[MomUp] + [env]]
    ensures env.body.tag == Tag(a.client, s.clients[a.client].serial + 1, false)
  {
    ClientSendsStep(s, a);
    hide Channel, SendType, TokenOf, Stamp, Apply, Enabled;
    var id := if a.choice.Init? then UNDEFINED else a.client;
    var t := if a.choice.Init? then MOM_REQUEST else if a.choice.Connect? then CINEMA_REQUEST else 0;
    var tag := Tag(a.client, s.clients[a.client].serial + 1, false);
    var note := Blank(a.choice, IdIn(a.choice, a.client), tag).(messageType := t);
    env := Envelope(SendType(id, note), Stamp(id, note));
  }

  lemma OneMore(q: Queues, to: Node, env: Envelope<Note>, c: int, k: nat)
    requires Underway(q[to := q[to] + [env]], c, k)
    ensures Underway(q, c, k) || (c == env.body.tag.client && k == env.body.tag.serial)
  {
    var q' := q[to := q[to] + [env]];
    var n: Node, e: Envelope<Note> :| Early(n) && e in q'[n] && e.body.tag.client == c && e.body.tag.serial == k;
    assert e in q[n] || e == env;
  }

  /** A client that sends makes its next request, and only that is new. */
  lemma SendsNext(s: State, a: Action, c: int, k: nat)
    requires Enabled(s, a) && a.ClientSends? && Underway(Apply(s, a).queues, c, k)
    ensures Underway(s.queues, c, k) || (c == a.client && k == s.clients[c].serial + 1)
  {
    hide Apply, Underway, Channel;
    var env := SendsOne(s, a);
    OneMore(s.queues, MomUp, env, c, k);
  }

  lemma StillUnderway(s: State, a: Action, c: int, k: nat)
    requires Enabled(s, a) && (a.MainForks? || a.TakerSpawns?) && Underway(Apply(s, a).queues, c, k)
    ensures Underway(s.queues, c, k)
  {
    hide Underway;
  }
}
