/**
 Every step of every process of the relay keeps the invariant.
 */
module RelaySteps {
  import opened TypedQueue
  import opened Wrappers
  import opened Relay
  import opened RelayInvariant
  import opened RelayLocal
  import opened RelayProof
  import opened RelayEffects

  /** The components of the state a client's view is made of. */
  lemma Look(s: State, c: int)
    requires c in s.clients
    ensures var l := LocalOf(s, c);
            && l.client == s.clients[c] && l.fork == Lookup(s.forks, c) && l.user == Lookup(s.users, c)
            && l.again == Lookup(s.again, c)
            && (l.forking <==> s.main == Forking(c)) && (l.registering <==> s.taker == Registering(c))
            && (l.onWire <==> s.wire == Some(c)) && (l.onWire ==> l.cineNet == s.cineNet)
            && (l.user.Some? ==> l.listener == Lookup(s.listeners, l.user.value))
            && (l.spawning <==> l.user.Some? && s.taker == Spawning(c, l.user.value))
  {
  }

  /** Cinema ids and clients are never mistaken for each other. */
  lemma Ids(s: State, c: int)
    requires Inv(s)
    ensures c in s.clients ==> c > 2
    ensures c in s.users ==> c in s.clients && s.users[c] > 2 && s.users[c] !in s.clients
    ensures forall d :: c in s.users && d in s.users && s.users[c] == s.users[d] ==> c == d
    ensures Frame(s) && (c in s.clients ==> LocalOk(c, LocalOf(s, c)))
    ensures s.main.Forking? ==> s.main.client in s.clients
    ensures s.taker.Registering? ==> s.taker.token in s.clients
    ensures s.taker.Spawning? ==> SpawnsFor(s, s.taker.token, s.taker.user)
    ensures s.forks.Keys <= s.clients.Keys && (s.momBusy <==> s.wire.Some?) && (s.wire == None ==> s.cineNet == Free)
  {
    hide QueuesAgree, LocalOk, LocalOf;
  }

  /** The owner of the message at an index of a queue that holds no notices. */
  lemma MainOwner(s: State, n: Node, i: nat) returns (c: int, l: Local, env: Envelope<Note>)
    requires Inv(s) && i < |s.queues[n]| && !n.AdminUp? && !n.Pool?
    ensures env == s.queues[n][i] && c == env.body.tag.client && !env.body.tag.notice
    ensures c in s.clients && c > 2 && l == LocalOf(s, c) && LocalOk(c, l) && l.main == Some(Spot(n, env))
    ensures l.user == Lookup(s.users, c) && (l.user.Some? ==> l.user.value > 2 && l.user.value !in s.clients)
  {
    hide Inv, LocalOk, LocalOf;
    env := s.queues[n][i];
    c, l := Owner(s, n, i);
    if env.body.tag.notice {
      NoticeMeansLeft(c, l);
      assert false;
    }
    Look(s, c);
    Ids(s, c);
  }

  /** Two changes, of a message's place and of a process, make a step. */
  lemma TwoChanges(s: State, m: State, s': State, c: int, l: Local, l': Local)
    requires Inv(s) && Changes(s, m, c, l) && Changes(m, s', c, l') && Frame(s') && LocalOk(c, l')
    ensures Inv(s')
  {
    hide Inv, Changes, Frame, LocalOk;
    ChangesTwice(s, m, s', c, l, l');
    ChangeKeeps(s, s', c, l');
  }

  lemma LookAfter(s: State, m: State, c: int, l: Local)
    requires Changes(s, m, c, l)
    ensures c in m.clients && LocalOf(m, c) == l
  {
    hide LocalOf;
  }

  lemma ClientSendsKeeps(s: State, c: int, choice: Choice)
    requires Inv(s) && Enabled(s, ClientSends(c, choice))
    ensures Inv(Apply(s, ClientSends(c, choice)))
  {
    hide Inv, Changes, Frame, LocalOf, LocalOk, Post;
    Ids(s, c);
    Look(s, c);
    var l := LocalOf(s, c);
    SendsLocal(c, l, choice);
    NotPlaced(s, c);
    var client := Client(Waiting, choice, s.clients[c].serial + 1, s.clients[c].loggedIn);
    ClientChanges(s, c, client);
    var m := s.(clients := s.clients[c := client]);
    LookAfter(s, m, c, l.(client := client));
    var id := if choice.Init? then UNDEFINED else c;
    var note := Blank(choice, IdIn(choice, c), Tag(c, client.serial, false)).(
      messageType := if choice.Init? then MOM_REQUEST else if choice.Connect? then CINEMA_REQUEST else 0);
    PostChanges(m, MomUp, SendType(id, note), Stamp(id, note));
    var s' := Post(m, MomUp, SendType(id, note), Stamp(id, note));
    assert Apply(s, ClientSends(c, choice)) == s';
    LookAfter(m, s', c, LocalOf(m, c).(main := Some(Spot(MomUp, Envelope(SendType(id, note), Stamp(id, note))))));
    TwoChanges(s, m, s', c, LocalOf(m, c), LocalOf(s', c));
  }

  lemma NotPlaced(s: State, c: int)
    requires c in s.clients && LocalOf(s, c).main == None
    ensures Token(c, false) !in s.place
  {
  }

  lemma MainForksKeeps(s: State)
    requires Inv(s) && Enabled(s, MainForks)
    ensures Inv(Apply(s, MainForks))
  {
    hide Inv, Changes, Frame, LocalOf, LocalOk;
    var c := s.main.client;
    Ids(s, c);
    Look(s, c);
    var l := LocalOf(s, c);
    MainForksLocal(c, l);
    ForkChanges(s, c, Fork(Serving, UNDEFINED));
    var m := s.(forks := s.forks[c := Fork(Serving, UNDEFINED)]);
    LookAfter(s, m, c, l.(fork := Some(Fork(Serving, UNDEFINED))));
    ForkedChanges(m);
    var s' := m.(main := Connecting);
    TwoChanges(s, m, s', c, LocalOf(m, c), LocalOf(m, c).(forking := false));
  }

  lemma MainAcceptsKeeps(s: State)
    requires Inv(s) && Enabled(s, MainAccepts)
    ensures Inv(Apply(s, MainAccepts))
  {
    hide Inv, Changes, Frame, LocalOf, LocalOk, Pull, Post;
    var i := Oldest(s.queues[MomUp], MOM_REQUEST);
    var c, l, env := MainOwner(s, MomUp, i);
    Ids(s, c);
    MomUpType(c, l, env);
    MainAcceptsLocal(c, l, env);
    var note := Stamp(c, Blank(Accepted, c % Messages.MAX_CLIENTS_HOST, env.body.tag));
    MoveChanges(s, MomUp, i, MomDown, c, note);
    var m := Post(Pull(s, MomUp, i), MomDown, c, note);
    var l1 := l.(main := Some(Spot(MomDown, Envelope(c, note))));
    LookAfter(s, m, c, l1);
    SameProcesses(s, MomUp, i, MomDown, c, note);
    ForkingChanges(m, c);
    var s' := m.(main := Forking(c));
    assert Apply(s, MainAccepts) == s' by { ProcessesLast(s, MomUp, i, MomDown, c, note); }
    TwoChanges(s, m, s', c, l1, l1.(forking := true));
  }

  /** Moving a message leaves the processes as they are. */
  lemma SameProcesses(s: State, from: Node, i: nat, to: Node, t: int, note: Note)
    requires i < |s.queues[from]|
    ensures var m := Post(Pull(s, from, i), to, t, note); m == s.(queues := m.queues, place := m.place)
  {
  }

  /** Changing the processes before the send comes to the same as after it. */
  lemma ProcessesLast(s: State, from: Node, i: nat, to: Node, t: int, note: Note)
    requires i < |s.queues[from]|
    ensures var m := Post(Pull(s, from, i), to, t, note);
            forall x: State :: x.queues == Pull(s, from, i).queues && x.place == Pull(s, from, i).place ==>
              Post(x, to, t, note) == x.(queues := m.queues, place := m.place)
  {
  }

  /** The receives of the network processes, which ask for no type, are of index 0. */
  lemma MomNetUpKeeps(s: State)
    requires Inv(s) && Enabled(s, MomNetUp)
    ensures Inv(Apply(s, MomNetUp))
  {
    hide Inv, Changes, Frame, LocalOf, LocalOk, Pull, Post;
    var c, l, env := MainOwner(s, RelayUp, 0);
    Ids(s, c);
    MomNetUpLocal(c, l, env);
    MoveChanges(s, RelayUp, 0, Uplink, 1, env.body);
    var m := Post(Pull(s, RelayUp, 0), Uplink, 1, env.body);
    var l1 := l.(main := Some(Spot(Uplink, Envelope(1, env.body))));
    LookAfter(s, m, c, l1);
    SameProcesses(s, RelayUp, 0, Uplink, 1, env.body);
    WireChanges(m, c);
    var s' := m.(momBusy := true, wire := Some(c));
    assert Apply(s, MomNetUp) == s' by {
      ProcessesLast(s, RelayUp, 0, Uplink, 1, env.body);
      PullKeepsProcesses(s, RelayUp, 0);
    }
    TwoChanges(s, m, s', c, l1, l1.(onWire := true, cineNet := Free));
  }

  lemma PullKeepsProcesses(s: State, from: Node, i: nat)
    requires i < |s.queues[from]|
    ensures var m := Pull(s, from, i); m == s.(queues := m.queues, place := m.place)
  {
  }

  lemma CineNetUpKeeps(s: State)
    requires Inv(s) && Enabled(s, CineNetUp)
    ensures Inv(Apply(s, CineNetUp))
  {
    hide Inv, Changes, Frame, LocalOf, LocalOk, Pull, Post;
    var c, l, env := MainOwner(s, Uplink, 0);
    Ids(s, c);
    Look(s, c);
    CineNetUpLocal(c, l, env);
    var t, note := SendType(UNDEFINED, env.body), Stamp(UNDEFINED, env.body);
    MoveChanges(s, Uplink, 0, CineUp, t, note);
    var m := Post(Pull(s, Uplink, 0), CineUp, t, note);
    var l1 := l.(main := Some(Spot(CineUp, Envelope(t, note))));
    LookAfter(s, m, c, l1);
    SameProcesses(s, Uplink, 0, CineUp, t, note);
    CineNetChanges(m, c, Busy(AwaitedType(env.body)));
    var s' := m.(cineNet := Busy(AwaitedType(env.body)));
    assert Apply(s, CineNetUp) == s' by {
      ProcessesLast(s, Uplink, 0, CineUp, t, note);
      PullKeepsProcesses(s, Uplink, 0);
    }
    TwoChanges(s, m, s', c, l1, l1.(cineNet := Busy(AwaitedType(env.body))));
  }

  lemma ForkUpKeeps(s: State, c: int)
    requires Inv(s) && Enabled(s, ForkUp(c))
    ensures Inv(Apply(s, ForkUp(c)))
  {
    hide Inv, Changes, Frame, LocalOf, LocalOk, Pull, Post;
    var i := Oldest(s.queues[MomUp], c);
    var d, l, env := MainOwner(s, MomUp, i);
    Ids(s, c);
    Look(s, c);
    MomUpType(d, l, env);
    assert d == c;
    var f := s.forks[c];
    ForkUpLocal(c, l, env, f);
    var t, note := SendType(f.cinemaId, env.body), Stamp(f.cinemaId, env.body);
    MoveChanges(s, MomUp, i, RelayUp, t, note);
    var m := Post(Pull(s, MomUp, i), RelayUp, t, note);
    var l1 := l.(main := Some(Spot(RelayUp, Envelope(t, note))));
    LookAfter(s, m, c, l1);
    SameProcesses(s, MomUp, i, RelayUp, t, note);
    ForkChanges(m, c, f.(pc := Awaiting));
    var s' := m.(forks := m.forks[c := f.(pc := Awaiting)]);
    assert Apply(s, ForkUp(c)) == s' by {
      ProcessesLast(s, MomUp, i, RelayUp, t, note);
      PullKeepsProcesses(s, MomUp, i);
    }
    TwoChanges(s, m, s', c, l1, l1.(fork := Some(f.(pc := Awaiting))));
  }

  lemma TakerTakesKeeps(s: State)
    requires Inv(s) && Enabled(s, TakerTakes)
    ensures Inv(Apply(s, TakerTakes))
  {
    hide Inv, Changes, Frame, LocalOf, LocalOk, Pull, Post;
    var i := Oldest(s.queues[CineUp], CINEMA_REQUEST);
    var c, l, env := MainOwner(s, CineUp, i);
    Ids(s, c);
    CineUpType(c, l, env);
    TakerTakesLocal(c, l, env);
    var note := Stamp(ADMIN, Blank(Accepted, 0, env.body.tag).(clientId := c));
    MoveChanges(s, CineUp, i, AdminUp, ADMIN, note);
    var m := Post(Pull(s, CineUp, i), AdminUp, ADMIN, note);
    var l1 := l.(main := Some(Spot(AdminUp, Envelope(ADMIN, note))));
    LookAfter(s, m, c, l1);
    SameProcesses(s, CineUp, i, AdminUp, ADMIN, note);
    RegisteringChanges(m, c);
    var s' := m.(taker := Registering(c));
    assert Apply(s, TakerTakes) == s' by {
      ProcessesLast(s, CineUp, i, AdminUp, ADMIN, note);
      PullKeepsProcesses(s, CineUp, i);
    }
    TwoChanges(s, m, s', c, l1, l1.(registering := true));
  }

  lemma AdminForksKeeps(s: State)
    requires Inv(s) && Enabled(s, AdminForks)
    ensures Inv(Apply(s, AdminForks))
  {
    hide Inv, Changes, Frame, LocalOf, LocalOk, Pull, Post;
    var i := Oldest(s.queues[AdminUp], ADMIN);
    var c, l := Owner(s, AdminUp, i);
    var env := s.queues[AdminUp][i];
    Ids(s, c);
    var m, s' := Pull(s, AdminUp, i), Post(Pull(s, AdminUp, i), Pool, 1, env.body);
    PullChanges(s, AdminUp, i, c);
    PullKeepsProcesses(s, AdminUp, i);
    PostChanges(m, Pool, 1, env.body);
    if env.body.tag.notice {
      AdminForksNotice(c, l, env);
      LookAfter(s, m, c, l.(notice := None));
      TwoChanges(s, m, s', c, l.(notice := None), l.(notice := Some(Spot(Pool, Envelope(1, env.body)))));
    } else {
      AdminForksLocal(c, l, env);
      LookAfter(s, m, c, l.(main := None));
      TwoChanges(s, m, s', c, l.(main := None), l.(main := Some(Spot(Pool, Envelope(1, env.body)))));
    }
  }

  lemma RegisterEndsKeeps(s: State, i: nat, user: int, c: int, l: Local)
    requires Inv(s) && Enabled(s, HandlerEnds(i, user)) && s.queues[Pool][i].body.choice.Accepted?
    requires c in s.clients && l == LocalOf(s, c) && l.main == Some(Spot(Pool, s.queues[Pool][i]))
    ensures Inv(Apply(s, HandlerEnds(i, user)))
  {
    hide Inv, Changes, Frame, LocalOf, LocalOk, Pull, Post, Grant, Apply;
    Ids(s, c);
    Look(s, c);
    var env := s.queues[Pool][i];
    PoolNote(c, l, env);
    RegisteredLocal(c, l, env, user);
    var note := Stamp(c, Note(0, c, Accepted, user, env.body.tag));
    MoveChanges(s, Pool, i, AdminDown, c, note);
    var m := Post(Pull(s, Pool, i), AdminDown, c, note);
    var l1 := l.(main := Some(Spot(AdminDown, Envelope(c, note))));
    LookAfter(s, m, c, l1);
    SameProcesses(s, Pool, i, AdminDown, c, note);
    GrantChanges(m, c, user);
    var s' := Grant(m, c, user);
    assert Apply(s, HandlerEnds(i, user)) == s' by { RegisterEndsEffect(s, i, user, c, note); }
    TwoChanges(s, m, s', c, l1, Knowing(l1, user));
  }

  lemma GrantedIds(s: State, c: int, user: int)
    ensures Grant(s, c, user).issued == s.issued + {user}
    ensures Grant(s, c, user).users == if c in s.users then s.users else s.users[c := user]
    ensures Grant(s, c, user).again == if c in s.users then s.again[c := user] else s.again
  {
  }

  lemma RegisterEndsEffect(s: State, i: nat, user: int, c: int, note: Note)
    requires Enabled(s, HandlerEnds(i, user)) && s.queues[Pool][i].body.choice.Accepted?
    requires s.queues[Pool][i].body.tag.client == s.queues[Pool][i].body.clientId == c
    requires c != UNDEFINED && note == Stamp(c, Note(0, c, Accepted, user, s.queues[Pool][i].body.tag))
    ensures Apply(s, HandlerEnds(i, user)) == Grant(Post(Pull(s, Pool, i), AdminDown, c, note), c, user)
  {
    HandlerEndsStep(s, HandlerEnds(i, user));
    hide Pull, Post, Stamp, Apply, Enabled, Grant;
    ProcessesLast(s, Pool, i, AdminDown, c, note);
    PullKeepsProcesses(s, Pool, i);
    SameProcesses(s, Pool, i, AdminDown, c, note);
    GrantedIds(Pull(s, Pool, i), c, user);
    GrantedIds(Post(Pull(s, Pool, i), AdminDown, c, note), c, user);
  }

  lemma RequestEndsKeeps(s: State, i: nat, user: int, c: int, l: Local)
    requires Inv(s) && Enabled(s, HandlerEnds(i, user)) && s.queues[Pool][i].body.choice.Request?
    requires c in s.clients && l == LocalOf(s, c) && l.main == Some(Spot(Pool, s.queues[Pool][i]))
    ensures Inv(Apply(s, HandlerEnds(i, user)))
  {
    hide Inv, Changes, Frame, LocalOf, LocalOk, Pull, Post;
    Ids(s, c);
    Look(s, c);
    var env := s.queues[Pool][i];
    PoolNote(c, l, env);
    AnsweredLocal(c, l, env);
    var u := l.user.value;
    var note := Stamp(u, Note(0, u, Response, 0, env.body.tag));
    MoveChanges(s, Pool, i, AdminDown, u, note);
    var s' := Post(Pull(s, Pool, i), AdminDown, u, note);
    assert Apply(s, HandlerEnds(i, user)) == s';
    ChangeKeeps(s, s', c, l.(main := Some(Spot(AdminDown, Envelope(u, note)))));
  }

  lemma HandlerEndsKeeps(s: State, i: nat, user: int)
    requires Inv(s) && Enabled(s, HandlerEnds(i, user))
    ensures Inv(Apply(s, HandlerEnds(i, user)))
  {
    hide Inv, Changes, Frame, LocalOf, LocalOk, Pull, Post;
    var c, l := Owner(s, Pool, i);
    var env := s.queues[Pool][i];
    Ids(s, c);
    if env.body.tag.notice {
      NoticeMeansLeft(c, l);
      NoticeDone(c, l);
      PullChanges(s, Pool, i, c);
      ChangeKeeps(s, Pull(s, Pool, i), c, l.(notice := None));
    } else {
      PoolNote(c, l, env);
      if l.client.choice.Connect? {
        RegisterEndsKeeps(s, i, user, c, l);
      } else {
        RequestEndsKeeps(s, i, user, c, l);
      }
    }
  }

  lemma TakerConfirmsKeeps(s: State)
    requires Inv(s) && Enabled(s, TakerConfirms)
    ensures Inv(Apply(s, TakerConfirms))
  {
    hide Inv, Changes, Frame, LocalOf, LocalOk, Pull, Post;
    var token := s.taker.token;
    var i := Oldest(s.queues[AdminDown], token);
    var c, l, env := MainOwner(s, AdminDown, i);
    Ids(s, token);
    Ids(s, c);
    Look(s, c);
    AdminDownType(c, l, env);
    assert c == token;
    TakerConfirmsLocal(c, l, env);
    var note := Stamp(c, Blank(Accepted, env.body.id, env.body.tag));
    MoveChanges(s, AdminDown, i, CineDown, c, note);
    var m := Post(Pull(s, AdminDown, i), CineDown, c, note);
    var l1 := l.(main := Some(Spot(CineDown, Envelope(c, note))));
    LookAfter(s, m, c, l1);
    SameProcesses(s, AdminDown, i, CineDown, c, note);
    var s' := m.(taker := Spawning(c, env.body.id));
    assert Apply(s, TakerConfirms) == s' by {
      ProcessesLast(s, AdminDown, i, CineDown, c, note);
      PullKeepsProcesses(s, AdminDown, i);
    }
    if l.client.loggedIn {
      SpareSpawningChanges(m, c);
    } else {
      SpawningChanges(m, c);
    }
    TwoChanges(s, m, s', c, l1, l1.(registering := false, spawning := !l.client.loggedIn));
  }

  lemma TakerSpawnsKeeps(s: State)
    requires Inv(s) && Enabled(s, TakerSpawns)
    ensures Inv(Apply(s, TakerSpawns))
  {
    hide Inv, Changes, Frame, LocalOf, LocalOk;
    var c := s.taker.token;
    Ids(s, c);
    Look(s, c);
    var l := LocalOf(s, c);
    if c in s.again && s.again[c] == s.taker.user {
      SpareSpawnedChanges(s, c);
      ChangeKeeps(s, s.(listeners := s.listeners[s.again[c] := Listening], taker := Accepting), c, l);
      return;
    }
    SpawnsLocal(c, l);
    ListenerChanges(s, c, Listening);
    var m := s.(listeners := s.listeners[s.users[c] := Listening]);
    LookAfter(s, m, c, l.(listener := Some(Listening)));
    SpawnedChanges(m, c);
    TwoChanges(s, m, m.(taker := Accepting), c, LocalOf(m, c), LocalOf(m, c).(spawning := false));
  }

  /** The listener that takes a message of type `u` serves the message's owner. */
  lemma ListenerOf(s: State, u: int) returns (i: nat, c: int, l: Local, env: Envelope<Note>)
    requires Inv(s) && Enabled(s, ListenerTakes(u))
    ensures i == Oldest(s.queues[CineUp], u) && i < |s.queues[CineUp]| && env == s.queues[CineUp][i]
    ensures c == env.body.tag.client && !env.body.tag.notice && c in s.clients && l == LocalOf(s, c)
    ensures LocalOk(c, l) && l.main == Some(Spot(CineUp, env)) && l.notice == None
    ensures c in s.users && s.users[c] == u && l.user == Some(u) && u > 2 && l.listener == Some(Listening)
    ensures !l.client.choice.Connect? && env.body.choice == l.client.choice
  {
    hide Inv, LocalOf, LocalOk;
    i := Oldest(s.queues[CineUp], u);
    c, l, env := MainOwner(s, CineUp, i);
    CineUpType(c, l, env);
    Look(s, c);
    Ids(s, c);
    if u == CINEMA_REQUEST {
      ListenersAreIssued(s, u);
      assert false;
    }
  }

  lemma ListenersAreIssued(s: State, u: int)
    requires Inv(s) && u in s.listeners
    ensures u > 2
  {
  }

  lemma AsksEffect(s: State, u: int, i: nat, env: Envelope<Note>, note: Note)
    requires Enabled(s, ListenerTakes(u)) && i == Oldest(s.queues[CineUp], u) && env == s.queues[CineUp][i]
    requires env.body.choice.Request? && note == Stamp(ADMIN, env.body.(clientId := u))
    ensures var m := Post(Pull(s, CineUp, i), AdminUp, ADMIN, note);
            Apply(s, ListenerTakes(u)) == m.(listeners := m.listeners[u := AwaitingAdmin])
  {
    ListenerTakesStep(s, ListenerTakes(u));
    hide Pull, Post, Stamp, Apply, Enabled;
    ProcessesLast(s, CineUp, i, AdminUp, ADMIN, note);
    PullKeepsProcesses(s, CineUp, i);
  }

  lemma ListenerAsksKeeps(s: State, u: int)
    requires Inv(s) && Enabled(s, ListenerTakes(u)) && Typed(s, CineUp, u).choice.Request?
    ensures Inv(Apply(s, ListenerTakes(u)))
  {
    hide Inv, Changes, Frame, LocalOf, LocalOk, Pull, Post, Apply;
    var i, c, l, env := ListenerOf(s, u);
    Ids(s, c);
    ListenerAsksLocal(c, l, env);
    var note := Stamp(ADMIN, env.body.(clientId := u));
    MoveChanges(s, CineUp, i, AdminUp, ADMIN, note);
    var m := Post(Pull(s, CineUp, i), AdminUp, ADMIN, note);
    var l1 := l.(main := Some(Spot(AdminUp, Envelope(ADMIN, note))));
    LookAfter(s, m, c, l1);
    SameProcesses(s, CineUp, i, AdminUp, ADMIN, note);
    ListenerChanges(m, c, AwaitingAdmin);
    var s' := m.(listeners := m.listeners[u := AwaitingAdmin]);
    assert Apply(s, ListenerTakes(u)) == s' by { AsksEffect(s, u, i, env, note); }
    TwoChanges(s, m, s', c, l1, l1.(listener := Some(AwaitingAdmin)));
  }

  lemma ListenerRefusesKeeps(s: State, u: int)
    requires Inv(s) && Enabled(s, ListenerTakes(u)) && Typed(s, CineUp, u).choice.Other?
    ensures Inv(Apply(s, ListenerTakes(u)))
  {
    hide Inv, Changes, Frame, LocalOf, LocalOk, Pull, Post;
    var i, c, l, env := ListenerOf(s, u);
    Ids(s, c);
    ListenerRefusesLocal(c, l, env);
    var note := Stamp(u, Blank(Invalid, 0, env.body.tag));
    MoveChanges(s, CineUp, i, CineDown, u, note);
    ChangeKeeps(s, Post(Pull(s, CineUp, i), CineDown, u, note), c, l.(main := Some(Spot(CineDown, Envelope(u, note)))));
  }

  lemma LeaveEffect(s: State, u: int, i: nat, env: Envelope<Note>)
    requires Enabled(s, ListenerTakes(u)) && i == Oldest(s.queues[CineUp], u) && env == s.queues[CineUp][i]
    requires env.body.choice.Leave?
    ensures var m := Pull(s, CineUp, i);
            var notice := Stamp(ADMIN, env.body.(clientId := u, tag := env.body.tag.(notice := true)));
            Apply(s, ListenerTakes(u))
            == Post(Post(m.(listeners := s.listeners[u := Leaving]), AdminUp, ADMIN, notice),
                    Hands, u, Blank(Leave, 0, env.body.tag))
  {
    hide Pull, Post;
  }

  /** An EXIT splits: a copy for the admin, and the answer in the listener's hands. */
  lemma ListenerTakesLeaveKeeps(s: State, u: int)
    requires Inv(s) && Enabled(s, ListenerTakes(u)) && Typed(s, CineUp, u).choice.Leave?
    ensures Inv(Apply(s, ListenerTakes(u)))
  {
    hide Inv, Changes, Frame, LocalOf, LocalOk, Pull, Post, Apply;
    var i, c, l, env := ListenerOf(s, u);
    Ids(s, c);
    ListenerTakesLeaveLocal(c, l, env);
    var notice := Stamp(ADMIN, env.body.(clientId := u, tag := env.body.tag.(notice := true)));
    var answer := Blank(Leave, 0, env.body.tag);
    NoNoticePlaced(s, c);
    PullChanges(s, CineUp, i, c);
    var m1 := Pull(s, CineUp, i);
    PullKeepsProcesses(s, CineUp, i);
    LookAfter(s, m1, c, l.(main := None));
    ListenerChanges(m1, c, Leaving);
    var m2 := m1.(listeners := m1.listeners[u := Leaving]);
    ChangesTwice(s, m1, m2, c, l.(main := None), l.(main := None, listener := Some(Leaving)));
    LookAfter(s, m2, c, l.(main := None, listener := Some(Leaving)));
    PostChanges(m2, AdminUp, ADMIN, notice);
    var m3 := Post(m2, AdminUp, ADMIN, notice);
    var l3 := l.(main := None, listener := Some(Leaving), notice := Some(Spot(AdminUp, Envelope(ADMIN, notice))));
    ChangesTwice(s, m2, m3, c, l.(main := None, listener := Some(Leaving)), l3);
    LookAfter(s, m3, c, l3);
    PostChanges(m3, Hands, u, answer);
    assert Apply(s, ListenerTakes(u)) == Post(m3, Hands, u, answer) by { LeaveEffect(s, u, i, env); }
    TwoChanges(s, m3, Post(m3, Hands, u, answer), c, l3, l3.(main := Some(Spot(Hands, Envelope(u, answer)))));
  }

  lemma NoNoticePlaced(s: State, c: int)
    requires c in s.clients && LocalOf(s, c).notice == None
    ensures Token(c, true) !in s.place
  {
  }

  lemma ListenerTakesKeeps(s: State, u: int)
    requires Inv(s) && Enabled(s, ListenerTakes(u))
    ensures Inv(Apply(s, ListenerTakes(u)))
  {
    hide Inv, LocalOf, LocalOk, Apply;
    var i, c, l, env := ListenerOf(s, u);
    CineUpChoice(c, l, env);
    match env.body.choice
    case Request => ListenerAsksKeeps(s, u);
    case Leave => ListenerTakesLeaveKeeps(s, u);
    case _ => ListenerRefusesKeeps(s, u);
  }

  lemma CineUpChoice(c: int, l: Local, env: Envelope<Note>)
    requires LocalOk(c, l) && l.main == Some(Spot(CineUp, env)) && !l.client.choice.Connect?
    ensures l.client.choice.Request? || l.client.choice.Leave? || l.client.choice.Other?
  {
  }

  lemma ListenerAnswersKeeps(s: State, u: int)
    requires Inv(s) && Enabled(s, ListenerAnswers(u))
    ensures Inv(Apply(s, ListenerAnswers(u)))
  {
    hide Inv, Changes, Frame, LocalOf, LocalOk, Pull, Post;
    var i := Oldest(s.queues[AdminDown], u);
    var c, l, env := MainOwner(s, AdminDown, i);
    ListenersAreUsers(s, u);
    Ids(s, c);
    Look(s, c);
    AdminDownType(c, l, env);
    assert !l.registering && l.user == Some(u);
    ListenerAnswersLocal(c, l, env);
    var note := Stamp(u, env.body);
    MoveChanges(s, AdminDown, i, CineDown, u, note);
    var m := Post(Pull(s, AdminDown, i), CineDown, u, note);
    var l1 := l.(main := Some(Spot(CineDown, Envelope(u, note))));
    LookAfter(s, m, c, l1);
    SameProcesses(s, AdminDown, i, CineDown, u, note);
    ListenerChanges(m, c, Listening);
    var s' := m.(listeners := m.listeners[u := Listening]);
    assert Apply(s, ListenerAnswers(u)) == s' by {
      ProcessesLast(s, AdminDown, i, CineDown, u, note);
      PullKeepsProcesses(s, AdminDown, i);
    }
    TwoChanges(s, m, s', c, l1, l1.(listener := Some(Listening)));
  }

  lemma ListenersAreUsers(s: State, u: int)
    requires Inv(s) && u in s.listeners
    ensures u !in s.clients
  {
  }

  lemma ListenerLeavesKeeps(s: State, u: int)
    requires Inv(s) && Enabled(s, ListenerLeaves(u))
    ensures Inv(Apply(s, ListenerLeaves(u)))
  {
    hide Inv, Changes, Frame, LocalOf, LocalOk, Pull, Post;
    var i := Oldest(s.queues[Hands], u);
    var c, l, env := MainOwner(s, Hands, i);
    Ids(s, c);
    Look(s, c);
    HandsType(c, l, env);
    ListenerLeavesLocal(c, l, env);
    var note := Stamp(u, env.body);
    MoveChanges(s, Hands, i, CineDown, u, note);
    var m := Post(Pull(s, Hands, i), CineDown, u, note);
    var l1 := l.(main := Some(Spot(CineDown, Envelope(u, note))));
    LookAfter(s, m, c, l1);
    SameProcesses(s, Hands, i, CineDown, u, note);
    ListenerChanges(m, c, Finished);
    var s' := m.(listeners := m.listeners[u := Finished]);
    assert Apply(s, ListenerLeaves(u)) == s' by {
      ProcessesLast(s, Hands, i, CineDown, u, note);
      PullKeepsProcesses(s, Hands, i);
    }
    TwoChanges(s, m, s', c, l1, l1.(listener := Some(Finished)));
  }

  lemma CineNetDownKeeps(s: State)
    requires Inv(s) && Enabled(s, CineNetDown)
    ensures Inv(Apply(s, CineNetDown))
  {
    hide Inv, Changes, Frame, LocalOf, LocalOk, Pull, Post;
    var t := s.cineNet.reply;
    var i := Oldest(s.queues[CineDown], t);
    var c, l, env := MainOwner(s, CineDown, i);
    Ids(s, c);
    Look(s, c);
    ReturnType(c, l, CineDown, env);
    CineNetDownLocal(c, l, env);
    MoveChanges(s, CineDown, i, Downlink, 1, env.body);
    var m := Post(Pull(s, CineDown, i), Downlink, 1, env.body);
    var l1 := l.(main := Some(Spot(Downlink, Envelope(1, env.body))));
    LookAfter(s, m, c, l1);
    SameProcesses(s, CineDown, i, Downlink, 1, env.body);
    CineNetChanges(m, c, Free);
    var s' := m.(cineNet := Free);
    assert Apply(s, CineNetDown) == s' by {
      ProcessesLast(s, CineDown, i, Downlink, 1, env.body);
      PullKeepsProcesses(s, CineDown, i);
    }
    TwoChanges(s, m, s', c, l1, l1.(cineNet := Free));
  }

  lemma MomNetDownKeeps(s: State)
    requires Inv(s) && Enabled(s, MomNetDown)
    ensures Inv(Apply(s, MomNetDown))
  {
    hide Inv, Changes, Frame, LocalOf, LocalOk, Pull, Post;
    var c, l, env := MainOwner(s, Downlink, 0);
    Ids(s, c);
    Look(s, c);
    ReturnType(c, l, Downlink, env);
    MomNetDownLocal(c, l, env);
    var t, note := SendType(UNDEFINED, env.body), Stamp(UNDEFINED, env.body);
    MoveChanges(s, Downlink, 0, RelayDown, t, note);
    var m := Post(Pull(s, Downlink, 0), RelayDown, t, note);
    var l1 := l.(main := Some(Spot(RelayDown, Envelope(t, note))));
    LookAfter(s, m, c, l1);
    SameProcesses(s, Downlink, 0, RelayDown, t, note);
    OffWireChanges(m, c);
    var s' := m.(momBusy := false, wire := None);
    assert Apply(s, MomNetDown) == s' by {
      ProcessesLast(s, Downlink, 0, RelayDown, t, note);
      PullKeepsProcesses(s, Downlink, 0);
    }
    TwoChanges(s, m, s', c, l1, l1.(onWire := false, cineNet := Free));
  }

  /** The answer a MOM process waits for is about its client. */
  lemma AnswerOwner(s: State, c: int) returns (i: nat, l: Local, env: Envelope<Note>)
    requires Inv(s) && Enabled(s, ForkDown(c))
    ensures i == Oldest(s.queues[RelayDown], ReplyTypeOf(s.forks[c], c)) && i < |s.queues[RelayDown]|
    ensures env == s.queues[RelayDown][i] && env.body.tag.client == c && !env.body.tag.notice
    ensures c in s.clients && c > 2 && l == LocalOf(s, c) && LocalOk(c, l) && l.main == Some(Spot(RelayDown, env))
    ensures l.user.Some? ==> l.user.value > 2
    ensures l.fork == Some(s.forks[c]) && Frame(s) && !Again(l.client)
  {
    hide Inv, LocalOf, LocalOk, Frame;
    var d;
    i := Oldest(s.queues[RelayDown], ReplyTypeOf(s.forks[c], c));
    d, l, env := MainOwner(s, RelayDown, i);
    Ids(s, c);
    Ids(s, d);
    Look(s, c);
    Look(s, d);
    AwaitingRoute(c, LocalOf(s, c));
    ReturnType(d, l, RelayDown, env);
    assert d == c;
  }

  lemma ForkDownEffect(s: State, c: int, i: nat, env: Envelope<Note>, f: Fork)
    requires Enabled(s, ForkDown(c)) && i == Oldest(s.queues[RelayDown], ReplyTypeOf(s.forks[c], c))
    requires env == s.queues[RelayDown][i]
    requires f == Fork(if env.body.choice.Leave? then Ended else Serving,
                       if env.body.choice.Accepted? then env.body.id else s.forks[c].cinemaId)
    ensures var m := Post(Pull(s, RelayDown, i), MomDown, SendType(c, env.body), Stamp(c, env.body));
            Apply(s, ForkDown(c)) == m.(forks := m.forks[c := f])
  {
    hide Pull, Post;
    ProcessesLast(s, RelayDown, i, MomDown, SendType(c, env.body), Stamp(c, env.body));
    PullKeepsProcesses(s, RelayDown, i);
    SameProcesses(s, RelayDown, i, MomDown, SendType(c, env.body), Stamp(c, env.body));
  }

  lemma ForkDownKeeps(s: State, c: int)
    requires Inv(s) && Enabled(s, ForkDown(c))
    ensures Inv(Apply(s, ForkDown(c)))
  {
    hide Inv, Changes, Frame, LocalOf, LocalOk, Pull, Post, Apply;
    var f := s.forks[c];
    var i, l, env := AnswerOwner(s, c);
    ForkDownLocal(c, l, env, f);
    var f' := Fork(if env.body.choice.Leave? then Ended else Serving,
                   if env.body.choice.Accepted? then env.body.id else f.cinemaId);
    var note := Stamp(c, env.body);
    MoveChanges(s, RelayDown, i, MomDown, c, note);
    var m := Post(Pull(s, RelayDown, i), MomDown, c, note);
    var l1 := l.(main := Some(Spot(MomDown, Envelope(c, note))));
    LookAfter(s, m, c, l1);
    SameProcesses(s, RelayDown, i, MomDown, c, note);
    ForkChanges(m, c, f');
    ForkDownEffect(s, c, i, env, f');
    TwoChanges(s, m, m.(forks := m.forks[c := f']), c, l1, l1.(fork := Some(f')));
  }

  /** The type a MOM process waits for is its client's own. */
  lemma AwaitingRoute(c: int, l: Local)
    requires c > 2 && (l.user.Some? ==> l.user.value > 2)
    requires LocalOk(c, l) && l.fork.Some? && l.fork.value.pc.Awaiting?
    ensures (ReplyTypeOf(l.fork.value, c) == c && !Again(l.client)) || l.user == Some(ReplyTypeOf(l.fork.value, c))
  {
  }

  lemma ReceivesEffect(s: State, c: int)
    requires Enabled(s, ClientReceives(c))
    ensures var i, client := Oldest(s.queues[MomDown], c), s.clients[c];
            var m, choice := Pull(s, MomDown, i), s.queues[MomDown][i].body.choice;
            Apply(s, ClientReceives(c)) == m.(clients := m.clients[c := client.(
              pc := if choice.Leave? then Closed else Home,
              loggedIn := client.loggedIn || (client.choice.Connect? && choice.Accepted?))])
  {
    hide Channel, Oldest, Without;
  }

  lemma ClientReceivesKeeps(s: State, c: int)
    requires Inv(s) && Enabled(s, ClientReceives(c))
    ensures Inv(Apply(s, ClientReceives(c)))
  {
    hide Inv, Changes, Frame, LocalOf, LocalOk, Pull, Post, Apply;
    var i := Oldest(s.queues[MomDown], c);
    var d, l, env := MainOwner(s, MomDown, i);
    Ids(s, c);
    Look(s, d);
    ReturnType(d, l, MomDown, env);
    assert d == c;
    ReceivesLocal(c, l, env);
    PullChanges(s, MomDown, i, c);
    PullKeepsProcesses(s, MomDown, i);
    var m := Pull(s, MomDown, i);
    LookAfter(s, m, c, l.(main := None));
    var client := l.client.(pc := if env.body.choice.Leave? then Closed else Home,
                            loggedIn := l.client.loggedIn || (l.client.choice.Connect? && env.body.choice.Accepted?));
    ClientChanges(m, c, client);
    var s' := m.(clients := m.clients[c := client]);
    assert Apply(s, ClientReceives(c)) == s' by { ReceivesEffect(s, c); }
    TwoChanges(s, m, s', c, l.(main := None), l.(main := None, client := client));
  }

  lemma StepKeepsInv(s: State, a: Action)
    requires Inv(s) && Enabled(s, a)
    ensures Inv(Apply(s, a))
  {
    hide Inv, Enabled, Apply;
    match a
    case ClientSends(c, choice) => ClientSendsKeeps(s, c, choice);
    case MainAccepts => MainAcceptsKeeps(s);
    case MainForks => MainForksKeeps(s);
    case ForkUp(c) => ForkUpKeeps(s, c);
    case ForkDown(c) => ForkDownKeeps(s, c);
    case MomNetUp => MomNetUpKeeps(s);
    case MomNetDown => MomNetDownKeeps(s);
    case CineNetUp => CineNetUpKeeps(s);
    case CineNetDown => CineNetDownKeeps(s);
    case TakerTakes => TakerTakesKeeps(s);
    case TakerConfirms => TakerConfirmsKeeps(s);
    case TakerSpawns => TakerSpawnsKeeps(s);
    case ListenerTakes(u) => ListenerTakesKeeps(s, u);
    case ListenerAnswers(u) => ListenerAnswersKeeps(s, u);
    case ListenerLeaves(u) => ListenerLeavesKeeps(s, u);
    case AdminForks => AdminForksKeeps(s);
    case HandlerEnds(i, user) => HandlerEndsKeeps(s, i, user);
    case ClientReceives(c) => ClientReceivesKeeps(s, c);
  }

  lemma {:induction false} RunKeepsInv(states: seq<State>, acts: seq<Action>, i: nat)
    requires Run(states, acts) && i < |states|
    ensures Inv(states[i])
  {
    hide Inv, Apply, Enabled;
    if i == 0 {
      InitialInv(states[0]);
    } else {
      RunKeepsInv(states, acts, i - 1);
      StepKeepsInv(states[i - 1], acts[i - 1]);
    }
  }
}
