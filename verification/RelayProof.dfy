/**
 Every step of every process of the relay keeps the invariant.
 */
module RelayProof {
  import opened TypedQueue
  import opened Wrappers
  import opened Relay
  import opened RelayInvariant

  /** The owner of the message at an index of a queue, and what the invariant says of it. */
  lemma Owner(s: State, n: Node, i: nat) returns (c: int, l: Local)
    requires Inv(s) && i < |s.queues[n]|
    ensures c == s.queues[n][i].body.tag.client && c in s.clients && l == LocalOf(s, c) && LocalOk(c, l)
    ensures c > 2 && (c in s.users ==> s.users[c] > 2 && l.user == Some(s.users[c]))
    ensures !s.queues[n][i].body.tag.notice ==> l.main == Some(Spot(n, s.queues[n][i]))
    ensures s.queues[n][i].body.tag.notice ==> l.notice == Some(Spot(n, s.queues[n][i]))
  {
    hide LocalOk;
    Found(s, n, i);
    c := s.queues[n][i].body.tag.client;
    l := LocalOf(s, c);
  }

  /** The part of the invariant that is not about single clients. */
  ghost predicate Frame(s: State) {
    QueuesAgree(s) && IdsOk(s) && Scoped(s)
  }

  /** `s'` differs from `s` for one client only, for whom it looks like `l`. */
  ghost predicate Changes(s: State, s': State, c: int, l: Local) {
    && c in s.clients && s'.clients.Keys == s.clients.Keys
    && forall d :: d in s.clients ==> LocalOf(s', d) == if d == c then l else LocalOf(s, d)
  }

  lemma ChangesTwice(s: State, m: State, s': State, c: int, l: Local, l': Local)
    requires Changes(s, m, c, l) && Changes(m, s', c, l')
    ensures Changes(s, s', c, l')
  {
    hide LocalOf;
  }

  lemma ChangeKeeps(s: State, s': State, c: int, l: Local)
    requires Inv(s) && Frame(s') && Changes(s, s', c, l) && LocalOk(c, l)
    ensures Inv(s')
  {
    hide QueuesAgree, IdsOk, Scoped, LocalOk, LocalOf;
  }

  /** Agreement is about queues and places only. */
  lemma QueuesOnly(s: State, s': State)
    requires QueuesAgree(s) && s'.queues == s.queues && s'.place == s.place
    ensures QueuesAgree(s')
  {
  }

  // ----- the elementary changes a step is made of -----

  lemma UnplacedChanges(s: State, s': State, c: int, notice: bool)
    requires c in s.clients && s' == s.(queues := s'.queues, place := s.place - {Token(c, notice)})
    ensures Changes(s, s', c, if notice then LocalOf(s, c).(notice := None) else LocalOf(s, c).(main := None))
    ensures IdsOk(s) ==> IdsOk(s')
    ensures Scoped(s) ==> Scoped(s')
  {
  }

  lemma PlacedChanges(s: State, s': State, c: int, notice: bool, spot: Spot)
    requires c in s.clients && s' == s.(queues := s'.queues, place := s.place[Token(c, notice) := spot])
    ensures Changes(s, s', c, if notice then LocalOf(s, c).(notice := Some(spot))
                              else LocalOf(s, c).(main := Some(spot)))
    ensures IdsOk(s) ==> IdsOk(s')
    ensures Scoped(s) ==> Scoped(s')
  {
  }

  lemma PullChanges(s: State, from: Node, i: nat, c: int)
    requires Frame(s) && i < |s.queues[from]| && c == s.queues[from][i].body.tag.client && c in s.clients
    ensures var s' := Pull(s, from, i);
            && Frame(s') && s'.place == s.place - {TokenOf(s.queues[from][i].body)}
            && Changes(s, s', c, if s.queues[from][i].body.tag.notice then LocalOf(s, c).(notice := None)
                                 else LocalOf(s, c).(main := None))
  {
    hide QueuesAgree, Without, IdsOk, Scoped, LocalOf, Changes;
    PullAgrees(s, from, i);
    UnplacedChanges(s, Pull(s, from, i), c, s.queues[from][i].body.tag.notice);
  }

  lemma PostChanges(s: State, to: Node, t: int, note: Note)
    requires Frame(s) && note.tag.client in s.clients && TokenOf(note) !in s.place
    ensures var s', c := Post(s, to, t, note), note.tag.client;
            var spot := Spot(to, Envelope(t, note));
            && Frame(s') && s'.place == s.place[TokenOf(note) := spot]
            && Changes(s, s', c, if note.tag.notice then LocalOf(s, c).(notice := Some(spot))
                                 else LocalOf(s, c).(main := Some(spot)))
  {
    hide QueuesAgree, IdsOk, Scoped, LocalOf, Changes;
    PostAgrees(s, to, t, note);
    PlacedChanges(s, Post(s, to, t, note), note.tag.client, note.tag.notice, Spot(to, Envelope(t, note)));
  }

  /** A client's message moves. */
  lemma MoveChanges(s: State, from: Node, i: nat, to: Node, t: int, note: Note)
    requires Frame(s) && i < |s.queues[from]| && TokenOf(note) == TokenOf(s.queues[from][i].body)
    requires note.tag.client in s.clients && !note.tag.notice
    ensures var s' := Post(Pull(s, from, i), to, t, note);
            && Frame(s')
            && Changes(s, s', note.tag.client, LocalOf(s, note.tag.client).(main := Some(Spot(to, Envelope(t, note)))))
  {
    hide Frame, LocalOf, Pull, Post;
    var m, c := Pull(s, from, i), note.tag.client;
    PullChanges(s, from, i, c);
    PostChanges(m, to, t, note);
    ChangesTwice(s, m, Post(m, to, t, note), c, LocalOf(m, c), LocalOf(Post(m, to, t, note), c));
  }

  lemma ForkChanges(s: State, c: int, f: Fork)
    requires Frame(s) && c in s.clients
    ensures var s' := s.(forks := s.forks[c := f]);
            Frame(s') && Changes(s, s', c, LocalOf(s, c).(fork := Some(f)))
  {
    hide QueuesAgree;
    QueuesOnly(s, s.(forks := s.forks[c := f]));
  }

  lemma ClientChanges(s: State, c: int, client: Client)
    requires Frame(s) && c in s.clients
    ensures var s' := s.(clients := s.clients[c := client]);
            Frame(s') && Changes(s, s', c, LocalOf(s, c).(client := client))
  {
    hide QueuesAgree;
    QueuesOnly(s, s.(clients := s.clients[c := client]));
  }

  lemma ForkingChanges(s: State, c: int)
    requires Frame(s) && c in s.clients && s.main.Connecting?
    ensures var s' := s.(main := Forking(c)); Frame(s') && Changes(s, s', c, LocalOf(s, c).(forking := true))
  {
    hide QueuesAgree;
    QueuesOnly(s, s.(main := Forking(c)));
  }

  lemma ForkedChanges(s: State)
    requires Frame(s) && s.main.Forking?
    ensures var s' := s.(main := Connecting);
            && Frame(s') && s.main.client in s.clients
            && Changes(s, s', s.main.client, LocalOf(s, s.main.client).(forking := false))
  {
    hide QueuesAgree;
    QueuesOnly(s, s.(main := Connecting));
  }

  lemma RegisteringChanges(s: State, c: int)
    requires Frame(s) && c in s.clients && s.taker.Accepting?
    ensures var s' := s.(taker := Registering(c)); Frame(s') && Changes(s, s', c, LocalOf(s, c).(registering := true))
  {
    hide QueuesAgree;
    QueuesOnly(s, s.(taker := Registering(c)));
  }

  lemma SpawningChanges(s: State, c: int)
    requires Frame(s) && c in s.clients && c in s.users && s.taker == Registering(c)
    ensures var s' := s.(taker := Spawning(c, s.users[c]));
            Frame(s') && Changes(s, s', c, LocalOf(s, c).(registering := false, spawning := true))
  {
    hide QueuesAgree;
    QueuesOnly(s, s.(taker := Spawning(c, s.users[c])));
  }

  /** The listener of a second login is nobody's. */
  lemma SpareSpawningChanges(s: State, c: int)
    requires Frame(s) && c in s.clients && c in s.again && s.taker == Registering(c)
    ensures var s' := s.(taker := Spawning(c, s.again[c]));
            Frame(s') && Changes(s, s', c, LocalOf(s, c).(registering := false))
  {
    hide QueuesAgree;
    QueuesOnly(s, s.(taker := Spawning(c, s.again[c])));
  }

  lemma SpareSpawnedChanges(s: State, c: int)
    requires Frame(s) && c in s.clients && c in s.again && s.taker == Spawning(c, s.again[c])
    ensures var s' := s.(listeners := s.listeners[s.again[c] := Listening], taker := Accepting);
            Frame(s') && Changes(s, s', c, LocalOf(s, c))
  {
    hide QueuesAgree;
    QueuesOnly(s, s.(listeners := s.listeners[s.again[c] := Listening], taker := Accepting));
  }

  lemma ListenerChanges(s: State, c: int, pc: ListenerPc)
    requires Frame(s) && c in s.clients && c in s.users
    ensures var s' := s.(listeners := s.listeners[s.users[c] := pc]);
            Frame(s') && Changes(s, s', c, LocalOf(s, c).(listener := Some(pc)))
  {
    hide QueuesAgree;
    QueuesOnly(s, s.(listeners := s.listeners[s.users[c] := pc]));
  }

  lemma SpawnedChanges(s: State, c: int)
    requires Frame(s) && c in s.clients && c in s.users && s.taker == Spawning(c, s.users[c])
    ensures var s' := s.(taker := Accepting);
            Frame(s') && Changes(s, s', c, LocalOf(s, c).(spawning := false))
  {
    hide QueuesAgree;
    QueuesOnly(s, s.(taker := Accepting));
  }

  lemma NewIdApart(clients: set<int>, issued: set<int>, users: map<int, int>, again: map<int, int>, c: int, user: int)
    requires IdsApart(clients, issued, users, again) && user > 2 && user !in clients && user !in issued
    ensures c !in users ==> IdsApart(clients, issued + {user}, users[c := user], again)
    ensures c !in again ==> IdsApart(clients, issued + {user}, users, again[c := user])
  {
  }

  lemma GrantIds(s: State, c: int, user: int)
    requires IdsOk(s) && c in s.clients && FreshId(s, user) && (c in s.users ==> c !in s.again)
    ensures IdsOk(Grant(s, c, user))
  {
    hide IdsApart;
    NewIdApart(s.clients.Keys, s.issued, s.users, s.again, c, user);
  }

  lemma GrantSpawns(s: State, c: int, user: int, d: int, u: int)
    requires SpawnsFor(s, d, u) && c in s.clients && (c in s.users ==> c !in s.again)
    ensures SpawnsFor(Grant(s, c, user), d, u)
  {
  }

  lemma GrantScoped(s: State, c: int, user: int)
    requires Scoped(s) && c in s.clients && (c in s.users ==> c !in s.again)
    ensures Scoped(Grant(s, c, user))
  {
    hide SpawnsFor;
    if s.taker.Spawning? {
      GrantSpawns(s, c, user, s.taker.token, s.taker.user);
    }
  }

  /** A client's view after it was given a cinema id. */
  function Knowing(l: Local, user: int): Local {
    if l.user.Some? then l.(again := Some(user)) else l.(user := Some(user), listener := None, spawning := false)
  }

  lemma FirstLocal(s: State, c: int, user: int, d: int)
    requires IdsOk(s) && Scoped(s) && c in s.clients && d in s.clients && FreshId(s, user) && c !in s.users
    ensures var s' := s.(issued := s.issued + {user}, users := s.users[c := user]);
            LocalOf(s', d) == if d == c then LocalOf(s, d).(user := Some(user), listener := None, spawning := false)
                              else LocalOf(s, d)
  {
  }

  lemma AgainLocal(s: State, c: int, user: int, d: int)
    requires c in s.clients && d in s.clients
    ensures var s' := s.(issued := s.issued + {user}, again := s.again[c := user]);
            LocalOf(s', d) == if d == c then LocalOf(s, d).(again := Some(user)) else LocalOf(s, d)
  {
  }

  lemma GrantLocal(s: State, c: int, user: int, d: int)
    requires IdsOk(s) && Scoped(s) && c in s.clients && d in s.clients && FreshId(s, user)
    ensures d in Grant(s, c, user).clients
    ensures LocalOf(Grant(s, c, user), d) == if d == c then Knowing(LocalOf(s, c), user) else LocalOf(s, d)
  {
    UserIsKnown(s, c);
    hide IdsOk, Scoped, LocalOf;
    if c in s.users {
      AgainLocal(s, c, user, d);
    } else {
      FirstLocal(s, c, user, d);
    }
  }

  lemma UserIsKnown(s: State, c: int)
    requires c in s.clients
    ensures LocalOf(s, c).user.Some? <==> c in s.users
  {
  }

  lemma GrantLocals(s: State, c: int, user: int)
    requires IdsOk(s) && Scoped(s) && c in s.clients && FreshId(s, user)
    ensures Changes(s, Grant(s, c, user), c, Knowing(LocalOf(s, c), user))
  {
    hide IdsOk, Scoped, LocalOf, Knowing;
    forall d | d in s.clients
      ensures LocalOf(Grant(s, c, user), d) == if d == c then Knowing(LocalOf(s, c), user) else LocalOf(s, d)
    {
      GrantLocal(s, c, user, d);
    }
  }

  lemma GrantChanges(s: State, c: int, user: int)
    requires Frame(s) && c in s.clients && FreshId(s, user) && (c in s.users ==> c !in s.again)
    ensures Frame(Grant(s, c, user)) && Changes(s, Grant(s, c, user), c, Knowing(LocalOf(s, c), user))
  {
    hide QueuesAgree, IdsOk, Scoped, Grant, Changes, Knowing, LocalOf;
    QueuesOnly(s, Grant(s, c, user));
    GrantIds(s, c, user);
    GrantScoped(s, c, user);
    GrantLocals(s, c, user);
  }

  lemma WireChanges(s: State, c: int)
    requires Frame(s) && c in s.clients && s.wire == None
    ensures var s' := s.(momBusy := true, wire := Some(c));
            Frame(s') && Changes(s, s', c, LocalOf(s, c).(onWire := true, cineNet := Free))
  {
    hide QueuesAgree;
    QueuesOnly(s, s.(momBusy := true, wire := Some(c)));
  }

  lemma OffWireChanges(s: State, c: int)
    requires Frame(s) && c in s.clients && s.wire == Some(c) && s.cineNet == Free
    ensures var s' := s.(momBusy := false, wire := None);
            Frame(s') && Changes(s, s', c, LocalOf(s, c).(onWire := false, cineNet := Free))
  {
    hide QueuesAgree;
    QueuesOnly(s, s.(momBusy := false, wire := None));
  }

  lemma CineNetChanges(s: State, c: int, net: NetPc)
    requires Frame(s) && c in s.clients && s.wire == Some(c)
    ensures var s' := s.(cineNet := net); Frame(s') && Changes(s, s', c, LocalOf(s, c).(cineNet := net))
  {
    hide QueuesAgree;
    QueuesOnly(s, s.(cineNet := net));
  }
}
