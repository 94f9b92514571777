/**
 The handlers the admin starts for the requests the relay brings: their order, for each user.
 */
module RelayHandlers {
  import opened TypedQueue
  import opened Wrappers
  import opened Relay
  import opened RelayInvariant
  import opened RelayLocal
  import opened RelayProof
  import opened RelaySteps
  import opened RelayEffects

  /** The id a message at the admin is handled under, and that it is the client's only one there. */
  lemma AdminNote(s: State, n: Node, k: nat) returns (c: int, l: Local)
    requires Inv(s) && (n.AdminUp? || n.Pool?) && k < |s.queues[n]|
    ensures c == s.queues[n][k].body.tag.client && c in s.clients && l == LocalOf(s, c) && LocalOk(c, l)
    ensures s.queues[n][k].body.clientId == c || l.user == Some(s.queues[n][k].body.clientId)
    ensures !s.queues[n][k].body.tag.notice ==> l.notice == None && l.main == Some(Spot(n, s.queues[n][k]))
    ensures s.queues[n][k].body.tag.notice ==> s.queues[n][k].body.choice.Leave?
                                               && l.user == Some(s.queues[n][k].body.clientId)
                                               && l.notice == Some(Spot(n, s.queues[n][k]))
    ensures s.queues[n][k].body.choice.Leave? ==> s.queues[n][k].body.tag.notice
  {
    hide Inv, LocalOk, LocalOf;
    c, l := Owner(s, n, k);
    Ids(s, c);
    if s.queues[n][k].body.tag.notice {
      NoticeMeansLeft(c, l);
    } else {
      WithAdminNote(c, l, n, s.queues[n][k]);
    }
  }

  lemma WithAdminNote(c: int, l: Local, n: Node, env: Envelope<Note>)
    requires LocalOk(c, l) && (n.AdminUp? || n.Pool?) && l.main == Some(Spot(n, env))
    ensures l.notice == None && (env.body.clientId == c || l.user == Some(env.body.clientId))
    ensures !env.body.choice.Leave?
  {
  }

  /** An id belongs to one client, be it a token or a cinema id. */
  lemma IdsSeparate(s: State, c: int, d: int, id: int)
    requires Inv(s) && c in s.clients && d in s.clients
    requires id == c || LocalOf(s, c).user == Some(id)
    requires id == d || LocalOf(s, d).user == Some(id)
    ensures c == d
  {
    hide Inv, LocalOk, LocalOf, Frame;
    Ids(s, c);
    Ids(s, d);
    Look(s, c);
    Look(s, d);
  }

  /** Two messages at the admin are for different users. */
  lemma AdminIdsDiffer(s: State, n: Node, k: nat, n': Node, k': nat)
    requires Inv(s) && (n.AdminUp? || n.Pool?) && (n'.AdminUp? || n'.Pool?)
    requires k < |s.queues[n]| && k' < |s.queues[n']| && (n != n' || k != k')
    ensures s.queues[n][k].body.clientId != s.queues[n'][k'].body.clientId
  {
    hide Inv, LocalOk, LocalOf;
    var c, l := AdminNote(s, n, k);
    var c', l' := AdminNote(s, n', k');
    TokensDiffer(s, n, k, n', k');
    if s.queues[n][k].body.clientId == s.queues[n'][k'].body.clientId {
      IdsSeparate(s, c, c', s.queues[n][k].body.clientId);
    }
  }

  lemma TokensDiffer(s: State, n: Node, k: nat, n': Node, k': nat)
    requires Inv(s) && k < |s.queues[n]| && k' < |s.queues[n']| && (n != n' || k != k')
    ensures TokenOf(s.queues[n][k].body) != TokenOf(s.queues[n'][k'].body)
  {
    hide LocalOk, IdsOk, Scoped;
    assert QueueAgrees(s.queues[n], n, s.place) && QueueAgrees(s.queues[n'], n', s.place);
  }

  /** No two handlers of one user run at the same time, and none waits to be started beside a running one. */
  lemma HandlersDoNotOverlap(states: seq<State>, acts: seq<Action>, i: nat, n: Node, k: nat, n': Node, k': nat)
    requires Run(states, acts) && i < |states|
    requires (n.AdminUp? || n.Pool?) && (n'.AdminUp? || n'.Pool?)
    requires k < |states[i].queues[n]| && k' < |states[i].queues[n']| && (n != n' || k != k')
    ensures states[i].queues[n][k].body.clientId != states[i].queues[n'][k'].body.clientId
  {
    hide Run, Inv;
    RunKeepsInv(states, acts, i);
    AdminIdsDiffer(states[i], n, k, n', k');
  }

  /** The listener of the client with cinema id `u` has taken an EXIT and the admin has started its handler. */
  ghost predicate Gone(s: State, u: int) {
    && (exists c :: c in s.users && s.users[c] == u)
    && u in s.listeners && (s.listeners[u].Leaving? || s.listeners[u].Finished?) && u !in s.clients
    && forall k :: 0 <= k < |s.queues[AdminUp]| ==> s.queues[AdminUp][k].body.clientId != u
  }

  lemma ExitMakesGone(s: State, k: nat)
    requires Inv(s) && Enabled(s, AdminForks) && k == Oldest(s.queues[AdminUp], ADMIN)
    requires s.queues[AdminUp][k].body.choice.Leave?
    ensures Gone(Apply(s, AdminForks), s.queues[AdminUp][k].body.clientId)
  {
    hide Inv, LocalOk, LocalOf, Frame, Channel, Oldest, Without, Apply;
    var c, l := AdminNote(s, AdminUp, k);
    NoticeListener(c, l);
    Look(s, c);
    Ids(s, c);
    var q := s.queues[AdminUp];
    var q' := Without(q, k);
    ForkTakesOne(s, k);
    forall j | 0 <= j < |q'| ensures q'[j].body.clientId != q[k].body.clientId {
      WithoutAt(q, k, j);
      AdminIdsDiffer(s, AdminUp, if j < k then j else j + 1, AdminUp, k);
    }
  }

  lemma ForkTakesOne(s: State, k: nat)
    requires Enabled(s, AdminForks) && k == Oldest(s.queues[AdminUp], ADMIN)
    ensures var s' := Apply(s, AdminForks);
            && s'.queues[AdminUp] == Without(s.queues[AdminUp], k)
            && s'.users == s.users && s'.listeners == s.listeners && s'.clients == s.clients
  {
    hide Channel, Oldest, Without, TokenOf;
  }

  lemma WithoutAt<T>(q: seq<T>, i: nat, j: nat)
    requires i < |q| && j < |Without(q, i)|
    ensures |Without(q, i)| == |q| - 1
    ensures Without(q, i)[j] == q[if j < i then j else j + 1]
  {
  }

  lemma NoticeListener(c: int, l: Local)
    requires LocalOk(c, l) && l.notice.Some?
    ensures l.user.Some? && (l.listener == Some(Leaving) || l.listener == Some(Finished))
  {
  }

  lemma GoneStays(s: State, a: Action, u: int)
    requires Inv(s) && Enabled(s, a) && Gone(s, u)
    ensures Gone(Apply(s, a), u)
  {
    hide Inv, Apply, Enabled;
    var c :| c in s.users && s.users[c] == u;
    UsersStay(s, a);
    GoneListens(s, a, c, u);
    GoneAsksNothing(s, a, u);
  }

  lemma GoneListens(s: State, a: Action, c: int, u: int)
    requires Inv(s) && Enabled(s, a) && Gone(s, u) && c in s.users && s.users[c] == u
    ensures var s' := Apply(s, a); u !in s'.clients && u in s'.listeners && TookExit(s'.listeners[u])
  {
    hide Inv, LocalOk, LocalOf, Frame, Channel, Oldest, Apply, Enabled;
    if s.taker.Spawning? && s.taker.user == u {
      Ids(s, c);
      Look(s, c);
      SpawnsOwn(s, c, u);
      SpawningHasNoListener(c, LocalOf(s, c));
    }
    StepsGoOn(s, a);
  }

  lemma GoneAsksNothing(s: State, a: Action, u: int)
    requires Inv(s) && Enabled(s, a) && Gone(s, u)
    ensures var q := Apply(s, a).queues[AdminUp]; forall k :: 0 <= k < |q| ==> q[k].body.clientId != u
  {
    hide Inv, Apply, Enabled, Channel, Oldest;
    AdminUpGrows(s, a);
    if a.TakerTakes? {
      TakerTakesFrom(s);
    }
    var q := Apply(s, a).queues[AdminUp];
    forall k | 0 <= k < |q| ensures q[k].body.clientId != u {
      assert q[k] in q;
    }
  }

  /** A listener about to be forked for a client's first cinema id is that client's. */
  lemma SpawnsOwn(s: State, c: int, u: int)
    requires Inv(s) && s.taker.Spawning? && s.taker.user == u && c in s.users && s.users[c] == u
    ensures s.taker == Spawning(c, u)
  {
    hide QueuesAgree, LocalOk, LocalOf;
  }

  lemma TakerTakesFrom(s: State)
    requires Inv(s) && Enabled(s, TakerTakes)
    ensures Typed(s, CineUp, CINEMA_REQUEST).id in s.clients
  {
    hide Inv, LocalOk, LocalOf, Channel, Oldest;
    var c, l, env := MainOwner(s, CineUp, Oldest(s.queues[CineUp], CINEMA_REQUEST));
    CineUpType(c, l, env);
  }

  lemma AdminUpGrows(s: State, a: Action)
    requires Enabled(s, a)
    ensures forall env :: env in Apply(s, a).queues[AdminUp] ==> env in s.queues[AdminUp] || ForAdmin(s, a, env.body)
  {
    hide ForAdmin, Channel, Oldest, Stamp, SendType, TokenOf, Blank;
    if !a.ClientSends? && !a.MainForks? && !a.TakerSpawns? {
      hide Apply, Enabled;
      StepsNearer(s, a);
    }
  }

  lemma SpawningHasNoListener(c: int, l: Local)
    requires LocalOk(c, l) && l.spawning
    ensures l.listener == None
  {
  }

  lemma {:induction false} GoneForEver(states: seq<State>, acts: seq<Action>, i: nat, j: nat, u: int)
    requires Run(states, acts) && i <= j < |states| && Gone(states[i], u)
    ensures Gone(states[j], u)
    decreases j - i
  {
    hide Inv, Apply, Enabled, Gone;
    if i < j {
      GoneForEver(states, acts, i, j - 1, u);
      RunKeepsInv(states, acts, j - 1);
      GoneStays(states[j - 1], acts[j - 1], u);
    }
  }

  /** The handler of an EXIT is the last one the admin starts for its user. */
  lemma ExitIsLast(states: seq<State>, acts: seq<Action>, i: nat, j: nat)
    requires Run(states, acts) && i < j < |acts| && acts[i] == acts[j] == AdminForks
    requires Typed(states[i], AdminUp, ADMIN).choice.Leave?
    ensures Typed(states[j], AdminUp, ADMIN).clientId != Typed(states[i], AdminUp, ADMIN).clientId
  {
    hide Inv, Apply;
    RunKeepsInv(states, acts, i);
    ExitMakesGone(states[i], Oldest(states[i].queues[AdminUp], ADMIN));
    GoneForEver(states, acts, i + 1, j, Typed(states[i], AdminUp, ADMIN).clientId);
  }

  // ----- the order of a client's handlers -----

  /** The requests of `c` up to the `k`th have been put before the admin's handlers. */
  ghost predicate Passed(s: State, c: int, k: nat) {
    c in s.clients && k <= s.clients[c].serial && forall k': nat :: Underway(s.queues, c, k') ==> k' > k
  }

  /** A handler is started for the client's latest request, and that request is nowhere else on its way. */
  lemma ForkIsCurrent(s: State, i: nat) returns (c: int, l: Local)
    requires Inv(s) && i < |s.queues[AdminUp]|
    ensures c == s.queues[AdminUp][i].body.tag.client && c in s.clients && l == LocalOf(s, c)
    ensures s.queues[AdminUp][i].body.tag.serial == s.clients[c].serial
    ensures forall n: Node, j: nat | Early(n) && j < |s.queues[n]| && s.queues[n][j].body.tag.client == c ::
              n.AdminUp? && j == i
  {
    hide Inv, LocalOk, LocalOf;
    c, l := AdminNote(s, AdminUp, i);
    Look(s, c);
    TagSerial(c, l);
    forall n: Node, j: nat | Early(n) && j < |s.queues[n]| && s.queues[n][j].body.tag.client == c
      ensures n.AdminUp? && j == i
    {
      var d, m := Owner(s, n, j);
      EarlyAlone(c, l, n);
      if n.AdminUp? && j != i {
        TokensDiffer(s, n, j, AdminUp, i);
      }
    }
  }

  lemma TagSerial(c: int, l: Local)
    requires LocalOk(c, l)
    ensures l.main.Some? ==> l.main.value.env.body.tag.serial == l.client.serial
    ensures l.notice.Some? ==> l.notice.value.env.body.tag.serial == l.client.serial
  {
  }

  /** A client's message at the admin is its only one not handled yet. */
  lemma EarlyAlone(c: int, l: Local, n: Node)
    requires LocalOk(c, l) && Early(n)
    requires (l.main.Some? && l.main.value.node.AdminUp?) || (l.notice.Some? && l.notice.value.node.AdminUp?)
    ensures l.main.Some? && l.main.value.node == n ==> n.AdminUp? && l.notice == None
    ensures l.notice.Some? && l.notice.value.node == n ==> n.AdminUp?
  {
  }

  /** What is on its way to the handlers after one was started was so before, elsewhere. */
  lemma ForkLeaves(s: State, i: nat, n: Node, e: Envelope<Note>) returns (j: nat)
    requires Enabled(s, AdminForks) && i == Oldest(s.queues[AdminUp], ADMIN)
    requires Early(n) && e in Apply(s, AdminForks).queues[n]
    ensures j < |s.queues[n]| && s.queues[n][j] == e && (n.AdminUp? ==> j != i)
  {
    hide Channel, Oldest, TokenOf, Without;
    var q := Apply(s, AdminForks).queues[n];
    j :| 0 <= j < |q| && q[j] == e;
    if n.AdminUp? {
      assert q == Without(s.queues[AdminUp], i);
      WithoutAt(s.queues[AdminUp], i, j);
      j := if j < i then j else j + 1;
    } else {
      assert q == s.queues[n];
    }
  }

  lemma NoneUnderway(s: State, i: nat, c: int, k: nat)
    requires Inv(s) && Enabled(s, AdminForks) && i == Oldest(s.queues[AdminUp], ADMIN)
    requires c == s.queues[AdminUp][i].body.tag.client
    ensures !Underway(Apply(s, AdminForks).queues, c, k)
  {
    hide Inv, LocalOk, LocalOf, Channel, Oldest, Apply, Enabled, Early;
    var q := Apply(s, AdminForks).queues;
    if Underway(q, c, k) {
      var n: Node, e: Envelope<Note> :| Early(n) && e in q[n] && e.body.tag.client == c && e.body.tag.serial == k;
      var _ := ForkLeaves(s, i, n, e);
      var _, _ := ForkIsCurrent(s, i);
      assert false;
    }
  }

  lemma ForkPasses(s: State, i: nat)
    requires Inv(s) && Enabled(s, AdminForks) && i == Oldest(s.queues[AdminUp], ADMIN)
    ensures var tag := s.queues[AdminUp][i].body.tag; Passed(Apply(s, AdminForks), tag.client, tag.serial)
  {
    hide Inv, LocalOk, LocalOf, Frame, Channel, Oldest, Apply, Enabled, Underway;
    var c, l := ForkIsCurrent(s, i);
    StepsGoOn(s, AdminForks);
    forall k: nat ensures !Underway(Apply(s, AdminForks).queues, c, k) {
      NoneUnderway(s, i, c, k);
    }
  }

  lemma PassedStays(s: State, a: Action, c: int, k: nat)
    requires Enabled(s, a) && Passed(s, c, k)
    ensures Passed(Apply(s, a), c, k)
  {
    hide Enabled, Apply, Underway;
    StepsGoOn(s, a);
    forall k': nat | Underway(Apply(s, a).queues, c, k') ensures k' > k {
      if a.ClientSends? {
        SendsNext(s, a, c, k');
      } else if a.MainForks? || a.TakerSpawns? {
        StillUnderway(s, a, c, k');
      } else {
        StepsNearer(s, a);
      }
    }
  }

  lemma {:induction false} PassedForEver(states: seq<State>, acts: seq<Action>, i: nat, j: nat, c: int, k: nat)
    requires Run(states, acts) && i <= j < |states| && Passed(states[i], c, k)
    ensures Passed(states[j], c, k)
    decreases j - i
  {
    hide Apply, Enabled, Passed;
    if i < j {
      PassedForEver(states, acts, i, j - 1, c, k);
      PassedStays(states[j - 1], acts[j - 1], c, k);
    }
  }

  /** The handlers of one client are started in the order of its requests, one for each at most. */
  lemma HandlersInOrder(states: seq<State>, acts: seq<Action>, i: nat, j: nat)
    requires Run(states, acts) && i < j < |acts| && acts[i] == acts[j] == AdminForks
    requires Typed(states[i], AdminUp, ADMIN).tag.client == Typed(states[j], AdminUp, ADMIN).tag.client
    ensures Typed(states[i], AdminUp, ADMIN).tag.serial < Typed(states[j], AdminUp, ADMIN).tag.serial
  {
    hide Inv, Apply, Passed, Channel, Oldest;
    RunKeepsInv(states, acts, i);
    var k := Oldest(states[i].queues[AdminUp], ADMIN);
    ForkPasses(states[i], k);
    var tag := states[i].queues[AdminUp][k].body.tag;
    PassedForEver(states, acts, i + 1, j, tag.client, tag.serial);
    LaterThanPassed(states[j], Oldest(states[j].queues[AdminUp], ADMIN), tag.client, tag.serial);
  }

  lemma LaterThanPassed(s: State, i: nat, c: int, k: nat)
    requires Passed(s, c, k) && i < |s.queues[AdminUp]| && s.queues[AdminUp][i].body.tag.client == c
    ensures s.queues[AdminUp][i].body.tag.serial > k
  {
    assert s.queues[AdminUp][i] in s.queues[AdminUp] && Early(AdminUp);
    assert Underway(s.queues, c, s.queues[AdminUp][i].body.tag.serial);
  }

  // ----- a cinema id is its client's for ever -----

  /** `c` was given the cinema id, at its first login or at a later one. */
  predicate Has(s: State, c: int, id: int) {
    (c in s.users && s.users[c] == id) || (c in s.again && s.again[c] == id)
  }

  lemma IdsAfterHandler(s: State, a: Action)
    requires Enabled(s, a) && a.HandlerEnds?
    ensures var note := s.queues[Pool][a.i].body;
            var granted := Grant(s, note.tag.client, a.newUser);
            Apply(s, a).users == (if note.choice.Accepted? then granted.users else s.users)
            && Apply(s, a).again == if note.choice.Accepted? then granted.again else s.again
  {
    HandlerEndsStep(s, a);
    hide Stamp, SendType, Pull, Post, Apply, Enabled, Grant;
    MessagesOnly();
    var note := s.queues[Pool][a.i].body;
    SameGrant(s, Pull(s, Pool, a.i), note.tag.client, a.newUser);
  }

  lemma SameGrant(s: State, s': State, c: int, user: int)
    requires s'.users == s.users && s'.again == s.again
    ensures Grant(s', c, user).users == Grant(s, c, user).users && Grant(s', c, user).again == Grant(s, c, user).again
  {
    hide Grant;
    GrantedIds(s, c, user);
    GrantedIds(s', c, user);
  }

  /** Who logs in again has not done so before. */
  lemma RegistersOnceMore(s: State, i: nat)
    requires Inv(s) && i < |s.queues[Pool]| && s.queues[Pool][i].body.choice.Accepted?
    ensures var c := s.queues[Pool][i].body.tag.client; c in s.users ==> c !in s.again
  {
    hide Inv, LocalOk, LocalOf;
    var c, l := AdminNote(s, Pool, i);
    PoolNote(c, l, s.queues[Pool][i]);
    Look(s, c);
  }

  lemma UsersStay(s: State, a: Action)
    requires Enabled(s, a)
    ensures forall c :: c in s.users ==> c in Apply(s, a).users && Apply(s, a).users[c] == s.users[c]
  {
    hide Apply, Enabled;
    if a.HandlerEnds? {
      IdsAfterHandler(s, a);
    } else {
      StepsGoOn(s, a);
    }
  }

  lemma IdsStay(s: State, a: Action, c: int, id: int)
    requires Inv(s) && Enabled(s, a) && Has(s, c, id)
    ensures Has(Apply(s, a), c, id)
  {
    hide Inv, Apply;
    if a.HandlerEnds? {
      IdsAfterHandler(s, a);
      if s.queues[Pool][a.i].body.choice.Accepted? {
        RegistersOnceMore(s, a.i);
      }
    } else {
      hide Enabled;
      StepsGoOn(s, a);
    }
  }

  lemma OneOwner(s: State, c: int, d: int, id: int)
    requires Inv(s) && Has(s, c, id) && Has(s, d, id)
    ensures c == d
  {
    hide QueuesAgree, Scoped, LocalOk, LocalOf;
  }

  /** A cinema id once given to a client is that client's for ever, and nobody else's. */
  lemma {:induction false} IdsStayForEver(states: seq<State>, acts: seq<Action>, i: nat, j: nat, c: int, id: int)
    requires Run(states, acts) && i <= j < |states| && Has(states[i], c, id)
    ensures Has(states[j], c, id) && forall d :: Has(states[j], d, id) ==> d == c
    decreases j - i
  {
    hide Inv, Apply, Enabled, Has;
    if i < j {
      IdsStayForEver(states, acts, i, j - 1, c, id);
      RunKeepsInv(states, acts, j - 1);
      IdsStay(states[j - 1], acts[j - 1], c, id);
    }
    RunKeepsInv(states, acts, j);
    forall d | Has(states[j], d, id) ensures d == c {
      OneOwner(states[j], c, d, id);
    }
  }

  lemma {:induction false} UsersStayForEver(states: seq<State>, acts: seq<Action>, i: nat, j: nat)
    requires Run(states, acts) && i <= j < |states|
    ensures forall c :: c in states[i].users ==> c in states[j].users && states[j].users[c] == states[i].users[c]
    decreases j - i
  {
    hide Apply, Enabled;
    if i < j {
      UsersStayForEver(states, acts, i, j - 1);
      UsersStay(states[j - 1], acts[j - 1]);
    }
  }

  lemma {:induction false} ClientsStayForEver(states: seq<State>, acts: seq<Action>, i: nat)
    requires Run(states, acts) && i < |states|
    ensures states[i].clients.Keys == states[0].clients.Keys
  {
    hide Apply, Enabled;
    if i > 0 {
      ClientsStayForEver(states, acts, i - 1);
      StepsGoOn(states[i - 1], acts[i - 1]);
    }
  }

  /** Whose message at the admin carries an id: the client itself before it has a cinema id, and then its owner. */
  lemma IdAtAdmin(s: State, i: nat) returns (c: int)
    requires Inv(s) && i < |s.queues[AdminUp]|
    ensures c == s.queues[AdminUp][i].body.tag.client && c in s.clients
    ensures var id := s.queues[AdminUp][i].body.clientId;
            id == c || (c in s.users && s.users[c] == id && id !in s.clients)
  {
    hide Inv, LocalOk, LocalOf, Frame;
    var l;
    c, l := AdminNote(s, AdminUp, i);
    Look(s, c);
    Ids(s, c);
  }

  /** Handlers started for one id, whenever, are of one client. */
  lemma OneClientEach(states: seq<State>, acts: seq<Action>, i: nat, j: nat, k: nat, m: nat)
    requires Run(states, acts) && i <= j < |states|
    requires k < |states[i].queues[AdminUp]| && m < |states[j].queues[AdminUp]|
    requires states[i].queues[AdminUp][k].body.clientId == states[j].queues[AdminUp][m].body.clientId
    ensures states[i].queues[AdminUp][k].body.tag.client == states[j].queues[AdminUp][m].body.tag.client
  {
    hide Inv, Run, Frame;
    RunKeepsInv(states, acts, i);
    RunKeepsInv(states, acts, j);
    UsersStayForEver(states, acts, i, j);
    ClientsStayForEver(states, acts, i);
    ClientsStayForEver(states, acts, j);
    var c := IdAtAdmin(states[i], k);
    var d := IdAtAdmin(states[j], m);
    Ids(states[j], c);
  }

  /** The handlers of one user are started in the order of its requests. */
  lemma UsersHandlersInOrder(states: seq<State>, acts: seq<Action>, i: nat, j: nat)
    requires Run(states, acts) && i < j < |acts| && acts[i] == acts[j] == AdminForks
    requires Typed(states[i], AdminUp, ADMIN).clientId == Typed(states[j], AdminUp, ADMIN).clientId
    ensures Typed(states[i], AdminUp, ADMIN).tag.client == Typed(states[j], AdminUp, ADMIN).tag.client
    ensures Typed(states[i], AdminUp, ADMIN).tag.serial < Typed(states[j], AdminUp, ADMIN).tag.serial
  {
    hide Inv, Apply, Channel, Oldest;
    OneClientEach(states, acts, i, j, Oldest(states[i].queues[AdminUp], ADMIN),
                  Oldest(states[j].queues[AdminUp], ADMIN));
    HandlersInOrder(states, acts, i, j);
  }
}
