/**
 How far the relay gets: who is answered, who waits for ever, and when nothing can go on.
 */
module RelayProgress {
  import opened TypedQueue
  import opened Wrappers
  import opened Relay
  import opened RelayInvariant
  import opened RelayLocal
  import opened RelayProof
  import opened RelaySteps
  import opened RelayEffects

  // ----- every step counts -----

  /** The hops still before the messages, and the processes about to be forked. */
  function Rank(s: State): nat {
    Hops(s.queues) + (if s.main.Forking? then 1 else 0) + (if s.taker.Spawning? then 1 else 0)
  }

  /** Every step but the sending of a new request brings the answers nearer. */
  lemma RankFalls(s: State, a: Action)
    requires Enabled(s, a) && !a.ClientSends?
    ensures Rank(Apply(s, a)) < Rank(s)
  {
    hide Hops, Channel, Pull, Post;
    StepsGoOn(s, a);
    if a.MainForks? || a.TakerSpawns? {
      assert Apply(s, a).queues == s.queues;
    } else {
      hide Apply, Enabled;
      StepsNearer(s, a);
    }
  }

  predicate NothingNew(acts: seq<Action>, i: nat, j: nat)
    requires i <= j <= |acts|
  {
    forall k :: i <= k < j ==> !acts[k].ClientSends?
  }

  /** If no client sends anything new, the steps from a state on are at most as many as its rank. */
  lemma {:induction false} FewStepsLeft(states: seq<State>, acts: seq<Action>, i: nat, j: nat)
    requires Run(states, acts) && i <= j <= |acts|
    requires NothingNew(acts, i, j)
    ensures Rank(states[j]) + (j - i) <= Rank(states[i])
    decreases j - i
  {
    hide Apply, Enabled, Rank;
    if i < j {
      FewStepsLeft(states, acts, i, j - 1);
      RankFalls(states[j - 1], acts[j - 1]);
    }
  }

  // ----- what can happen next -----

  lemma {:induction false} Above(xs: set<int>) returns (m: int)
    ensures m > 2
    ensures forall x :: x in xs ==> x < m
  {
    if xs == {} {
      m := 3;
    } else {
      Occupied(xs);
      var x :| x in xs;
      var rest := xs - {x};
      m := Above(rest);
      if m <= x {
        m := x + 1;
      }
      assert forall y :: y in xs ==> y == x || y in rest;
    }
  }

  lemma FreshIdExists(s: State) returns (user: int)
    ensures FreshId(s, user)
  {
    user := Above(s.clients.Keys + s.issued);
  }

  /** Who waits for a message that is between MOM and cinema. */
  lemma OnWireLocal(c: int, l: Local, n: Node, env: Envelope<Note>)
    requires LocalOk(c, l) && l.main == Some(Spot(n, env)) && OnWire(n) && l.onWire
    ensures !n.MomUp? && !n.RelayUp? && !n.RelayDown? && !n.MomDown?
    ensures n.Uplink? ==> l.cineNet == Free
    ensures n.AdminUp? ==> env.mtype == ADMIN
    ensures n.Hands? ==> l.user == Some(env.mtype) && l.listener == Some(Leaving)
    ensures n.AdminDown? ==> if l.registering then env.mtype == c
                             else l.user == Some(env.mtype) && l.listener == Some(AwaitingAdmin)
    ensures n.CineDown? ==> l.cineNet == Busy(env.mtype)
  {
  }

  /** What can happen next to a client whose message is between MOM and cinema. */
  lemma NextOnWire(s: State, c: int, l: Local) returns (a: Action)
    requires Inv(s) && c in s.clients && l == LocalOf(s, c) && l.main.Some? && OnWire(l.main.value.node) && l.onWire
    requires !Premature(l.client)
    ensures !a.ClientSends? && Enabled(s, a)
  {
    hide Inv, LocalOf, LocalOk, OnWire, Frame, Channel;
    Look(s, c);
    Ids(s, c);
    MainAvailable(s, c);
    var n := l.main.value.node;
    OnWireLocal(c, l, n, l.main.value.env);
    match n
    case Uplink => a := CineNetUp;
    case CineUp => a := NextAtCineUp(s, c, l);
    case AdminUp => a := AdminForks;
    case Pool =>
      var user := FreshIdExists(s);
      a := HandlerEnds(0, user);
    case Hands => a := ListenerLeaves(l.user.value);
    case AdminDown => a := if l.registering then TakerConfirms else ListenerAnswers(l.user.value);
    case CineDown => a := CineNetDown;
    case Downlink => a := MomNetDown;
  }

  lemma MainAvailable(s: State, c: int)
    requires Inv(s) && c in s.clients && LocalOf(s, c).main.Some?
    ensures var spot := LocalOf(s, c).main.value;
            s.queues[spot.node] != [] && HasTyped(s, spot.node, spot.env.mtype)
  {
    hide LocalOk;
    Available(s, Token(c, false));
  }

  lemma NextAtCineUp(s: State, c: int, l: Local) returns (a: Action)
    requires Inv(s) && c in s.clients && l == LocalOf(s, c) && l.main.Some? && l.main.value.node.CineUp?
    requires !Premature(l.client)
    ensures !a.ClientSends? && Enabled(s, a)
  {
    hide QueuesAgree, LocalOf;
    Look(s, c);
    Ids(s, c);
    MainAvailable(s, c);
    if l.client.choice.Connect? {
      match s.taker {
        case Accepting => a := TakerTakes;
        case Spawning(_, _) => a := TakerSpawns;
        case Registering(token) =>
          // The client being registered would be on the wire instead of `c`.
          Ids(s, token);
          Look(s, token);
          assert false;
      }
    } else if l.spawning {
      a := TakerSpawns;
    } else {
      a := ListenerTakes(l.user.value);
    }
  }

  lemma OnWireHasMessage(c: int, l: Local)
    requires LocalOk(c, l) && l.onWire
    ensures l.main.Some? && OnWire(l.main.value.node)
  {
  }

  /** A request no answer will come to: one sent without a login, or a login while logged in. */
  predicate Hopeless(client: Client) {
    client.pc.Waiting? && (Premature(client) || Again(client))
  }

  /** Who waits for a message that is not between MOM and cinema. */
  lemma OffWireLocal(c: int, l: Local, n: Node, env: Envelope<Note>)
    requires LocalOk(c, l) && l.main == Some(Spot(n, env)) && (l.user.Some? ==> l.user.value > 2)
    ensures l.client.pc.Waiting?
    ensures n.MomUp? && l.client.choice.Init? ==> env.mtype == MOM_REQUEST && !l.forking
    ensures n.MomUp? && !l.client.choice.Init? ==>
              env.mtype == c && (l.forking || (l.fork.Some? && l.fork.value.pc.Serving?))
    ensures n.RelayDown? && !Again(l.client) ==>
              l.fork.Some? && l.fork.value.pc.Awaiting? && env.mtype == ReplyTypeOf(l.fork.value, c)
    ensures n.MomDown? ==> env.mtype == c
  {
  }

  lemma NextOffWire(s: State, c: int, l: Local) returns (a: Action)
    requires Inv(s) && c in s.clients && l == LocalOf(s, c) && l.main.Some?
    requires var n := l.main.value.node;
             n.MomUp? || n.MomDown? || (n.RelayDown? && !Again(l.client)) || (n.RelayUp? && !s.momBusy)
    ensures !a.ClientSends? && Enabled(s, a)
  {
    hide Inv, LocalOf, LocalOk, Frame, Channel;
    Look(s, c);
    Ids(s, c);
    MainAvailable(s, c);
    var n := l.main.value.node;
    OffWireLocal(c, l, n, l.main.value.env);
    match n
    case MomUp =>
      if l.forking || (l.client.choice.Init? && s.main.Forking?) {
        a := MainForks;
      } else if l.client.choice.Init? {
        a := MainAccepts;
      } else {
        a := ForkUp(c);
      }
    case RelayUp => a := MomNetUp;
    case RelayDown => a := ForkDown(c);
    case MomDown => a := ClientReceives(c);
  }

  /** A request sent without a login is between MOM and cinema. */
  predicate Blocked(s: State) {
    s.wire.Some? && s.wire.value in s.clients && Premature(s.clients[s.wire.value])
  }

  /** The client whose message is between MOM and cinema waits, and its message can go on unless it is premature. */
  lemma NextForWire(s: State) returns (a: Action)
    requires Inv(s) && s.momBusy && !Blocked(s)
    ensures !a.ClientSends? && Enabled(s, a)
  {
    hide Inv, LocalOf, LocalOk, OnWire, Frame, Enabled;
    var d := WireOwner(s);
    a := NextOnWire(s, d, LocalOf(s, d));
  }

  lemma WireOwner(s: State) returns (d: int)
    requires Inv(s) && s.momBusy
    ensures s.wire == Some(d) && d in s.clients && s.clients[d].pc.Waiting?
    ensures var l := LocalOf(s, d);
            l.client == s.clients[d] && l.main.Some? && OnWire(l.main.value.node) && l.onWire
  {
    hide QueuesAgree, LocalOk, LocalOf, IdsOk;
    d := s.wire.value;
    Look(s, d);
    OnWireHasMessage(d, LocalOf(s, d));
    MessageMeansWaiting(d, LocalOf(s, d));
  }

  /** A client that is not hopeless can be served, if the way to the cinema is not blocked. */
  lemma NextFor(s: State, c: int) returns (a: Action)
    requires Inv(s) && c in s.clients && s.clients[c].pc.Waiting? && !Hopeless(s.clients[c]) && !Blocked(s)
    ensures !a.ClientSends? && Enabled(s, a)
  {
    hide Inv, LocalOf, LocalOk, Frame, Enabled;
    var l := LocalOf(s, c);
    Look(s, c);
    Ids(s, c);
    WaitingHasMain(c, l);
    var n := l.main.value.node;
    if OnWire(n) {
      a := NextOnWire(s, c, l);
    } else if n.RelayUp? && s.momBusy {
      a := NextForWire(s);
    } else {
      a := NextOffWire(s, c, l);
    }
  }

  /** While a client that is not hopeless waits and the way is free, some process can go on. */
  lemma NoDeadlock(states: seq<State>, acts: seq<Action>, i: nat, c: int)
    requires Run(states, acts) && i < |states| && c in states[i].clients
    requires states[i].clients[c].pc.Waiting? && !Hopeless(states[i].clients[c]) && !Blocked(states[i])
    ensures exists a: Action :: !a.ClientSends? && Enabled(states[i], a)
  {
    hide Run, Inv, Enabled, Hopeless, Blocked;
    RunKeepsInv(states, acts, i);
    var a := NextFor(states[i], c);
  }

  lemma WaitingHasMain(c: int, l: Local)
    requires LocalOk(c, l) && l.client.pc.Waiting?
    ensures l.main.Some?
    ensures l.onWire <==> OnWire(l.main.value.node)
    ensures Premature(l.client) ==> var n := l.main.value.node; n.MomUp? || n.RelayUp? || OnWire(n)
    ensures Hopeless(l.client) ==> !l.main.value.node.MomDown?
  {
  }

  lemma RunLength(states: seq<State>, acts: seq<Action>)
    requires Run(states, acts)
    ensures |states| == |acts| + 1
  {
  }

  // ----- for ever -----

  lemma NothingToReceive(s: State, c: int)
    requires Inv(s) && c in s.clients && Hopeless(s.clients[c])
    ensures !Enabled(s, ClientReceives(c))
  {
    hide Inv, LocalOk, LocalOf, Oldest, Hopeless;
    if Enabled(s, ClientReceives(c)) {
      var d, l, env := MainOwner(s, MomDown, Oldest(s.queues[MomDown], c));
      ReturnType(d, l, MomDown, env);
      Look(s, c);
      Ids(s, c);
      HopelessWaits(s.clients[c]);
      WaitingHasMain(c, l);
      assert false;
    }
  }

  lemma HopelessWaits(client: Client)
    requires Hopeless(client)
    ensures client.pc.Waiting?
  {
  }

  /** A hopeless client waits for ever. */
  lemma {:induction false} HopelessForEver(states: seq<State>, acts: seq<Action>, i: nat, j: nat, c: int)
    requires Run(states, acts) && i <= j < |states| && c in states[i].clients && Hopeless(states[i].clients[c])
    ensures c in states[j].clients && states[j].clients[c] == states[i].clients[c]
    decreases j - i
  {
    hide Inv, Apply, Channel;
    if i < j {
      HopelessForEver(states, acts, i, j - 1, c);
      RunKeepsInv(states, acts, j - 1);
      NothingToReceive(states[j - 1], c);
      StepsGoOn(states[j - 1], acts[j - 1]);
    }
  }

  /** A premature request between MOM and cinema stays there, and nothing is sent there meanwhile. */
  lemma BlockedStays(s: State, a: Action)
    requires Inv(s) && Enabled(s, a) && Blocked(s)
    ensures !a.MomNetUp? && Apply(s, a).wire == s.wire
  {
    hide Inv, LocalOk, LocalOf, Oldest, Channel, Frame;
    var c := s.wire.value;
    Ids(s, c);
    Look(s, c);
    if a.MomNetDown? {
      var d, l, env := MainOwner(s, Downlink, 0);
      ReturnType(d, l, Downlink, env);
      MessageMeansWaiting(d, l);
      Look(s, d);
      PrematureLocal(c, l);
      assert false;
    }
    StepsGoOn(s, a);
  }

  lemma PrematureLocal(c: int, l: Local)
    requires LocalOk(c, l) && l.client.pc.Waiting? && Premature(l.client)
    ensures l.main.Some? && !OnReturn(l.main.value.node)
  {
  }

  lemma {:induction false} BlockedForEver(states: seq<State>, acts: seq<Action>, i: nat, j: nat)
    requires Run(states, acts) && i <= j < |states| && Blocked(states[i])
    ensures Blocked(states[j]) && states[j].wire == states[i].wire
    ensures j < |acts| ==> !acts[j].MomNetUp?
    decreases j - i
  {
    hide Inv, Apply, Enabled;
    if i < j {
      BlockedForEver(states, acts, i, j - 1);
      RunKeepsInv(states, acts, j - 1);
      BlockedStays(states[j - 1], acts[j - 1]);
      var c := BlockerIsHopeless(states[j - 1]);
      HopelessForEver(states, acts, j - 1, j, c);
    }
    RunKeepsInv(states, acts, j);
    if j < |acts| {
      BlockedStays(states[j], acts[j]);
    }
  }

  lemma BlockerIsHopeless(s: State) returns (c: int)
    requires Inv(s) && Blocked(s)
    ensures s.wire == Some(c) && c in s.clients && Hopeless(s.clients[c])
  {
    hide Inv;
    Ids(s, s.wire.value);
    c := WireOwner(s);
  }

  // ----- when nothing can go on -----

  /** Without a new request nothing more happens. */
  ghost predicate Quiescent(s: State) {
    forall a: Action :: Enabled(s, a) ==> a.ClientSends?
  }

  lemma {:induction false} WaitingSince(states: seq<State>, acts: seq<Action>, i: nat, j: nat, c: int)
    requires Run(states, acts) && i <= j <= |acts| && NothingNew(acts, i, j)
    requires c in states[j].clients && states[j].clients[c].pc.Waiting?
    ensures c in states[i].clients && states[i].clients[c] == states[j].clients[c]
    decreases j - i
  {
    hide Apply, Enabled;
    if i < j {
      var s, a := states[j - 1], acts[j - 1];
      StepsGoOn(s, a);
      if a == ClientReceives(c) {
        ReceivingEndsWait(s, c);
      }
      WaitingSince(states, acts, i, j - 1, c);
    }
  }

  lemma ReceivingEndsWait(s: State, c: int)
    requires Enabled(s, ClientReceives(c))
    ensures var s' := Apply(s, ClientReceives(c));
            && c in s'.clients && (s'.clients[c].pc.Home? || s'.clients[c].pc.Closed?)
            && s'.clients[c].choice == s.clients[c].choice
  {
    hide Channel, Oldest, Pull;
    MessagesOnly();
  }

  /**
   The way to the cinema is taken in a state where nothing can go on exactly if some client has sent
   a request without a login.
   */
  lemma BlockedIffPremature(s: State)
    requires Inv(s) && Quiescent(s)
    ensures s.momBusy <==> exists c :: c in s.clients && s.clients[c].pc.Waiting? && Premature(s.clients[c])
    ensures s.momBusy <==> Blocked(s)
  {
    hide Inv, Enabled, LocalOf, LocalOk, Frame;
    if s.momBusy {
      var d := WireOwner(s);
      if !Blocked(s) {
        var a := NextForWire(s);
      }
    } else {
      forall c | c in s.clients && s.clients[c].pc.Waiting? ensures !Premature(s.clients[c]) {
        NotPremature(s, c);
      }
      Ids(s, 0);
    }
  }

  lemma NotPremature(s: State, c: int)
    requires Inv(s) && Quiescent(s) && !s.momBusy && c in s.clients && s.clients[c].pc.Waiting?
    ensures !Premature(s.clients[c])
  {
    hide Inv, Enabled, LocalOf, LocalOk, Frame, OnWire;
    if Premature(s.clients[c]) {
      Look(s, c);
      Ids(s, c);
      WaitingHasMain(c, LocalOf(s, c));
      var a := NextOffWire(s, c, LocalOf(s, c));
    }
  }

  /**
   Let a run that sends nothing new from its `i`th state on go on until nothing can: then every client
   has been answered if and only if none was hopeless in the `i`th state.
   */
  lemma AllAnsweredIff(states: seq<State>, acts: seq<Action>, i: nat)
    requires Run(states, acts) && i <= |acts| && NothingNew(acts, i, |acts|) && Quiescent(states[|acts|])
    ensures (forall c :: c in states[|acts|].clients ==> !states[|acts|].clients[c].pc.Waiting?)
            <==> forall c :: c in states[i].clients ==> !Hopeless(states[i].clients[c])
  {
    hide Run, Inv, Enabled, Hopeless, Blocked, Quiescent;
    RunLength(states, acts);
    var s := states[|acts|];
    forall c | c in states[i].clients && Hopeless(states[i].clients[c])
      ensures c in s.clients && s.clients[c].pc.Waiting?
    {
      HopelessForEver(states, acts, i, |acts|, c);
      HopelessWaits(s.clients[c]);
    }
    forall c | c in s.clients && s.clients[c].pc.Waiting?
      ensures exists d :: d in states[i].clients && Hopeless(states[i].clients[d])
    {
      WaitsOnlyIfHopeless(states, acts, i, c);
    }
  }

  lemma WaitsOnlyIfHopeless(states: seq<State>, acts: seq<Action>, i: nat, c: int)
    requires Run(states, acts) && i <= |acts| && NothingNew(acts, i, |acts|) && Quiescent(states[|acts|])
    requires c in states[|acts|].clients && states[|acts|].clients[c].pc.Waiting?
    ensures c in states[i].clients && states[i].clients[c] == states[|acts|].clients[c]
    ensures !Hopeless(states[i].clients[c]) ==>
              exists d :: d in states[i].clients && Hopeless(states[i].clients[d]) && Premature(states[i].clients[d])
  {
    hide Run, Inv, Enabled, Hopeless, Blocked;
    RunLength(states, acts);
    var s := states[|acts|];
    RunKeepsInv(states, acts, |acts|);
    WaitingSince(states, acts, i, |acts|, c);
    if !Hopeless(s.clients[c]) {
      if Blocked(s) {
        var d := BlockerIsHopeless(s);
        BlockerIsPremature(s);
        HopelessWaits(s.clients[d]);
        WaitingSince(states, acts, i, |acts|, d);
      } else {
        var a := NextFor(s, c);
      }
    }
  }

  lemma BlockerIsPremature(s: State)
    requires Blocked(s)
    ensures Premature(s.clients[s.wire.value])
  {
  }

  /** And if nobody has sent a request without a login, each client waits in the end exactly if it logged in again. */
  lemma EachAnsweredIff(states: seq<State>, acts: seq<Action>, i: nat, c: int)
    requires Run(states, acts) && i <= |acts| && NothingNew(acts, i, |acts|) && Quiescent(states[|acts|])
    requires forall d :: d in states[i].clients && Hopeless(states[i].clients[d]) ==> Again(states[i].clients[d])
    requires c in states[i].clients
    ensures c in states[|acts|].clients
    ensures states[|acts|].clients[c].pc.Waiting?
            <==> states[i].clients[c].pc.Waiting? && Again(states[i].clients[c])
  {
    hide Run, Inv, Enabled;
    RunLength(states, acts);
    ClientsStayTo(states, acts, i, |acts|);
    if Hopeless(states[i].clients[c]) {
      HopelessForEver(states, acts, i, |acts|, c);
    } else if states[|acts|].clients[c].pc.Waiting? {
      WaitsOnlyIfHopeless(states, acts, i, c);
    }
  }

  lemma {:induction false} ClientsStayTo(states: seq<State>, acts: seq<Action>, i: nat, j: nat)
    requires Run(states, acts) && i <= j < |states|
    ensures states[j].clients.Keys == states[i].clients.Keys
    decreases j - i
  {
    hide Apply, Enabled;
    if i < j {
      ClientsStayTo(states, acts, i, j - 1);
      StepsGoOn(states[j - 1], acts[j - 1]);
    }
  }

  // ----- every run can be brought to rest -----

  lemma Extend(states: seq<State>, acts: seq<Action>, a: Action) returns (states': seq<State>, acts': seq<Action>)
    requires Run(states, acts) && Enabled(states[|acts|], a)
    ensures Run(states', acts') && acts' == acts + [a] && states' == states + [Apply(states[|acts|], a)]
  {
    hide Enabled, Apply, Initial;
    states', acts' := states + [Apply(states[|acts|], a)], acts + [a];
  }

  lemma {:induction false} Settle(states: seq<State>, acts: seq<Action>)
    returns (states': seq<State>, acts': seq<Action>)
    requires Run(states, acts)
    ensures Run(states', acts') && acts <= acts' && states <= states'
    ensures NothingNew(acts', |acts|, |acts'|) && Quiescent(states'[|acts'|])
    decreases Rank(states[|acts|])
  {
    hide Run, Enabled, Apply, Rank;
    RunLength(states, acts);
    var s := states[|acts|];
    if Quiescent(s) {
      states', acts' := states, acts;
    } else {
      var a: Action :| Enabled(s, a) && !a.ClientSends?;
      RankFalls(s, a);
      var longer, more := Extend(states, acts, a);
      states', acts' := Settle(longer, more);
    }
  }

  // ----- both ways of losing hope happen -----

  /** A client alone that is answered to its latest request is at home, logged in unless that was its first. */
  lemma AloneIsAnswered(states: seq<State>, acts: seq<Action>, c: int)
    returns (states': seq<State>, acts': seq<Action>)
    requires Run(states, acts) && states[|acts|].clients.Keys == {c} && states[|acts|].clients[c].pc.Waiting?
    requires var client := states[|acts|].clients[c];
             !Hopeless(client) && (client.choice.Init? || client.choice.Connect?)
    ensures Run(states', acts') && states'[|acts'|].clients.Keys == {c}
    ensures states'[|acts'|].clients[c].pc.Home?
    ensures states'[|acts'|].clients[c].loggedIn <==> states[|acts|].clients[c].choice.Connect?
  {
    hide Run, Inv, Enabled, Hopeless, Quiescent;
    RunLength(states, acts);
    states', acts' := Settle(states, acts);
    RunLength(states', acts');
    assert states'[|acts|] == states[|acts|];
    AllAnsweredIff(states', acts', |acts|);
    ClientsStayTo(states', acts', |acts|, |acts'|);
    ChoiceStays(states', acts', |acts|, |acts'|, c);
    RunKeepsInv(states', acts', |acts'|);
    AtHomeAgain(states'[|acts'|], c);
  }

  lemma {:induction false} ChoiceStays(states: seq<State>, acts: seq<Action>, i: nat, j: nat, c: int)
    requires Run(states, acts) && i <= j <= |acts| && NothingNew(acts, i, j)
    requires c in states[i].clients && !states[i].clients[c].pc.New?
    ensures c in states[j].clients && states[j].clients[c].choice == states[i].clients[c].choice
    ensures !states[j].clients[c].pc.New?
    decreases j - i
  {
    hide Apply, Enabled;
    if i < j {
      ChoiceStays(states, acts, i, j - 1, c);
      StepsGoOn(states[j - 1], acts[j - 1]);
      if acts[j - 1] == ClientReceives(c) {
        ReceivingEndsWait(states[j - 1], c);
      }
    }
  }

  lemma AtHomeAgain(s: State, c: int)
    requires Inv(s) && c in s.clients && !s.clients[c].pc.Waiting? && !s.clients[c].pc.New?
    requires s.clients[c].choice.Init? || s.clients[c].choice.Connect?
    ensures s.clients[c].pc.Home? && (s.clients[c].loggedIn <==> !s.clients[c].choice.Init?)
  {
    hide QueuesAgree, IdsOk, Scoped, LocalOf;
    Look(s, c);
    assert LocalOk(c, LocalOf(s, c));
  }

  /** A client that has joined the MOM. */
  lemma Joined(c: int) returns (states: seq<State>, acts: seq<Action>)
    requires c > 2
    ensures Run(states, acts) && states[|acts|].clients.Keys == {c}
    ensures states[|acts|].clients[c].pc.Home? && !states[|acts|].clients[c].loggedIn
  {
    var s := FirstState(c);
    states, acts := [s], [];
    states, acts := Asks(states, acts, c, Init);
    states, acts := AloneIsAnswered(states, acts, c);
  }

  lemma FirstState(c: int) returns (s: State)
    requires c > 2
    ensures Initial(s) && s.clients == map[c := Client(New, Init, 0, false)]
  {
    var nodes :=
      {MomUp, RelayUp, Uplink, CineUp, AdminUp, Pool, Hands, AdminDown, CineDown, Downlink, RelayDown, MomDown};
    forall n: Node ensures n in nodes {
      match n
      case MomUp => case RelayUp => case Uplink => case CineUp => case AdminUp => case Pool =>
      case Hands => case AdminDown => case CineDown => case Downlink => case RelayDown => case MomDown =>
    }
    var queues: Queues := map n | n in nodes :: [];
    s := State(queues, map[c := Client(New, Init, 0, false)], map[], Connecting, false, Free, Accepting, map[], {},
               map[], None, map[], map[]);
  }

  lemma Asks(states: seq<State>, acts: seq<Action>, c: int, choice: Choice)
    returns (states': seq<State>, acts': seq<Action>)
    requires Run(states, acts) && c in states[|acts|].clients && MaySend(states[|acts|].clients[c], choice)
    ensures Run(states', acts') && states'[|acts'|].clients.Keys == states[|acts|].clients.Keys
    ensures var client := states[|acts|].clients[c];
            states'[|acts'|].clients[c] == Client(Waiting, choice, client.serial + 1, client.loggedIn)
  {
    var s := states[|acts|];
    SendingWaits(s, c, choice);
    hide Apply, MaySend;
    RunLength(states, acts);
    states', acts' := Extend(states, acts, ClientSends(c, choice));
    StepsGoOn(s, ClientSends(c, choice));
  }

  lemma SendingWaits(s: State, c: int, choice: Choice)
    requires c in s.clients && MaySend(s.clients[c], choice)
    ensures Enabled(s, ClientSends(c, choice))
    ensures var s' := Apply(s, ClientSends(c, choice));
            c in s'.clients && s'.clients[c] == Client(Waiting, choice, s.clients[c].serial + 1, s.clients[c].loggedIn)
  {
    hide Post, Stamp, SendType;
    MessagesOnly();
  }

  /** A request without a login gets between MOM and cinema, where it stays. */
  lemma PrematureHappens(c: int) returns (states: seq<State>, acts: seq<Action>)
    requires c > 2
    ensures Run(states, acts) && Blocked(states[|acts|]) && states[|acts|].wire == Some(c)
  {
    hide Run, Inv, Quiescent, Blocked;
    states, acts := Joined(c);
    states, acts := Asks(states, acts, c, Request);
    RunLength(states, acts);
    var i := |acts|;
    var before := states;
    states, acts := Settle(states, acts);
    RunLength(states, acts);
    assert states[i] == before[i];
    HopelessForEver(states, acts, i, |acts|, c);
    ClientsStayTo(states, acts, i, |acts|);
    RunKeepsInv(states, acts, |acts|);
    BlockedIffPremature(states[|acts|]);
    var d := BlockerIsHopeless(states[|acts|]);
  }

  /** A client that is logged in logs in again, and waits for ever. */
  lemma SecondLoginHappens(c: int) returns (states: seq<State>, acts: seq<Action>)
    requires c > 2
    ensures Run(states, acts) && c in states[|acts|].clients
    ensures Hopeless(states[|acts|].clients[c]) && Again(states[|acts|].clients[c])
  {
    hide Run;
    states, acts := Joined(c);
    states, acts := Asks(states, acts, c, Connect);
    states, acts := AloneIsAnswered(states, acts, c);
    states, acts := Asks(states, acts, c, Connect);
  }
}
