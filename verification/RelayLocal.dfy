/**
 One step of the relay, seen by the client whose message moves.
 */
module RelayLocal {
  import opened TypedQueue
  import opened Wrappers
  import opened Relay
  import opened RelayInvariant

  lemma MessageMeansWaiting(c: int, l: Local)
    requires LocalOk(c, l) && l.main.Some?
    ensures l.client.pc.Waiting? && WaitingOk(c, l, l.main.value)
  {
    hide WaitingOk, NoticeOk;
  }

  lemma NoticeMeansLeft(c: int, l: Local)
    requires LocalOk(c, l) && l.notice.Some?
    ensures l.user.Some? && l.client.choice.Leave? && !l.registering
    ensures l.notice.value.node.AdminUp? || l.notice.value.node.Pool?
    ensures l.notice.value.node.AdminUp? ==> l.notice.value.env.mtype == ADMIN
    ensures l.notice.value.env.body.choice.Leave? && l.notice.value.env.body.tag == Tag(c, l.client.serial, true)
    ensures l.notice.value.env.body.clientId == l.user.value
    ensures l.main.Some? ==> !WithAdmin(l.main.value.node) && !l.main.value.node.CineUp?
  {
  }

  lemma SendsLocal(c: int, l: Local, choice: Choice)
    requires c > 2 && LocalOk(c, l) && MaySend(l.client, choice)
    ensures l.main == None && l.notice == None
    ensures var serial := l.client.serial + 1;
            var id := if choice.Init? then UNDEFINED else c;
            var note := Blank(choice, IdIn(choice, c), Tag(c, serial, false)).(
              messageType := if choice.Init? then MOM_REQUEST else if choice.Connect? then CINEMA_REQUEST else 0);
            LocalOk(c, l.(client := Client(Waiting, choice, serial, l.client.loggedIn),
                          main := Some(Spot(MomUp, Envelope(SendType(id, note), Stamp(id, note))))))
  {
  }

  lemma MainForksLocal(c: int, l: Local)
    requires LocalOk(c, l) && l.forking
    ensures LocalOk(c, l.(forking := false, fork := Some(Fork(Serving, UNDEFINED))))
    ensures l.fork == None
  {
  }

  /** Who may be taken at MomUp by type. */
  lemma MomUpType(c: int, l: Local, env: Envelope<Note>)
    requires LocalOk(c, l) && l.main == Some(Spot(MomUp, env))
    ensures env.mtype == if l.client.choice.Init? then MOM_REQUEST else c
    ensures l.client.choice.Init? ==> env.body.id == c && !l.forking
    ensures env.body.tag == Tag(c, l.client.serial, false)
  {
  }

  lemma MainAcceptsLocal(c: int, l: Local, env: Envelope<Note>)
    requires c > 2 && LocalOk(c, l) && l.main == Some(Spot(MomUp, env)) && env.mtype == MOM_REQUEST
    ensures var note := Stamp(c, Blank(Accepted, c % Messages.MAX_CLIENTS_HOST, env.body.tag));
            LocalOk(c, l.(main := Some(Spot(MomDown, Envelope(c, note))), forking := true))
  {
  }

  lemma ForkUpLocal(c: int, l: Local, env: Envelope<Note>, f: Fork)
    requires c > 2 && LocalOk(c, l) && l.main == Some(Spot(MomUp, env)) && env.mtype == c
    requires l.fork == Some(f) && f.pc.Serving? && (l.user.Some? ==> l.user.value > 2)
    ensures LocalOk(c, l.(main := Some(Spot(RelayUp, Envelope(SendType(f.cinemaId, env.body),
                                                              Stamp(f.cinemaId, env.body)))),
                          fork := Some(f.(pc := Awaiting))))
  {
  }

  lemma MomNetUpLocal(c: int, l: Local, env: Envelope<Note>)
    requires LocalOk(c, l) && l.main == Some(Spot(RelayUp, env))
    ensures LocalOk(c, l.(main := Some(Spot(Uplink, Envelope(1, env.body))), onWire := true, cineNet := Free))
    ensures env.body.tag == Tag(c, l.client.serial, false)
  {
  }

  lemma CineNetUpLocal(c: int, l: Local, env: Envelope<Note>)
    requires c > 2 && (l.user.Some? ==> l.user.value > 2)
    requires LocalOk(c, l) && l.main == Some(Spot(Uplink, env))
    ensures l.onWire && l.cineNet.Free? && env.body.tag == Tag(c, l.client.serial, false)
    ensures LocalOk(c, l.(main := Some(Spot(CineUp, Envelope(SendType(UNDEFINED, env.body),
                                                             Stamp(UNDEFINED, env.body)))),
                          cineNet := Busy(AwaitedType(env.body))))
  {
  }

  /** Who may be taken at CineUp by type. */
  lemma CineUpType(c: int, l: Local, env: Envelope<Note>)
    requires c > 2 && (l.user.Some? ==> l.user.value > 2)
    requires LocalOk(c, l) && l.main == Some(Spot(CineUp, env))
    ensures env.mtype == CINEMA_REQUEST <==> l.client.choice.Connect?
    ensures !l.client.choice.Connect? ==> if Premature(l.client) then env.mtype == c else l.user == Some(env.mtype)
    ensures l.client.choice.Connect? ==> env.body.id == c && !l.registering
    ensures env.body.tag == Tag(c, l.client.serial, false) && l.onWire && l.notice == None
    ensures env.body.choice == l.client.choice && !l.forking
  {
  }

  lemma TakerTakesLocal(c: int, l: Local, env: Envelope<Note>)
    requires c > 2 && LocalOk(c, l) && l.main == Some(Spot(CineUp, env)) && l.client.choice.Connect?
    ensures var note := Stamp(ADMIN, Blank(Accepted, 0, env.body.tag).(clientId := c));
            LocalOk(c, l.(main := Some(Spot(AdminUp, Envelope(ADMIN, note))), registering := true))
  {
  }

  lemma AdminForksLocal(c: int, l: Local, env: Envelope<Note>)
    requires LocalOk(c, l) && l.main == Some(Spot(AdminUp, env))
    ensures LocalOk(c, l.(main := Some(Spot(Pool, Envelope(1, env.body)))))
    ensures env.mtype == ADMIN && env.body.tag == Tag(c, l.client.serial, false)
  {
  }

  lemma AdminForksNotice(c: int, l: Local, env: Envelope<Note>)
    requires LocalOk(c, l) && l.notice == Some(Spot(AdminUp, env))
    ensures LocalOk(c, l.(notice := Some(Spot(Pool, Envelope(1, env.body)))))
  {
  }

  lemma NoticeDone(c: int, l: Local)
    requires LocalOk(c, l)
    ensures LocalOk(c, l.(notice := None))
  {
  }

  lemma PoolNote(c: int, l: Local, env: Envelope<Note>)
    requires LocalOk(c, l) && l.main == Some(Spot(Pool, env))
    ensures env.body.tag == Tag(c, l.client.serial, false)
    ensures l.client.choice.Connect? || l.client.choice.Request?
    ensures l.client.choice.Connect? ==> env.body.choice.Accepted? && env.body.clientId == c && l.registering
    ensures l.client.choice.Connect? ==>
              if l.client.loggedIn then l.user.Some? && l.again == None else l.user == None && NoListener(l)
    ensures l.client.choice.Request? ==> env.body.choice.Request? && l.user == Some(env.body.clientId)
  {
  }

  /** A registration ends: the client has a cinema id. */
  lemma RegisteredLocal(c: int, l: Local, env: Envelope<Note>, user: int)
    requires c > 2 && LocalOk(c, l) && l.main == Some(Spot(Pool, env)) && l.client.choice.Connect?
    ensures var note := Stamp(c, Note(0, c, Accepted, user, env.body.tag));
            var l1 := l.(main := Some(Spot(AdminDown, Envelope(c, note))));
            if l.client.loggedIn then l.user.Some? && LocalOk(c, l1.(again := Some(user)))
            else l.user == None && LocalOk(c, l1.(user := Some(user), listener := None, spawning := false))
  {
  }

  lemma AnsweredLocal(c: int, l: Local, env: Envelope<Note>)
    requires LocalOk(c, l) && l.main == Some(Spot(Pool, env)) && l.client.choice.Request?
    requires l.user.Some? && l.user.value > 2
    ensures var u := l.user.value;
            var note := Stamp(u, Note(0, u, Response, 0, env.body.tag));
            LocalOk(c, l.(main := Some(Spot(AdminDown, Envelope(u, note)))))
  {
  }

  /** Who may be taken at AdminDown by type. */
  lemma AdminDownType(c: int, l: Local, env: Envelope<Note>)
    requires LocalOk(c, l) && l.main == Some(Spot(AdminDown, env))
    ensures env.body.tag == Tag(c, l.client.serial, false) && l.user.Some?
    ensures l.client.choice.Connect? <==> l.registering
    ensures l.registering ==> env.mtype == c && Granted(l) == Some(env.body.id)
    ensures l.registering && !l.client.loggedIn ==> NoListener(l)
    ensures !l.registering ==> l.user == Some(env.mtype) && l.listener == Some(AwaitingAdmin)
    ensures l.notice == None
  {
  }

  lemma TakerConfirmsLocal(c: int, l: Local, env: Envelope<Note>)
    requires c > 2 && LocalOk(c, l) && l.main == Some(Spot(AdminDown, env)) && l.registering
    requires l.client.loggedIn ==> !l.spawning
    ensures var note := Stamp(c, Blank(Accepted, env.body.id, env.body.tag));
            LocalOk(c, l.(main := Some(Spot(CineDown, Envelope(c, note))), registering := false,
                          spawning := !l.client.loggedIn))
  {
  }

  lemma ListenerAnswersLocal(c: int, l: Local, env: Envelope<Note>)
    requires LocalOk(c, l) && l.main == Some(Spot(AdminDown, env)) && !l.registering
    requires l.user.Some? && l.user.value > 2
    ensures var u := l.user.value;
            LocalOk(c, l.(main := Some(Spot(CineDown, Envelope(u, Stamp(u, env.body)))),
                          listener := Some(Listening)))
  {
  }

  lemma SpawnsLocal(c: int, l: Local)
    requires LocalOk(c, l) && l.spawning
    ensures LocalOk(c, l.(spawning := false, listener := Some(Listening)))
  {
  }

  lemma ListenerAsksLocal(c: int, l: Local, env: Envelope<Note>)
    requires LocalOk(c, l) && l.main == Some(Spot(CineUp, env)) && l.client.choice.Request?
    requires l.user.Some? && l.user.value > 2 && l.listener == Some(Listening)
    ensures var note := Stamp(ADMIN, env.body.(clientId := l.user.value));
            LocalOk(c, l.(main := Some(Spot(AdminUp, Envelope(ADMIN, note))), listener := Some(AwaitingAdmin)))
  {
  }

  lemma ListenerRefusesLocal(c: int, l: Local, env: Envelope<Note>)
    requires LocalOk(c, l) && l.main == Some(Spot(CineUp, env)) && l.client.choice.Other?
    requires l.user.Some? && l.user.value > 2 && l.listener == Some(Listening)
    ensures var u := l.user.value;
            LocalOk(c, l.(main := Some(Spot(CineDown, Envelope(u, Stamp(u, Blank(Invalid, 0, env.body.tag)))))))
  {
  }

  lemma ListenerTakesLeaveLocal(c: int, l: Local, env: Envelope<Note>)
    requires LocalOk(c, l) && l.main == Some(Spot(CineUp, env)) && l.client.choice.Leave?
    requires l.user.Some? && l.user.value > 2 && l.listener == Some(Listening)
    ensures var u := l.user.value;
            var notice := Stamp(ADMIN, env.body.(clientId := u, tag := env.body.tag.(notice := true)));
            LocalOk(c, l.(main := Some(Spot(Hands, Envelope(u, Blank(Leave, 0, env.body.tag)))),
                          notice := Some(Spot(AdminUp, Envelope(ADMIN, notice))),
                          listener := Some(Leaving)))
  {
  }

  /** Who may be taken at Hands by type. */
  lemma HandsType(c: int, l: Local, env: Envelope<Note>)
    requires LocalOk(c, l) && l.main == Some(Spot(Hands, env))
    ensures l.user == Some(env.mtype) && env.body.tag == Tag(c, l.client.serial, false)
  {
  }

  lemma ListenerLeavesLocal(c: int, l: Local, env: Envelope<Note>)
    requires LocalOk(c, l) && l.main == Some(Spot(Hands, env)) && l.user.Some? && l.user.value > 2
    ensures var u := l.user.value;
            LocalOk(c, l.(main := Some(Spot(CineDown, Envelope(u, Stamp(u, env.body)))), listener := Some(Finished)))
  {
  }

  /** Who may be taken on the way back by type. */
  lemma ReturnType(c: int, l: Local, n: Node, env: Envelope<Note>)
    requires LocalOk(c, l) && l.main == Some(Spot(n, env)) && OnReturn(n)
    requires l.user.Some? ==> l.user.value > 2
    ensures env.body.tag == Tag(c, l.client.serial, false)
    ensures n.CineDown? || n.RelayDown? ==> env.mtype == RouteId(c, l.client.choice, l)
    ensures n.MomDown? ==> env.mtype == c
    ensures l.onWire <==> n.CineDown? || n.Downlink?
    ensures n.CineDown? ==> l.cineNet == Busy(env.mtype)
    ensures n.Downlink? ==> l.cineNet == Free
    ensures n.RelayDown? ==> l.fork.Some? && !l.forking && l.fork.value.pc.Awaiting?
                             && (!Again(l.client) ==> ReplyTypeOf(l.fork.value, c) == env.mtype)
  {
  }

  lemma CineNetDownLocal(c: int, l: Local, env: Envelope<Note>)
    requires LocalOk(c, l) && l.main == Some(Spot(CineDown, env))
    ensures LocalOk(c, l.(main := Some(Spot(Downlink, Envelope(1, env.body))), cineNet := Free))
  {
  }

  lemma MomNetDownLocal(c: int, l: Local, env: Envelope<Note>)
    requires c > 2 && (l.user.Some? ==> l.user.value > 2)
    requires LocalOk(c, l) && l.main == Some(Spot(Downlink, env))
    ensures LocalOk(c, l.(main := Some(Spot(RelayDown, Envelope(SendType(UNDEFINED, env.body),
                                                                Stamp(UNDEFINED, env.body)))),
                          onWire := false, cineNet := Free))
  {
  }

  lemma ForkDownLocal(c: int, l: Local, env: Envelope<Note>, f: Fork)
    requires c > 2 && (l.user.Some? ==> l.user.value > 2)
    requires LocalOk(c, l) && l.main == Some(Spot(RelayDown, env)) && l.fork == Some(f) && !Again(l.client)
    ensures var fork := Fork(if env.body.choice.Leave? then Ended else Serving,
                             if env.body.choice.Accepted? then env.body.id else f.cinemaId);
            LocalOk(c, l.(main := Some(Spot(MomDown, Envelope(c, Stamp(c, env.body)))), fork := Some(fork)))
  {
  }

  lemma ReceivesLocal(c: int, l: Local, env: Envelope<Note>)
    requires LocalOk(c, l) && l.main == Some(Spot(MomDown, env))
    ensures env.body.tag == Tag(c, l.client.serial, false) && env.body.choice == AnswerTo(l.client.choice)
    ensures LocalOk(c, l.(main := None,
                          client := l.client.(pc := if env.body.choice.Leave? then Closed else Home,
                                              loggedIn := l.client.loggedIn
                                                          || (l.client.choice.Connect? && env.body.choice.Accepted?))))
  {
  }
}
