/**
 What the viewers of a room have last been shown, when requests are served one at a time: the
 answer to a seats request, then the updates other users' selections cause (src/admin/admin.cpp).
 */
module Views {
  import opened Bytes
  import opened Messages
  import opened Ledger
  import opened Handlers
  import opened Serving
  import opened Orderly

  /** The last picture of each room sent to each user. */
  type Screens = map<Viewing, seq<byte>>

  function AfterUpdates(screens: Screens, sent: seq<Update>): Screens {
    if sent == [] then screens
    else
      var u := sent[|sent| - 1];
      AfterUpdates(screens, sent[..|sent| - 1])[Viewing(u.to, u.room) := u.statuses]
  }

  function AfterReply(screens: Screens, user: int, request: Request, reply: Reply): Screens {
    if request.ViewSeats? && reply.SeatStatuses? then
      screens[Viewing(user, request.room) := reply.statuses]
    else screens
  }

  /** One request served for one user. */
  datatype Service = Service(user: int, request: Request, reply: Reply, sent: seq<Update>)

  function AfterService(screens: Screens, x: Service): Screens {
    AfterReply(AfterUpdates(screens, x.sent), x.user, x.request, x.reply)
  }

  ghost predicate Serves(t: Tables, x: Service, t': Tables) {
    && (x.request.Select? ==> SelectAllowed(t, x.user, x.request.seat))
    && Served(t, x.user, x.request, x.reply, t', x.sent)
  }

  /** Every reserved seat of the room is shown as occupied. */
  predicate Covers(statuses: seq<byte>, t: Tables, room: int) {
    && room in t.seats && |statuses| == |t.seats[room]|
    && forall i :: 0 <= i < |statuses| && Place(room, i + 1) in t.rows ==> statuses[i] == SEAT_STATUS_OCCUPIED
  }

  /** Every registered viewer's last picture covers the reservations. */
  ghost predicate Sound(t: Tables, screens: Screens) {
    forall v :: v in t.viewing ==> v in screens && Covers(screens[v], t, v.room)
  }

  /** Every registered viewer's last picture is right, seat by seat. */
  ghost predicate Exact(t: Tables, screens: Screens) {
    forall v :: v in t.viewing ==> v in screens && Pictures(screens[v], t, v.room)
  }

  /** After the updates of a selection, its room's viewers have the new picture, others what they had. */
  lemma {:induction false} UpdatesReach(screens: Screens, sent: seq<Update>, t: Tables, room: int, v: Viewing)
    requires forall u :: u in sent ==> u.room == room && Pictures(u.statuses, t, room)
    ensures v.room == room && (exists u :: u in sent && u.to == v.user) ==>
              v in AfterUpdates(screens, sent) && Pictures(AfterUpdates(screens, sent)[v], t, room)
    ensures v.room != room || (forall u :: u in sent ==> u.to != v.user) ==>
              (v in AfterUpdates(screens, sent) <==> v in screens)
              && (v in screens ==> AfterUpdates(screens, sent)[v] == screens[v])
  {
    if sent != [] {
      var n := |sent| - 1;
      UpdatesReach(screens, sent[..n], t, room, v);
      assert sent[n] in sent;
      assert forall u :: u in sent <==> u in sent[..n] || u == sent[n];
    }
  }

  lemma ServedKeepsConsistent(t: Tables, x: Service, t': Tables)
    requires Consistent(t) && Serves(t, x, t')
    ensures Consistent(t')
  {
    if x.request.Select? {
      var room :| SelectServed(t, x.user, x.request.seat, x.reply, t', x.sent, room);
      SelectConsistentIff(t, x.user, x.request.seat, x.reply, t', x.sent, room);
    }
  }

  /** A selection leaves the tables consistent exactly if the seat it has reserved is one of the room's. */
  lemma SelectConsistentIff(t: Tables, user: int, seat: int, reply: Reply, t': Tables, sent: seq<Update>, room: int)
    requires Consistent(t) && SelectServed(t, user, seat, reply, t', sent, room)
    ensures Consistent(t') <==> (reply == Selected(true) ==> InRange(t, Place(room, seat)))
  {
    var place := Place(room, seat);
    if reply == Selected(true) {
      assert place in t'.rows;
      assert forall k :: InRange(t', k) <==> InRange(t, k);
    }
  }

  /** Users who have their id are all that rows and viewings are ever of. */
  lemma ServedKeepsKnown(t: Tables, user: int, request: Request, reply: Reply, t': Tables, sent: seq<Update>)
    requires UsersKnown(t) && Served(t, user, request, reply, t', sent)
    requires user <= t.lastUser || request.Register?
    ensures UsersKnown(t') && t.lastUser <= t'.lastUser
  {
  }

  /** So an id just given owns nothing and views no room. */
  lemma NewIdOwnsNothing(t: Tables, user: int, reply: Reply, t': Tables, sent: seq<Update>)
    requires UsersKnown(t) && Served(t, user, Register, reply, t', sent)
    ensures reply == Registered(t'.lastUser) && RowsOf(t', t'.lastUser) == map[] && RoomsOf(t', t'.lastUser) == {}
  {
  }

  lemma ReservedShownToViewers(t: Tables, user: int, place: Place, t': Tables, sent: seq<Update>,
                               screens: Screens)
    requires Reserved(t, user, place, t', sent)
    ensures forall v :: v in t'.viewing ==>
              var after := AfterUpdates(screens, sent);
              if v.room == place.room then v in after && Pictures(after[v], t', v.room)
              else (v in after <==> v in screens) && (v in screens ==> after[v] == screens[v])
  {
    var tos := seq(|sent|, i requires 0 <= i < |sent| => sent[i].to);
    forall v | v in t'.viewing
      ensures var after := AfterUpdates(screens, sent);
              if v.room == place.room then v in after && Pictures(after[v], t', v.room)
              else (v in after <==> v in screens) && (v in screens ==> after[v] == screens[v])
    {
      UpdatesReach(screens, sent, t', place.room, v);
      if v.room == place.room {
        assert v.user in WatchersOf(t', place.room);
        var i :| 0 <= i < |tos| && tos[i] == v.user;
        assert sent[i] in sent && sent[i].to == v.user;
      }
    }
  }

  lemma SelectKeepsSound(t: Tables, x: Service, t': Tables, screens: Screens)
    requires Consistent(t) && Serves(t, x, t') && x.request.Select?
    ensures Sound(t, screens) ==> Sound(t', AfterService(screens, x))
    ensures Exact(t, screens) ==> Exact(t', AfterService(screens, x))
  {
    var room :| SelectServed(t, x.user, x.request.seat, x.reply, t', x.sent, room);
    var place := Place(room, x.request.seat);
    if room != 0 && Admits(t, place) {
      ReservedShownToViewers(t, x.user, place, t', x.sent, screens);
    }
  }

  /** Serving a request leaves no viewer with a reserved seat shown as free. */
  lemma ServedKeepsSound(t: Tables, x: Service, t': Tables, screens: Screens)
    requires Consistent(t) && Sound(t, screens) && Serves(t, x, t')
    ensures Sound(t', AfterService(screens, x))
  {
    if x.request.Select? {
      SelectKeepsSound(t, x, t', screens);
    }
  }

  /** A user leaves a seat behind when an unpaid reservation of the user is removed. */
  predicate LeavesSeatIn(t: Tables, user: int, room: int) {
    exists k :: k in t.rows && k.room == room && t.rows[k].user == user && !t.rows[k].paid
  }

  /**
   The pictures stay right through every request but an EXIT; an EXIT keeps them right exactly
   when nobody is viewing a room in which the user leaves a seat, since no update tells them.
   */
  lemma ServedKeepsExact(t: Tables, x: Service, t': Tables, screens: Screens)
    requires Consistent(t) && Exact(t, screens) && Serves(t, x, t')
    ensures !x.request.Exit? ==> Exact(t', AfterService(screens, x))
    ensures x.request.Exit? ==>
      (Exact(t', AfterService(screens, x)) <==>
       forall v :: v in t.viewing ==> !LeavesSeatIn(t, x.user, v.room))
  {
    if x.request.Select? {
      SelectKeepsSound(t, x, t', screens);
    } else if x.request.Exit? {
      forall v | v in t.viewing
        ensures Pictures(screens[v], t', v.room) <==> !LeavesSeatIn(t, x.user, v.room)
      {
        ExitAndPicture(t, x.user, t', screens[v], v.room);
      }
    }
  }

  lemma ExitAndPicture(t: Tables, user: int, t': Tables, statuses: seq<byte>, room: int)
    requires Consistent(t) && LoggedOut(t, user, t') && Pictures(statuses, t, room)
    ensures Pictures(statuses, t', room) <==> !LeavesSeatIn(t, user, room)
  {
    if LeavesSeatIn(t, user, room) {
      var k :| k in t.rows && k.room == room && t.rows[k].user == user && !t.rows[k].paid;
      assert k == Place(room, (k.seat - 1) + 1) && k !in t'.rows;
      assert statuses[k.seat - 1] == SEAT_STATUS_OCCUPIED;
    }
  }

  /** A user leaves with an unpaid seat, and the other viewer goes on seeing it occupied. */
  lemma ExitMisleads() returns (t: Tables, x: Service, t': Tables, screens: Screens)
    ensures Consistent(t) && Exact(t, screens) && Serves(t, x, t') && x.request.Exit?
    ensures !Exact(t', AfterService(screens, x))
  {
    var place := Place(1, 1);
    t := Tables(4, [1], map[1 := [1]], {3, 4}, {Viewing(4, 1)}, map[place := Row(3, false)]);
    x, screens := Service(3, Exit, NoReply, []), map[Viewing(4, 1) := [SEAT_STATUS_OCCUPIED]];
    t' := RemoveUserUnpaid(LogoutUser(t, 3), 3);
    assert place in t.rows && LeavesSeatIn(t, 3, 1);
    assert Viewing(4, 1) in t.viewing;
    ServedKeepsExact(t, x, t', screens);
  }

  // ----- whole histories -----

  ghost predicate History(states: seq<Tables>, services: seq<Service>) {
    && |states| == |services| + 1 && Consistent(states[0]) && states[0].viewing == {}
    && forall i :: 0 <= i < |services| ==> Serves(states[i], services[i], states[i + 1])
  }

  function AfterAll(services: seq<Service>): Screens {
    if services == [] then map[] else AfterService(AfterAll(services[..|services| - 1]), services[|services| - 1])
  }

  /** Through any history of requests, no registered viewer takes a reserved seat for a free one. */
  lemma {:induction false} ViewersAreNeverMisled(states: seq<Tables>, services: seq<Service>)
    requires History(states, services)
    ensures Consistent(states[|services|]) && Sound(states[|services|], AfterAll(services))
    decreases |services|
  {
    hide Serves, Consistent, AfterService;
    if services == [] {
    } else {
      var n := |services| - 1;
      ViewersAreNeverMisled(states[..n + 1], services[..n]);
      ServedKeepsConsistent(states[n], services[n], states[n + 1]);
      ServedKeepsSound(states[n], services[n], states[n + 1], AfterAll(services[..n]));
    }
  }
}
