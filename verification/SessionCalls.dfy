/**
 The calls of a client program (src/middleware/client_interface.cpp) as steps of its session: what
 they do to its own list of reservations and to the tables, one call at a time and over whole sessions
 with other users' handlers in between.
 */
module SessionCalls {
  import opened Messages
  import opened Wrappers
  import opened Ledger
  import opened Handlers
  import opened Serving
  import opened Orderly
  import opened Admin
  import opened Views

  /** What the client keeps of its session. */
  datatype Standing = Standing(connected: bool, list: seq<Place>)

  /** A call with what it told the caller: whether seats were shown, the seat reserved, the payment accepted. */
  datatype Call =
    | GetRooms
    | GetSeats(room: int, shown: bool)
    | ReserveSeat(seat: Seat, ok: bool)
    | PaySeats(ok: bool)
    | EndMom

  function RequestOf(call: Call, list: seq<Place>): Request {
    match call
    case GetRooms => Rooms
    case GetSeats(room, _) => ViewSeats(room)
    case ReserveSeat(seat, _) => Select(seat.id)
    case PaySeats(_) => Pay(list)
    case EndMom => Exit
  }

  /** The call tells its caller of a success. */
  predicate Succeeds(call: Call) {
    (call.GetSeats? && call.shown) || (call.ReserveSeat? && call.ok) || (call.PaySeats? && call.ok)
  }

  predicate Granted(call: Call, reply: Reply) {
    match call
    case GetSeats(_, _) => reply.SeatStatuses?
    case ReserveSeat(_, _) => reply == Selected(true)
    case PaySeats(_) => reply == Paid
    case _ => false
  }

  function After(me: Standing, call: Call): Standing {
    match call
    case ReserveSeat(seat, ok) => if ok then me.(list := me.list + [Place(seat.roomId, seat.id)]) else me
    case EndMom => me.(connected := false)
    case _ => me
  }

  /** A call: nothing without a connection, else the request is served, or the cinema has ended the session. */
  ghost predicate Performs(t: Tables, user: int, me: Standing, call: Call, t': Tables, me': Standing) {
    if !me.connected then t' == t && me' == me && !Succeeds(call)
    else
      || (LoggedOut(t, user, t') && me' == me.(connected := false) && !Succeeds(call))
      || (me' == After(me, call) && exists reply, sent ::
            Served(t, user, RequestOf(call, me.list), reply, t', sent) && (Succeeds(call) <==> Granted(call, reply)))
  }

  lemma ServedPerforms(t: Tables, user: int, me: Standing, call: Call, reply: Reply, t': Tables, sent: seq<Update>)
    requires me.connected && Served(t, user, RequestOf(call, me.list), reply, t', sent)
    requires Succeeds(call) <==> Granted(call, reply)
    ensures Performs(t, user, me, call, t', After(me, call))
  {
    hide Served, After, Granted, Succeeds, RequestOf, LoggedOut;
  }

  // ----- the list and the rows -----

  /** `list` names each row of the user once and nothing else. */
  ghost predicate ListsRows(list: seq<Place>, t: Tables, user: int) {
    && (forall i, j :: 0 <= i < j < |list| ==> list[i] != list[j])
    && forall k :: k in list <==> Owns(t, user, k)
  }

  /** The client's list agrees with the ledger, as long as the session lasts. */
  ghost predicate Agrees(t: Tables, user: int, me: Standing) {
    me.connected ==> ListsRows(me.list, t, user)
  }

  /** The agreement is about the user's own rows: what others' handlers do cannot break it. */
  lemma OnlyOwnRowsMatter(list: seq<Place>, t: Tables, t': Tables, user: int)
    requires ListsRows(list, t, user) && RowsOf(t', user) == RowsOf(t, user)
    ensures ListsRows(list, t', user)
  {
    forall k ensures Owns(t', user, k) <==> Owns(t, user, k) {
      assert Owns(t, user, k) <==> k in RowsOf(t, user);
      assert Owns(t', user, k) <==> k in RowsOf(t', user);
    }
  }

  /** One more row and one more entry: the list is still right exactly when they are the same place. */
  lemma ReservedListed(list: seq<Place>, t: Tables, user: int, row: Place, entry: Place, t': Tables)
    requires ListsRows(list, t, user) && row !in t.rows && t'.rows == t.rows[row := Row(user, false)]
    ensures ListsRows(list + [entry], t', user) <==> row == entry
  {
    assert row !in list;
    if row != entry {
      assert row !in list + [entry] && Owns(t', user, row);
    } else {
      forall k ensures k in list + [entry] <==> Owns(t', user, k) {
      }
    }
  }

  // ----- one call -----

  function RoomsAfter(rooms: set<int>, call: Call): set<int> {
    match call
    case GetSeats(room, shown) => if shown then rooms + {room} else rooms
    case ReserveSeat(_, ok) => if ok then {} else rooms
    case _ => rooms
  }

  /** A successful GetSeats adds a room to those the user is viewing, a successful ReserveSeat ends all viewing. */
  lemma RoomsViewed(t: Tables, user: int, me: Standing, call: Call, t': Tables, me': Standing)
    requires Performs(t, user, me, call, t', me')
    ensures RoomsOf(t', user) == RoomsAfter(RoomsOf(t, user), call)
  {
    if me.connected && !LoggedOut(t, user, t') {
      var reply, sent :| Served(t, user, RequestOf(call, me.list), reply, t', sent)
                         && (Succeeds(call) <==> Granted(call, reply));
      RoomsServed(t, user, RequestOf(call, me.list), reply, t', sent);
    } else if me.connected {
      assert t'.viewing == t.viewing;
    }
  }

  lemma RoomsServed(t: Tables, user: int, request: Request, reply: Reply, t': Tables, sent: seq<Update>)
    requires Served(t, user, request, reply, t', sent)
    ensures RoomsOf(t', user) == if request.ViewSeats? && reply.SeatStatuses? then RoomsOf(t, user) + {request.room}
                                 else if request.Select? && reply == Selected(true) then {} else RoomsOf(t, user)
  {
    match request
    case ViewSeats(room) =>
      if reply.SeatStatuses? {
        assert Viewing(user, room) in t'.viewing;
        assert forall v :: v in t'.viewing <==> v in t.viewing || v == Viewing(user, room);
      }
    case _ =>
  }

  lemma StaysConsistent(t: Tables, user: int, me: Standing, call: Call, t': Tables, me': Standing)
    requires Performs(t, user, me, call, t', me') && Consistent(t)
    requires me.connected && call.ReserveSeat? ==> SelectAllowed(t, user, call.seat.id)
    ensures Consistent(t')
  {
    if me.connected && LoggedOut(t, user, t') {
      ServedKeepsConsistent(t, Service(user, Exit, NoReply, []), t');
    } else if me.connected {
      var reply, sent :| Served(t, user, RequestOf(call, me.list), reply, t', sent)
                         && (Succeeds(call) <==> Granted(call, reply));
      ServedKeepsConsistent(t, Service(user, RequestOf(call, me.list), reply, sent), t');
    }
  }

  /** Wherever the database may put the reservation, it is the room the caller names. */
  predicate NamesRoom(t: Tables, user: int, seat: Seat) {
    forall room :: room in RoomsOf(t, user) && room != 0 && Admits(t, Place(room, seat.id)) ==> room == seat.roomId
  }

  lemma CallKeepsAgreement(t: Tables, user: int, me: Standing, call: Call, t': Tables, me': Standing)
    requires Performs(t, user, me, call, t', me') && Agrees(t, user, me)
    requires call.ReserveSeat? ==> NamesRoom(t, user, call.seat)
    ensures Agrees(t', user, me')
  {
    if me'.connected {
      var reply, sent :| Served(t, user, RequestOf(call, me.list), reply, t', sent)
                         && (Succeeds(call) <==> Granted(call, reply));
      if call.ReserveSeat? {
        var room :| SelectServed(t, user, call.seat.id, reply, t', sent, room);
        if call.ok {
          ReservedListed(me.list, t, user, Place(room, call.seat.id), Place(call.seat.roomId, call.seat.id), t');
        }
      } else {
        assert forall k :: Owns(t', user, k) <==> Owns(t, user, k);
      }
    }
  }

  // ----- every outcome the database may choose -----

  lemma {:induction false} Listing(s: set<int>) returns (xs: seq<int>)
    ensures Lists(xs, s)
  {
    if s == {} {
      xs := [];
    } else {
      Occupied(s);
      var x :| x in s;
      var rest := s - {x};
      xs := Listing(rest);
      xs := xs + [x];
    }
  }

  /** In any of the rooms the user is viewing the reservation may be made, if the seat is to be had there. */
  lemma MayReserveIn(t: Tables, user: int, list: seq<Place>, seat: Seat, room: int) returns (t': Tables)
    requires Consistent(t) && room in RoomsOf(t, user) && room != 0 && Admits(t, Place(room, seat.id))
    requires SelectSafe(t, user, seat.id)
    ensures var me := Standing(true, list);
            Performs(t, user, me, ReserveSeat(seat, true), t', After(me, ReserveSeat(seat, true)))
    ensures t'.rows == t.rows[Place(room, seat.id) := Row(user, false)]
  {
    var place := Place(room, seat.id);
    t' := RemoveUserInRoom(InsertReservation(t, user, place), user);
    var others := WatchersOf(t', room);
    assert others == WatchersOf(RemoveUserInRoom(t, user), room);
    var watchers := Listing(others);
    var sent: seq<Update> := [];
    if watchers != [] {
      var watcher := watchers[0];
      assert watcher in watchers && watcher in others;
      assert Consistent(t');
      var taken := Listing(TakenIn(t', room));
      TakenAreSeats(t', room, taken);
      var statuses := Marked(|t'.seats[room]|, taken);
      sent := seq(|watchers|, i requires 0 <= i < |watchers| =>
        Update(watchers[i], room, SeatsOf(t', room), statuses, 0));
    }
    SentToTells(sent, watchers, t', room);
    assert SelectServed(t, user, seat.id, Selected(true), t', sent, room);
    assert Served(t, user, Select(seat.id), Selected(true), t', sent);
    ServedPerforms(t, user, Standing(true, list), ReserveSeat(seat, true), Selected(true), t', sent);
  }

  /**
   Before the call the caller can tell: list and ledger agree after `reserve_seat` whatever the database
   does, if and only if the seat names the room wherever it is to be had among the rooms the session views.
   */
  lemma ReserveAgreesIff(t: Tables, user: int, list: seq<Place>, seat: Seat)
    requires Consistent(t) && ListsRows(list, t, user) && SelectSafe(t, user, seat.id)
    ensures (forall ok, t', me' :: Performs(t, user, Standing(true, list), ReserveSeat(seat, ok), t', me') ==>
               Agrees(t', user, me'))
            <==> NamesRoom(t, user, seat)
  {
    var me := Standing(true, list);
    if NamesRoom(t, user, seat) {
      forall ok, t', me' | Performs(t, user, me, ReserveSeat(seat, ok), t', me') ensures Agrees(t', user, me') {
        CallKeepsAgreement(t, user, me, ReserveSeat(seat, ok), t', me');
      }
    } else {
      var room :| room in RoomsOf(t, user) && room != 0 && Admits(t, Place(room, seat.id)) && room != seat.roomId;
      var t' := MayReserveIn(t, user, list, seat, room);
      ReservedListed(list, t, user, Place(room, seat.id), Place(seat.roomId, seat.id), t');
      var me' := After(me, ReserveSeat(seat, true));
      assert Performs(t, user, me, ReserveSeat(seat, true), t', me') && !Agrees(t', user, me');
    }
  }

  /** With two rooms viewed the list can come out wrong. */
  lemma TwoRoomsMislead() returns (t: Tables, user: int, me: Standing, seat: Seat, t': Tables, me': Standing)
    ensures Consistent(t) && me.connected && Agrees(t, user, me) && RoomsOf(t, user) == {1, 2}
    ensures seat.roomId == 1 && SelectAllowed(t, user, seat.id)
    ensures Performs(t, user, me, ReserveSeat(seat, true), t', me') && !Agrees(t', user, me')
  {
    user, me, seat := 3, Standing(true, []), Seat(1, 1, SEAT_STATUS_FREE);
    t := Tables(3, [1, 2], map[1 := [1], 2 := [1]], {3}, {Viewing(3, 1), Viewing(3, 2)}, map[]);
    assert Viewing(3, 1) in t.viewing && Viewing(3, 2) in t.viewing;
    assert RoomsOf(t, user) == {1, 2};
    t' := MayReserveIn(t, user, [], seat, 2);
    ReservedListed([], t, user, Place(2, 1), Place(1, 1), t');
    me' := After(me, ReserveSeat(seat, true));
  }

  // ----- whole sessions -----

  /** A call of the session, or something done for other users. */
  datatype Event = Mine(call: Call) | Others

  /** Other users' handlers touch neither the rows of this user nor the rooms it views. */
  ghost predicate Elsewhere(t: Tables, user: int, t': Tables) {
    Consistent(t') && RowsOf(t', user) == RowsOf(t, user) && RoomsOf(t', user) == RoomsOf(t, user)
  }

  ghost predicate Step(t: Tables, user: int, me: Standing, e: Event, t': Tables, me': Standing) {
    match e
    case Mine(call) =>
      && (me.connected && call.ReserveSeat? ==> SelectAllowed(t, user, call.seat.id))
      && Performs(t, user, me, call, t', me')
    case Others => Elsewhere(t, user, t') && me' == me
  }

  /** A session from its login on. */
  ghost predicate Course(tables: seq<Tables>, mes: seq<Standing>, events: seq<Event>, user: int) {
    && |tables| == |mes| == |events| + 1
    && Consistent(tables[0]) && RowsOf(tables[0], user) == map[] && RoomsOf(tables[0], user) == {}
    && mes[0] == Standing(true, [])
    && forall i :: 0 <= i < |events| ==> Step(tables[i], user, mes[i], events[i], tables[i + 1], mes[i + 1])
  }

  /** The rooms the session has asked to see since it last reserved a seat, by its own calls. */
  function Viewed(events: seq<Event>): set<int> {
    if events == [] then {}
    else
      var before := Viewed(events[..|events| - 1]);
      match events[|events| - 1]
      case Mine(call) => RoomsAfter(before, call)
      case Others => before
  }

  /** The session views no second room before it reserves in the first, and names that room. */
  ghost predicate OneRoomAtATime(events: seq<Event>) {
    forall i :: 0 <= i < |events| && events[i].Mine? && events[i].call.ReserveSeat? ==>
      Viewed(events[..i]) == {events[i].call.seat.roomId}
  }

  /** The rooms the database has the user in are those the session knows of. */
  lemma {:induction false} RoomsAreViewed(tables: seq<Tables>, mes: seq<Standing>, events: seq<Event>,
                                          user: int, i: nat)
    requires Course(tables, mes, events, user) && i <= |events|
    ensures RoomsOf(tables[i], user) == Viewed(events[..i]) && Consistent(tables[i])
  {
    if i > 0 {
      hide Performs, Consistent, RoomsOf, SelectAllowed;
      RoomsAreViewed(tables, mes, events, user, i - 1);
      assert Step(tables[i - 1], user, mes[i - 1], events[i - 1], tables[i], mes[i]);
      assert events[..i][..i - 1] == events[..i - 1];
      match events[i - 1]
      case Mine(call) =>
        RoomsViewed(tables[i - 1], user, mes[i - 1], call, tables[i], mes[i]);
        StaysConsistent(tables[i - 1], user, mes[i - 1], call, tables[i], mes[i]);
      case Others =>
    }
  }

  /**
   A session that views one room at a time has, after every call and whatever other users do in between,
   a list without duplicates that names exactly its rows.
   */
  lemma {:induction false} AgreesThroughout(tables: seq<Tables>, mes: seq<Standing>, events: seq<Event>,
                                            user: int, i: nat)
    requires Course(tables, mes, events, user) && OneRoomAtATime(events) && i <= |events|
    ensures Agrees(tables[i], user, mes[i])
  {
    if i == 0 {
      NoRows(tables[0], user);
    } else {
      hide Performs, Consistent, RoomsOf, SelectAllowed, ListsRows, RowsOf, Viewed;
      AgreesThroughout(tables, mes, events, user, i - 1);
      var t, me, t', me' := tables[i - 1], mes[i - 1], tables[i], mes[i];
      assert Step(t, user, me, events[i - 1], t', me');
      match events[i - 1]
      case Mine(call) =>
        RoomsAreViewed(tables, mes, events, user, i - 1);
        CallKeepsAgreement(t, user, me, call, t', me');
      case Others =>
        if me.connected {
          OnlyOwnRowsMatter(me.list, t, t', user);
        }
    }
  }

  lemma NoRows(t: Tables, user: int)
    requires RowsOf(t, user) == map[]
    ensures ListsRows([], t, user)
  {
    forall k ensures !Owns(t, user, k) {
      assert Owns(t, user, k) <==> k in RowsOf(t, user);
    }
  }

  /** And a payment it is told of has paid every row it has. */
  lemma PaidInFull(tables: seq<Tables>, mes: seq<Standing>, events: seq<Event>, user: int, i: nat)
    requires Course(tables, mes, events, user) && OneRoomAtATime(events)
    requires i < |events| && events[i] == Mine(PaySeats(true))
    ensures var t' := tables[i + 1]; forall k :: Owns(t', user, k) ==> t'.rows[k].paid && k in mes[i + 1].list
  {
    AgreesThroughout(tables, mes, events, user, i);
    var t, me, t' := tables[i], mes[i], tables[i + 1];
    assert Step(t, user, me, events[i], t', mes[i + 1]);
    var reply, sent :| Served(t, user, Pay(me.list), reply, t', sent);
    assert forall k :: Owns(t', user, k) <==> Owns(t, user, k);
  }

  /** Any statement of another user's handler, in any orderly interleaving, is such a step of others. */
  lemma HandlersAreElsewhere(states: seq<State>, acts: seq<Action>, i: nat, user: int)
    requires OrderlyRun(states, acts) && i < |acts| && !acts[i].Restart?
    requires acts[i].Advance? ==> acts[i].pid in states[i].live && states[i].live[acts[i].pid].user != user
    ensures Elsewhere(states[i].tables, user, states[i + 1].tables)
  {
    RunKeepsInv(states, acts, i);
    KeepsConsistent(states[i], acts[i]);
    if acts[i].Advance? {
      hide OrderlyRun, Inv, TablesAfter, RoomsOf, Consistent;
      var s, a := states[i], acts[i];
      OthersKeepRows(s, a.pid, a.room, a.order, user);
      Frame(s.tables, s.live[a.pid], user);
    }
  }
}
