/**
 The session a client program holds through src/middleware/client_interface.cpp: its own list
 of reservations against the rows the database keeps for it.
 */
module ClientInterface {
  import opened Bytes
  import opened Messages
  import opened Ledger
  import opened Handlers
  import opened Serving
  import opened Admin
  import opened Views
  import opened SessionCalls

  datatype ErrorType =
    | NoError
    | CinemaCloseConnection
    | GeneralError

  /** What comes back for a request: the admin's reply, or the EXIT of a session that timed out. */
  datatype Response = Replied(reply: Reply) | ClosedByCinema

  class Session {
    const server: Admin
    const cinemaId: int
    var connected: bool
    var error: ErrorType
    var reservations: seq<Place>

    ghost function Now(): Standing
      reads this
    {
      Standing(connected, reservations)
    }

    /** The client's list agrees with the ledger, as long as the session lasts. */
    ghost predicate ListAgrees()
      reads this, server, server.db
    {
      Agrees(server.db.State(), cinemaId, Now())
    }

    /** The rooms the database has the session's user in. */
    ghost function Rooms(): set<int>
      reads this, server, server.db
    {
      RoomsOf(server.db.State(), cinemaId)
    }

    /** The tables are in order, and the session's id is one that has been given. */
    ghost predicate Valid()
      reads this, server, server.db
    {
      Consistent(server.db.State()) && UsersKnown(server.db.State()) && cinemaId <= server.db.lastUser
    }

    /** `init_mom` and `login`: a new cinema id, which owns nothing yet. */
    constructor (server: Admin)
      requires Consistent(server.db.State()) && UsersKnown(server.db.State())
      modifies server, server.db
      ensures Valid() && this.server == server && cinemaId == server.db.lastUser == old(server.db.lastUser) + 1
      ensures error == NoError && Now() == Standing(true, []) && ListAgrees() && Rooms() == {}
      ensures server.db.rows == old(server.db.rows)
    {
      ghost var t, before := server.db.State(), server.updates;
      var reply := Serve(server, 0, Register);
      NewIdOwnsNothing(t, 0, reply, server.db.State(), server.updates[|before|..]);
      ServedKeepsKnown(t, 0, Register, reply, server.db.State(), server.updates[|before|..]);
      NoRows(server.db.State(), reply.user);
      this.server := server;
      cinemaId := reply.user;
      connected, error, reservations := true, NoError, [];
    }

    /** A request and its answer, once the connection has delivered both. */
    static method Serve(server: Admin, user: int, request: Request) returns (reply: Reply)
      requires Consistent(server.db.State())
      requires request.Select? ==> SelectSafe(server.db.State(), user, request.seat)
      modifies server, server.db
      ensures !request.Select? ==> Consistent(server.db.State())
      ensures old(server.updates) <= server.updates
      ensures Served(old(server.db.State()), user, request, reply, server.db.State(),
                     server.updates[|old(server.updates)|..])
    {
      ghost var s := State(server.db.State(), map[0 := Handler(user, Start(request))], server.updates,
                           {}, {}, map[], {}, {});
      ghost var acts, s';
      ghost var t := server.db.State();
      ghost var before := server.updates;
      reply, acts, s' := server.HandleRequest(0, user, request, s);
      if !request.Select? {
        ServedKeepsConsistent(t, Service(user, request, reply, server.updates[|before|..]), server.db.State());
      }
    }

    /** `send_message` and `receive_message`: if the timer has fired, the EXIT it caused is the answer. */
    method Exchange(request: Request) returns (response: Response)
      requires Valid()
      requires request.Select? ==> SelectSafe(server.db.State(), cinemaId, request.seat)
      modifies server, server.db
      ensures !request.Select? || response.ClosedByCinema? ==> Consistent(server.db.State())
      ensures UsersKnown(server.db.State()) && old(server.db.lastUser) <= server.db.lastUser
      ensures response.Replied? ==>
        exists sent :: Served(old(server.db.State()), cinemaId, request, response.reply, server.db.State(), sent)
      ensures response.ClosedByCinema? ==> LoggedOut(old(server.db.State()), cinemaId, server.db.State())
    {
      var expired: bool := *;
      ghost var t, before := server.db.State(), server.updates;
      if expired {
        var reply := Serve(server, cinemaId, Exit);
        ServedKeepsKnown(t, cinemaId, Exit, reply, server.db.State(), server.updates[|before|..]);
        response := ClosedByCinema;
      } else {
        var reply := Serve(server, cinemaId, request);
        ServedKeepsKnown(t, cinemaId, request, reply, server.db.State(), server.updates[|before|..]);
        response := Replied(reply);
      }
    }

    /** What a call that came back means for the session. */
    ghost predicate Called(call: Call, t: Tables, me: Standing)
      reads this, server, server.db
    {
      && Performs(t, cinemaId, me, call, server.db.State(), Now())
      && Rooms() == RoomsAfter(RoomsOf(t, cinemaId), call)
      && t.lastUser <= server.db.lastUser
    }

    lemma CallEnds(call: Call, t: Tables, me: Standing)
      requires Performs(t, cinemaId, me, call, server.db.State(), Now()) && t.lastUser <= server.db.lastUser
      ensures Called(call, t, me)
      ensures (call.ReserveSeat? ==> NamesRoom(t, cinemaId, call.seat)) && Agrees(t, cinemaId, me) ==> ListAgrees()
    {
      RoomsViewed(t, cinemaId, me, call, server.db.State(), Now());
      if (call.ReserveSeat? ==> NamesRoom(t, cinemaId, call.seat)) && Agrees(t, cinemaId, me) {
        CallKeepsAgreement(t, cinemaId, me, call, server.db.State(), Now());
      }
    }

    method GetRooms() returns (rooms: seq<int>)
      requires Valid()
      modifies this, server, server.db
      ensures Valid() && Called(Call.GetRooms, old(server.db.State()), old(Now()))
      ensures old(ListAgrees()) ==> ListAgrees()
      ensures old(connected) && connected ==> rooms == server.db.rooms && server.db.State() == old(server.db.State())
      ensures !old(connected) ==> rooms == [] && unchanged(this) && unchanged(server.db)
      ensures old(connected) ==> error == if connected then NoError else CinemaCloseConnection
    {
      ghost var t, me := server.db.State(), Now();
      rooms := [];
      if !connected {
        CallEnds(Call.GetRooms, t, me);
        return;
      }
      error := NoError;
      var response := Exchange(Request.Rooms);
      if response.ClosedByCinema? {
        connected := false;
        error := CinemaCloseConnection;
        CallEnds(Call.GetRooms, t, me);
        return;
      }
      rooms := response.reply.ids;
      ServedPerformed(Call.GetRooms, Request.Rooms, t, me, response.reply);
      CallEnds(Call.GetRooms, t, me);
    }

    lemma ServedPerformed(call: Call, request: Request, t: Tables, me: Standing, reply: Reply)
      requires request == RequestOf(call, me.list)
      requires me.connected && Now() == After(me, call) && (Succeeds(call) <==> Granted(call, reply))
      requires exists sent :: Served(t, cinemaId, request, reply, server.db.State(), sent)
      ensures Performs(t, cinemaId, me, call, server.db.State(), Now())
    {
      var sent :| Served(t, cinemaId, request, reply, server.db.State(), sent);
      ServedPerforms(t, cinemaId, me, call, reply, server.db.State(), sent);
    }

    /** `_seat_to_vector`. The room of the seats is not filled in. */
    static method SeatsToVector(seatIds: seq<int>, statuses: seq<byte>) returns (seats: seq<Seat>)
      requires |seatIds| == |statuses|
      ensures |seats| == |seatIds|
      ensures forall i :: 0 <= i < |seats| ==> seats[i] == Seat(seatIds[i], 0, statuses[i])
    {
      seats := [];
      for i := 0 to |seatIds|
        invariant |seats| == i
        invariant forall k :: 0 <= k < i ==> seats[k] == Seat(seatIds[k], 0, statuses[k])
      {
        seats := seats + [Seat(seatIds[i], 0, statuses[i])];
      }
    }

    /** `get_seats`: a picture of the room, which the session is viewing from then on. */
    method GetSeats(room: int) returns (seats: seq<Seat>)
      requires Valid()
      modifies this, server, server.db
      ensures Valid() && Called(Call.GetSeats(room, seats != []), old(server.db.State()), old(Now()))
      ensures old(ListAgrees()) ==> ListAgrees()
      ensures Rooms() == if seats != [] then old(Rooms()) + {room} else old(Rooms())
      ensures forall x :: x in seats ==> x.roomId == 0
      ensures seats != [] ==>
        && connected && server.db.rows == old(server.db.rows)
        && room in old(server.db.seats) && |seats| == |old(server.db.seats)[room]|
        && forall i :: 0 <= i < |seats| ==>
             && seats[i].id == i + 1
             && seats[i].status == if Place(room, i + 1) in server.db.rows then SEAT_STATUS_OCCUPIED
                                   else SEAT_STATUS_FREE
      ensures old(connected) && connected && room in old(server.db.seats) ==> seats != []
      ensures error == if !old(connected) then old(error) else if !connected then CinemaCloseConnection
                       else if seats == [] then GeneralError else NoError
    {
      ghost var t, me := server.db.State(), Now();
      seats := [];
      if !connected {
        CallEnds(Call.GetSeats(room, false), t, me);
        return;
      }
      error := NoError;
      var response := Exchange(ViewSeats(room));
      if response.ClosedByCinema? {
        connected := false;
        error := CinemaCloseConnection;
        CallEnds(Call.GetSeats(room, false), t, me);
        return;
      }
      ServedPerformed(Call.GetSeats(room, response.reply.SeatStatuses?), ViewSeats(room), t, me, response.reply);
      if !response.reply.SeatStatuses? {
        error := GeneralError;
        CallEnds(Call.GetSeats(room, false), t, me);
        return;
      }
      seats := SeatsToVector(response.reply.seatIds, response.reply.statuses);
      CallEnds(Call.GetSeats(room, true), t, me);
    }

    /**
     `reserve_seat`: the row is in `room`, one of those the database has the user in, the list entry in
     the room the caller says. The tables stay in order unless the seat reserved is not one of the room's.
     */
    method ReserveSeat(seat: Seat) returns (ok: bool, ghost room: int)
      requires Valid()
      requires connected ==> SelectSafe(server.db.State(), cinemaId, seat.id)
      modifies this, server, server.db
      ensures Valid() <==> !ok || old(InRange(server.db.State(), Place(room, seat.id)))
      ensures UsersKnown(server.db.State())
      ensures Called(Call.ReserveSeat(seat, ok), old(server.db.State()), old(Now()))
      ensures Rooms() == if ok then {} else old(Rooms())
      ensures ok ==>
        && room in old(Rooms()) && Place(room, seat.id) !in old(server.db.rows)
        && server.db.rows == old(server.db.rows)[Place(room, seat.id) := Row(cinemaId, false)]
        && reservations == old(reservations) + [Place(seat.roomId, seat.id)]
      ensures !ok && connected ==> server.db.State() == old(server.db.State())
      ensures !ok ==> reservations == old(reservations)
      ensures error == if !old(connected) then old(error) else if !connected then CinemaCloseConnection
                       else if !ok then GeneralError else NoError
      ensures old(ListAgrees()) ==> (ListAgrees() <==> !ok || room == seat.roomId)
      ensures old(ListAgrees() && NamesRoom(server.db.State(), cinemaId, seat)) ==> ListAgrees()
    {
      ghost var t, me := server.db.State(), Now();
      ok, room := false, 0;
      if !connected {
        CallEnds(Call.ReserveSeat(seat, false), t, me);
        return;
      }
      error := NoError;
      var response := Exchange(Select(seat.id));
      if response.ClosedByCinema? {
        connected := false;
        error := CinemaCloseConnection;
        CallEnds(Call.ReserveSeat(seat, false), t, me);
        return;
      }
      ghost var sent;
      sent :| Served(t, cinemaId, Select(seat.id), response.reply, server.db.State(), sent);
      room :| SelectServed(t, cinemaId, seat.id, response.reply, server.db.State(), sent, room);
      SelectConsistentIff(t, cinemaId, seat.id, response.reply, server.db.State(), sent, room);
      if !response.reply.Selected? || !response.reply.success {
        error := GeneralError;
        ServedPerforms(t, cinemaId, me, Call.ReserveSeat(seat, false), response.reply, server.db.State(), sent);
        CallEnds(Call.ReserveSeat(seat, false), t, me);
        return;
      }
      reservations := reservations + [Place(seat.roomId, seat.id)];
      ok := true;
      ServedPerforms(t, cinemaId, me, Call.ReserveSeat(seat, true), response.reply, server.db.State(), sent);
      CallEnds(Call.ReserveSeat(seat, true), t, me);
      if Agrees(t, cinemaId, me) {
        ReservedListed(me.list, t, cinemaId, Place(room, seat.id), Place(seat.roomId, seat.id), server.db.State());
      }
    }

    /** `pay_seats`: on success every row of the user that the list names is paid. */
    method PaySeats() returns (ok: bool)
      requires Valid() && |reservations| <= MAX_LENGTH_STRING
      modifies this, server, server.db
      ensures Valid() && Called(Call.PaySeats(ok), old(server.db.State()), old(Now()))
      ensures (old(ListAgrees()) ==> ListAgrees()) && reservations == old(reservations)
      ensures ok ==> connected
      ensures error == if !old(connected) then old(error) else if ok then NoError else GeneralError
      ensures ok ==> forall k :: k in reservations && Owns(server.db.State(), cinemaId, k) ==> server.db.rows[k].paid
      ensures ok && old(ListAgrees()) ==> forall k :: k in server.db.rows && server.db.rows[k].user == cinemaId ==>
                                            server.db.rows[k].paid
    {
      ghost var t, me := server.db.State(), Now();
      ok := false;
      if !connected {
        CallEnds(Call.PaySeats(false), t, me);
        return;
      }
      error := NoError;
      var response := Exchange(Pay(reservations));
      if response.ClosedByCinema? {
        connected := false;
        // The code replaces the specific error by the general one.
        error := GeneralError;
        CallEnds(Call.PaySeats(false), t, me);
        return;
      }
      ok := true;
      ServedPerformed(Call.PaySeats(true), Pay(reservations), t, me, response.reply);
      CallEnds(Call.PaySeats(true), t, me);
      assert forall k :: Owns(server.db.State(), cinemaId, k) <==> Owns(t, cinemaId, k);
    }

    /** `end_mom`: the session is over and only the paid rows of the user remain. */
    method EndMom() returns (ok: bool)
      requires Valid()
      modifies this, server, server.db
      ensures Valid() && ok && !connected && error == if old(connected) then NoError else old(error)
      ensures Called(Call.EndMom, old(server.db.State()), old(Now()))
      ensures old(connected) ==> LoggedOut(old(server.db.State()), cinemaId, server.db.State())
      ensures !old(connected) ==> unchanged(server.db)
    {
      ghost var t, me := server.db.State(), Now();
      ok := true;
      if !connected {
        CallEnds(Call.EndMom, t, me);
        return;
      }
      error := NoError;
      var response := Exchange(Exit);
      connected := false;
      CallEnds(Call.EndMom, t, me);
    }
  }
}
