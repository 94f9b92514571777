/**
 One request served from start to finish, as a relation between the tables before and after it,
 the reply and the updates sent: what a handler achieves when nothing else runs meanwhile.
 */
module Serving {
  import opened Bytes
  import opened Messages
  import opened Ledger
  import opened Handlers

  /** The statuses of a room say of each seat whether it is reserved or free. */
  ghost predicate Pictures(statuses: seq<byte>, t: Tables, room: int) {
    && room in t.seats && |statuses| == |t.seats[room]|
    && forall i :: 0 <= i < |statuses| ==>
         statuses[i] == if Place(room, i + 1) in t.rows then SEAT_STATUS_OCCUPIED else SEAT_STATUS_FREE
  }

  ghost predicate PaidFor(t: Tables, user: int, list: seq<Place>, t': Tables) {
    && t' == t.(rows := t'.rows) && t'.rows.Keys == t.rows.Keys
    && forall k :: k in t.rows ==>
         t'.rows[k] == if t.rows[k].user == user && k in list then Row(user, true) else t.rows[k]
  }

  ghost predicate LoggedOut(t: Tables, user: int, t': Tables) {
    && t' == t.(active := t'.active, rows := t'.rows) && t'.active == t.active - {user}
    && (forall k :: k in t'.rows <==> k in t.rows && (t.rows[k].user != user || t.rows[k].paid))
    && forall k :: k in t'.rows ==> t'.rows[k] == t.rows[k]
  }

  /** Each viewer of the room has been sent one picture of it. */
  ghost predicate Told(sent: seq<Update>, t: Tables, room: int) {
    && Lists(seq(|sent|, i requires 0 <= i < |sent| => sent[i].to), WatchersOf(t, room))
    && forall u :: u in sent ==>
         u.room == room && u.seatIds == SeatsOf(t, room) && Pictures(u.statuses, t, room)
  }

  /** The seat is free: it becomes the user's, who leaves all rooms, and the other viewers hear of it. */
  ghost predicate Reserved(t: Tables, user: int, place: Place, t': Tables, sent: seq<Update>) {
    && t' == t.(rows := t.rows[place := Row(user, false)], viewing := t'.viewing)
    && (forall v :: v in t'.viewing <==> v in t.viewing && v.user != user)
    && Told(sent, t', place.room)
  }

  ghost predicate SelectServed(t: Tables, user: int, seat: int, reply: Reply, t': Tables,
                               sent: seq<Update>, room: int)
  {
    && room in RoomsOf(t, user)
    && if room == 0 then reply == Invalid && t' == t && sent == []
       else if Admits(t, Place(room, seat)) then
         reply == Selected(true) && Reserved(t, user, Place(room, seat), t', sent)
       else reply == Selected(false) && t' == t && sent == []
  }

  ghost predicate SeatsServed(t: Tables, user: int, room: int, reply: Reply, t': Tables) {
    if SeatsOf(t, room) == [] then reply == Invalid && t' == t
    else
      && reply.SeatStatuses? && reply.seatIds == t.seats[room] && Pictures(reply.statuses, t, room)
      && t' == t.(viewing := t.viewing + {Viewing(user, room)})
  }

  ghost predicate Served(t: Tables, user: int, request: Request, reply: Reply, t': Tables, sent: seq<Update>) {
    match request
    case Pay(list) => reply == Paid && PaidFor(t, user, list, t') && sent == []
    case Exit => reply == NoReply && LoggedOut(t, user, t') && sent == []
    case Register =>
      && reply == Registered(t.lastUser + 1) && sent == []
      && t' == t.(lastUser := t.lastUser + 1, active := t.active + {t.lastUser + 1})
    case Rooms => reply == RoomIds(t.rooms) && t' == t && sent == []
    case ViewSeats(room) => SeatsServed(t, user, room, reply, t') && sent == []
    case Select(seat) => exists room :: SelectServed(t, user, seat, reply, t', sent, room)
    case Unknown => reply == Invalid && t' == t && sent == []
  }
}
