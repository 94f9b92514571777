/**
 src/admin/admin.cpp and the database calls it makes, run by one process from the arrival of a
 request to its answer. Statement by statement the process follows the handlers of module
 Handlers; as a whole it does what module Serving says.
 */
module Admin {
  import opened Bytes
  import opened Messages
  import opened Ledger
  import opened Handlers
  import opened Wrappers
  import opened Serving

  /** src/db/db_api.cpp. */
  class Database {
    var lastUser: int
    var rooms: seq<int>
    var seats: map<int, seq<int>>
    var active: set<int>
    var viewing: set<Viewing>
    var rows: map<Place, Row>

    function State(): Tables
      reads this
    {
      Tables(lastUser, rooms, seats, active, viewing, rows)
    }

    method InsertUser() returns (id: int)
      modifies this
      ensures State() == Ledger.InsertUser(old(State())) && id == State().lastUser
    {
      lastUser := lastUser + 1;
      id := lastUser;
    }

    method LoginUser(user: int)
      modifies this
      ensures State() == Ledger.LoginUser(old(State()), user)
    {
      active := active + {user};
    }

    method LogoutUser(user: int)
      modifies this
      ensures State() == Ledger.LogoutUser(old(State()), user)
    {
      active := active - {user};
    }

    method InsertUserInRoom(user: int, room: int)
      modifies this
      ensures State() == Ledger.InsertUserInRoom(old(State()), user, room)
    {
      viewing := viewing + {Viewing(user, room)};
    }

    method RemoveUserInRoom(user: int)
      modifies this
      ensures State() == Ledger.RemoveUserInRoom(old(State()), user)
    {
      viewing := set v | v in viewing && v.user != user;
    }

    method InsertReservation(user: int, room: int, seat: int) returns (ok: bool)
      modifies this
      ensures State() == Ledger.InsertReservation(old(State()), user, Place(room, seat))
      ensures ok <==> Admits(old(State()), Place(room, seat))
    {
      ok := false;
      if seat > 0 {
        var place := Place(room, seat);
        if place !in rows {
          rows := rows[place := Row(user, false)];
          ok := true;
        }
      }
    }

    method UpdatePaidReservation(user: int, reservation: Place)
      modifies this
      ensures State() == UpdatePaid(old(State()), user, reservation)
    {
      if reservation in rows && rows[reservation].user == user {
        rows := rows[reservation := Row(user, true)];
      }
    }

    method RemoveUserUnpaidReservations(user: int)
      modifies this
      ensures State() == RemoveUserUnpaid(old(State()), user)
    {
      rows := map k | k in rows && (rows[k].user != user || rows[k].paid) :: rows[k];
    }

    /** `clean_db_tables`. */
    method Clean()
      modifies this
      ensures State() == RemoveUsersInRoom(RemoveUnpaid(old(State())))
      ensures viewing == {} && forall k :: k in rows <==> k in old(rows) && old(rows)[k].paid
      ensures (forall k :: k in rows ==> rows[k] == old(rows)[k]) && active == old(active)
    {
      rows := map k | k in rows && rows[k].paid :: rows[k];
      viewing := {};
    }

    /** The query callback: each row of the answer is pushed on the result. */
    static method PushRows(answer: set<int>) returns (result: seq<int>)
      ensures Lists(result, answer)
    {
      result := [];
      var rest := answer;
      while rest != {}
        invariant rest <= answer && Lists(result, answer - rest)
      {
        Occupied(rest);
        var x :| x in rest;
        result := result + [x];
        rest := rest - {x};
      }
    }

    method SelectRoomSeats(room: int) returns (result: seq<int>)
      ensures result == SeatsOf(State(), room)
    {
      result := if room in seats then seats[room] else [];
    }

    method SelectReservations(room: int) returns (result: seq<int>)
      ensures Lists(result, TakenIn(State(), room))
    {
      result := PushRows(set k | k in rows && k.room == room :: k.seat);
    }

    method SelectUsersInRoom(room: int) returns (result: seq<int>)
      ensures Lists(result, WatchersOf(State(), room))
    {
      result := PushRows(set v | v in viewing && v.room == room :: v.user);
    }

    /** The first row of the answer; the code reads it whether or not there is one. */
    method SelectUserCurrentRoom(user: int) returns (room: int)
      requires RoomsOf(State(), user) != {}
      ensures room in RoomsOf(State(), user)
    {
      var result := PushRows(set v | v in viewing && v.user == user :: v.room);
      assert result != [];
      room := result[0];
    }
  }

  /**
   A selection the handler carries out within its arrays: the user is in a room, and where the seat is
   to be had it is one of the room's, or nobody else is viewing the room.
   */
  ghost predicate SelectSafe(t: Tables, user: int, seat: int) {
    && RoomsOf(t, user) != {}
    && forall room :: room in RoomsOf(t, user) && room != 0 && Admits(t, Place(room, seat)) ==>
         InRange(t, Place(room, seat)) || WatchersOf(RemoveUserInRoom(t, user), room) == {}
  }

  /** Once the seat is the user's, the marking loop stays within the statuses exactly if it is one of the room's. */
  lemma MarkingInBounds(t: Tables, user: int, place: Place)
    requires Consistent(t) && place.room in t.seats && Admits(t, place)
    ensures var t' := InsertReservation(t, user, place);
            (forall x :: x in TakenIn(t', place.room) ==> 1 <= x <= |t'.seats[place.room]|) <==> InRange(t, place)
  {
    var t' := InsertReservation(t, user, place);
    assert place in t'.rows;
    assert place.seat in TakenIn(t', place.room);
    forall x | x in TakenIn(t', place.room) && x != place.seat ensures 1 <= x <= |t.seats[place.room]| {
      assert InRange(t, Place(place.room, x));
    }
  }

  /** Seat 5 of a room of one seat: a user who views it reserves it, and for the other viewer it is to be marked. */
  lemma MarkingBeyondTheRoom() returns (t: Tables, user: int, place: Place)
    ensures Consistent(t) && RoomsOf(t, user) == {place.room} && Admits(t, place)
    ensures WatchersOf(RemoveUserInRoom(t, user), place.room) != {}
    ensures var t' := InsertReservation(t, user, place);
            place.seat in TakenIn(t', place.room) && place.seat > |SeatsOf(t', place.room)|
  {
    user, place := 3, Place(1, 5);
    t := Tables(4, [1], map[1 := [1]], {3, 4}, {Viewing(3, 1), Viewing(4, 1)}, map[]);
    assert Viewing(3, 1) in t.viewing;
    assert Viewing(4, 1) in RemoveUserInRoom(t, user).viewing;
    assert 4 in WatchersOf(RemoveUserInRoom(t, user), 1);
    assert place in InsertReservation(t, user, place).rows;
  }

  /** The loop over the taken seats, in whatever order they were read. */
  method MarkSeats(n: nat, taken: seq<int>) returns (status: array<byte>)
    requires forall x :: x in taken ==> 1 <= x <= n
    ensures fresh(status) && status[..] == Marked(n, taken)
  {
    status := new byte[n](_ => SEAT_STATUS_FREE);
    for k := 0 to |taken|
      invariant forall i :: 0 <= i < n ==>
        status[i] == if i + 1 in taken[..k] then SEAT_STATUS_OCCUPIED else SEAT_STATUS_FREE
    {
      assert taken[k] in taken;
      status[taken[k] - 1] := SEAT_STATUS_OCCUPIED;
    }
    assert taken[..|taken|] == taken;
  }

  class Admin {
    const db: Database
    /** What has been sent on the activity queue. */
    var updates: seq<Update>

    /** `admin_daemon`, up to its loop: only paid reservations and nobody in a room. */
    constructor (db: Database)
      modifies db
      ensures this.db == db && updates == []
      ensures db.State() == RemoveUsersInRoom(RemoveUnpaid(old(db.State())))
      ensures db.viewing == {} && forall k :: k in db.rows <==> k in old(db.rows) && old(db.rows)[k].paid
    {
      this.db := db;
      updates := [];
      new;
      db.Clean();
    }

    /** The handler process `pid` of `s` is at `pc`, and `s` agrees with the real tables and queue. */
    ghost predicate At(s: State, pid: nat, user: int, pc: Pc)
      reads this, db
    {
      && s.tables == db.State() && s.updates == updates
      && pid in s.live && s.live[pid] == Handler(user, pc)
    }

    method HandlePay(pid: nat, user: int, list: seq<Place>, ghost s: State)
      returns (reply: Reply, ghost acts: seq<Action>, ghost s': State)
      requires At(s, pid, user, Start(Pay(list)))
      modifies this, db
      ensures Alone(pid, s, acts, s') && At(s', pid, user, Answer(reply))
      ensures updates == old(updates) && Served(s.tables, user, Pay(list), reply, s'.tables, [])
    {
      hide Alone;
      AloneAtFirst(pid, s);
      acts, s' := [], s;
      var executed := 0;
      while executed < |list|
        invariant 0 <= executed <= |list| && updates == old(updates)
        invariant Alone(pid, s, acts, s') && At(s', pid, user, PayAt(list, executed))
        invariant PaidFor(s.tables, user, list[..executed], s'.tables)
      {
        db.UpdatePaidReservation(user, list[executed]);
        assert list[..executed + 1] == list[..executed] + [list[executed]];
        acts, s' := Next(pid, s'.live[pid], s, acts, s', 0, []);
        executed := executed + 1;
      }
      assert list[..executed] == list;
      reply := Paid;
      acts, s' := Next(pid, s'.live[pid], s, acts, s', 0, []);
    }

    method HandleExit(pid: nat, user: int, ghost s: State)
      returns (reply: Reply, ghost acts: seq<Action>, ghost s': State)
      requires At(s, pid, user, Start(Exit))
      modifies this, db
      ensures Alone(pid, s, acts, s') && At(s', pid, user, Done(reply))
      ensures updates == old(updates) && Served(s.tables, user, Exit, reply, s'.tables, [])
    {
      hide Alone;
      AloneAtFirst(pid, s);
      db.LogoutUser(user);
      acts, s' := Next(pid, s.live[pid], s, [], s, 0, []);
      db.RemoveUserUnpaidReservations(user);
      acts, s' := Next(pid, s'.live[pid], s, acts, s', 0, []);
      reply := NoReply;
    }

    method HandleRegister(pid: nat, user: int, ghost s: State)
      returns (reply: Reply, ghost acts: seq<Action>, ghost s': State)
      requires At(s, pid, user, Start(Register))
      modifies this, db
      ensures Alone(pid, s, acts, s') && At(s', pid, user, Answer(reply))
      ensures updates == old(updates) && Served(s.tables, user, Register, reply, s'.tables, [])
    {
      hide Alone;
      AloneAtFirst(pid, s);
      var id := db.InsertUser();
      acts, s' := Next(pid, s.live[pid], s, [], s, 0, []);
      db.LoginUser(id);
      acts, s' := Next(pid, s'.live[pid], s, acts, s', 0, []);
      reply := Registered(id);
    }

    method HandleSeats(pid: nat, user: int, room: int, ghost s: State)
      returns (reply: Reply, ghost acts: seq<Action>, ghost s': State)
      requires At(s, pid, user, Start(ViewSeats(room))) && Consistent(s.tables)
      modifies this, db
      ensures Alone(pid, s, acts, s') && At(s', pid, user, Answer(reply))
      ensures updates == old(updates) && Served(s.tables, user, ViewSeats(room), reply, s'.tables, [])
    {
      hide Alone;
      AloneAtFirst(pid, s);
      var seatIds := db.SelectRoomSeats(room);
      acts, s' := Next(pid, s.live[pid], s, [], s, 0, []);
      if seatIds == [] {
        reply := Invalid;
        return;
      }
      var taken := db.SelectReservations(room);
      TakenAreSeats(s.tables, room, taken);
      var status := MarkSeats(|seatIds|, taken);
      acts, s' := Next(pid, s'.live[pid], s, acts, s', 0, taken);
      reply := SeatStatuses(seatIds, status[..]);
      db.InsertUserInRoom(user, room);
      acts, s' := Next(pid, s'.live[pid], s, acts, s', 0, []);
    }

    method HandleSelect(pid: nat, user: int, seat: int, ghost s: State)
      returns (reply: Reply, ghost acts: seq<Action>, ghost s': State, ghost room: int)
      requires At(s, pid, user, Start(Select(seat))) && Consistent(s.tables)
      requires SelectSafe(s.tables, user, seat)
      modifies this, db
      ensures Alone(pid, s, acts, s') && At(s', pid, user, Answer(reply))
      ensures old(updates) <= updates
      ensures SelectServed(s.tables, user, seat, reply, s'.tables, updates[|old(updates)|..], room)
    {
      hide Alone;
      AloneAtFirst(pid, s);
      var currentRoom := db.SelectUserCurrentRoom(user);
      room := currentRoom;
      acts, s' := Next(pid, s.live[pid], s, [], s, currentRoom, []);
      assert updates[|updates|..] == [];
      if currentRoom == 0 {
        reply := Invalid;
        return;
      }
      var ok := db.InsertReservation(user, currentRoom, seat);
      acts, s' := Next(pid, s'.live[pid], s, acts, s', 0, []);
      if !ok {
        reply := Selected(false);
        return;
      }
      acts, s' := FinishSelect(pid, user, Place(currentRoom, seat), s, acts, s');
      reply := Selected(true);
    }

    /** What a selection does once the seat is the user's. */
    method FinishSelect(pid: nat, user: int, place: Place, ghost s: State, ghost before: seq<Action>,
                        ghost m: State)
      returns (ghost acts: seq<Action>, ghost s': State)
      requires Alone(pid, s, before, m) && At(m, pid, user, Leave(place))
      requires WatchersOf(RemoveUserInRoom(m.tables, user), place.room) != {} ==>
                 Consistent(m.tables) && place.room in m.tables.seats
      modifies this, db
      ensures Alone(pid, s, acts, s') && At(s', pid, user, Answer(Selected(true)))
      ensures old(updates) <= updates
      ensures s'.tables == RemoveUserInRoom(m.tables, user)
      ensures Told(updates[|old(updates)|..], s'.tables, place.room)
    {
      hide Alone;
      db.RemoveUserInRoom(user);
      acts, s' := Next(pid, m.live[pid], s, before, m, 0, []);
      ghost var t := s'.tables;
      var watchers := db.SelectUsersInRoom(place.room);
      acts, s' := Next(pid, s'.live[pid], s, acts, s', 0, watchers);
      if watchers != [] {
        assert watchers[0] in watchers;
        assert WatchersOf(t, place.room) != {};
        acts, s' := Broadcast(pid, user, place, watchers, s, acts, s');
      }
      ghost var sent := updates[|old(updates)|..];
      assert SentTo(sent, watchers, t, place.room);
      SentToTells(sent, watchers, t, place.room);
      db.RemoveUserInRoom(user);
      acts, s' := Next(pid, s'.live[pid], s, acts, s', 0, []);
      assert s'.tables == t;
    }

    /** The part of a selection that tells the viewers of the room. */
    method Broadcast(pid: nat, user: int, place: Place, watchers: seq<int>,
                     ghost s: State, ghost before: seq<Action>, ghost m: State)
      returns (ghost acts: seq<Action>, ghost s': State)
      requires Alone(pid, s, before, m) && At(m, pid, user, AskLayout(place, watchers))
      requires watchers != [] && Consistent(m.tables) && place.room in m.tables.seats
      modifies this
      ensures Alone(pid, s, acts, s') && At(s', pid, user, LeaveAgain(place)) && s'.tables == m.tables
      ensures old(updates) <= updates
      ensures SentTo(updates[|old(updates)|..], watchers, m.tables, place.room)
    {
      hide Alone, SentTo, Pictures;
      var seatIds := db.SelectRoomSeats(place.room);
      NoneSent(m.tables, place.room);
      acts, s' := Next(pid, m.live[pid], s, before, m, 0, []);
      var taken := db.SelectReservations(place.room);
      TakenAreSeats(m.tables, place.room, taken);
      var status := MarkSeats(|seatIds|, taken);
      acts, s' := Next(pid, s'.live[pid], s, acts, s', 0, taken);
      ghost var statuses := status[..];
      var k := 0;
      while k < |watchers|
        invariant 0 <= k <= |watchers| && status[..] == statuses
        invariant Alone(pid, s, acts, s') && s'.tables == m.tables
        invariant At(s', pid, user, if k < |watchers| then Notify(place, watchers, seatIds, statuses, k)
                                    else LeaveAgain(place))
        invariant old(updates) <= updates
        invariant SentTo(updates[|old(updates)|..], watchers[..k], m.tables, place.room)
      {
        ghost var sent := updates[|old(updates)|..];
        updates := updates + [Update(watchers[k], place.room, seatIds, status[..], pid)];
        assert updates[|old(updates)|..] == sent + [Update(watchers[k], place.room, seatIds, statuses, pid)];
        SentMore(sent, watchers, k, m.tables, place.room, Update(watchers[k], place.room, seatIds, statuses, pid));
        acts, s' := Next(pid, s'.live[pid], s, acts, s', 0, []);
        k := k + 1;
      }
      assert watchers[..k] == watchers;
    }

    /** `admin_handle_request`: an interruption-free run of the handler, with the effect of a served request. */
    method HandleRequest(pid: nat, user: int, request: Request, ghost s: State)
      returns (reply: Reply, ghost acts: seq<Action>, ghost s': State)
      requires At(s, pid, user, Start(request)) && Consistent(s.tables)
      requires request.Select? ==> SelectSafe(s.tables, user, request.seat)
      modifies this, db
      ensures Alone(pid, s, acts, s') && At(s', pid, user, Done(reply))
      ensures old(updates) <= updates
      ensures Served(s.tables, user, request, reply, s'.tables, updates[|old(updates)|..])
    {
      hide Alone;
      AloneAtFirst(pid, s);
      assert updates[|updates|..] == [];
      match request {
        case Pay(list) => reply, acts, s' := HandlePay(pid, user, list, s);
        case Exit => reply, acts, s' := HandleExit(pid, user, s); return;
        case Register => reply, acts, s' := HandleRegister(pid, user, s);
        case Rooms =>
          reply := RoomIds(db.rooms);
          acts, s' := Next(pid, s.live[pid], s, [], s, 0, []);
        case ViewSeats(room) => reply, acts, s' := HandleSeats(pid, user, room, s);
        case Select(seat) =>
          ghost var room;
          reply, acts, s', room := HandleSelect(pid, user, seat, s);
        case Unknown =>
          reply := Invalid;
          acts, s' := [], s;
      }
      // The answer is sent.
      acts, s' := Next(pid, s'.live[pid], s, acts, s', 0, []);
    }
  }

  /** One picture of the room for each watcher, in the order of `watchers`. */
  ghost predicate SentTo(sent: seq<Update>, watchers: seq<int>, t: Tables, room: int) {
    && |sent| == |watchers|
    && forall i :: 0 <= i < |sent| ==>
         && sent[i].to == watchers[i] && sent[i].room == room && sent[i].seatIds == SeatsOf(t, room)
         && Pictures(sent[i].statuses, t, room)
  }

  lemma NoneSent(t: Tables, room: int)
    ensures SentTo([], [], t, room)
  {
  }

  lemma SentMore(sent: seq<Update>, watchers: seq<int>, k: nat, t: Tables, room: int, u: Update)
    requires k < |watchers| && SentTo(sent, watchers[..k], t, room)
    requires u.to == watchers[k] && u.room == room && u.seatIds == SeatsOf(t, room) && Pictures(u.statuses, t, room)
    ensures SentTo(sent + [u], watchers[..k + 1], t, room)
  {
    hide Pictures;
  }

  lemma SentToTells(sent: seq<Update>, watchers: seq<int>, t: Tables, room: int)
    requires SentTo(sent, watchers, t, room) && Lists(watchers, WatchersOf(t, room))
    ensures Told(sent, t, room)
  {
    assert seq(|sent|, i requires 0 <= i < |sent| => sent[i].to) == watchers;
  }

  /** The seats a query finds reserved are indices of the room's array of statuses, plus one. */
  lemma TakenAreSeats(t: Tables, room: int, taken: seq<int>)
    requires Consistent(t) && room in t.seats && Lists(taken, TakenIn(t, room))
    ensures forall x :: x in taken ==> 1 <= x <= |t.seats[room]|
    ensures Pictures(Marked(|t.seats[room]|, taken), t, room)
  {
    forall x | x in taken ensures 1 <= x <= |t.seats[room]| {
      assert x in TakenIn(t, room);
      assert InRange(t, Place(room, x));
    }
    MarkedIsExact(t, room, taken);
  }
}
