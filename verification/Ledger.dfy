/**
 The reservation database of src/db/db_api.cpp: its tables as sets and maps keyed by their
 primary keys, and the SQL statements the admin issues, each one atomic.
 */
module Ledger {
  import opened Bytes
  import opened Messages

  datatype Place = Place(room: int, seat: int)
  datatype Viewing = Viewing(user: int, room: int)
  datatype Row = Row(user: int, paid: bool)

  /**
   `lastUser` is the AUTOINCREMENT counter of Users, `seats` lists the seats of each room,
   `viewing` is Clients_rooms, `active` is Active_clients and `rows` is Reservations.
   */
  datatype Tables = Tables(lastUser: int, rooms: seq<int>, seats: map<int, seq<int>>,
                           active: set<int>, viewing: set<Viewing>, rows: map<Place, Row>)

  // ----- statements that change a table -----

  function InsertUser(t: Tables): Tables {
    t.(lastUser := t.lastUser + 1)
  }

  function LoginUser(t: Tables, user: int): Tables {
    t.(active := t.active + {user})
  }

  function LogoutUser(t: Tables, user: int): Tables {
    t.(active := t.active - {user})
  }

  function InsertUserInRoom(t: Tables, user: int, room: int): Tables {
    t.(viewing := t.viewing + {Viewing(user, room)})
  }

  function RemoveUserInRoom(t: Tables, user: int): Tables {
    t.(viewing := set v | v in t.viewing && v.user != user)
  }

  function RemoveUsersInRoom(t: Tables): Tables {
    t.(viewing := {})
  }

  /** The primary key of Reservations admits the row, and the seat number is positive. */
  predicate Admits(t: Tables, place: Place) {
    place.seat > 0 && place !in t.rows
  }

  function InsertReservation(t: Tables, user: int, place: Place): Tables {
    if Admits(t, place) then t.(rows := t.rows[place := Row(user, false)]) else t
  }

  function UpdatePaid(t: Tables, user: int, place: Place): Tables {
    if place in t.rows && t.rows[place].user == user then
      t.(rows := t.rows[place := Row(user, true)])
    else t
  }

  function RemoveUserUnpaid(t: Tables, user: int): Tables {
    t.(rows := map k | k in t.rows && (t.rows[k].user != user || t.rows[k].paid) :: t.rows[k])
  }

  function RemoveUnpaid(t: Tables): Tables {
    t.(rows := map k | k in t.rows && t.rows[k].paid :: t.rows[k])
  }

  // ----- queries -----

  function SeatsOf(t: Tables, room: int): seq<int> {
    if room in t.seats then t.seats[room] else []
  }

  function TakenIn(t: Tables, room: int): set<int> {
    set k | k in t.rows && k.room == room :: k.seat
  }

  function WatchersOf(t: Tables, room: int): set<int> {
    set v | v in t.viewing && v.room == room :: v.user
  }

  function RoomsOf(t: Tables, user: int): set<int> {
    set v | v in t.viewing && v.user == user :: v.room
  }

  /** `xs` is the result of a query whose answer is `s`: each element once, in some order. */
  ghost predicate Lists(xs: seq<int>, s: set<int>) {
    && (forall x :: x in xs <==> x in s)
    && forall i, j :: 0 <= i < j < |xs| ==> xs[i] != xs[j]
  }

  /** The statuses sent for a room of `n` seats when the query for its reservations gave `taken`. */
  function Marked(n: nat, taken: seq<int>): (s: seq<byte>)
    ensures |s| == n
  {
    seq(n, i requires 0 <= i < n => if i + 1 in taken then SEAT_STATUS_OCCUPIED else SEAT_STATUS_FREE)
  }

  /** The queries answer what is in the tables, row for row. */
  lemma QueriesAreExact(t: Tables, user: int, room: int, seat: int)
    ensures room in RoomsOf(t, user) <==> Viewing(user, room) in t.viewing
    ensures user in WatchersOf(t, room) <==> Viewing(user, room) in t.viewing
    ensures seat in TakenIn(t, room) <==> Place(room, seat) in t.rows
  {
  }

  // ----- what the tables keep -----

  /** The seats of every room are numbered from 1, and fit the arrays of a message. */
  predicate Numbered(t: Tables) {
    forall room :: room in t.seats ==>
      0 < |t.seats[room]| <= MAX_SEATS && forall i :: 0 <= i < |t.seats[room]| ==> t.seats[room][i] == i + 1
  }

  predicate InRange(t: Tables, place: Place) {
    place.room in t.seats && 1 <= place.seat <= |t.seats[place.room]|
  }

  /** Every reservation is of a seat of its room, although no foreign key says so. */
  predicate RowsInRange(t: Tables) {
    forall k :: k in t.rows ==> InRange(t, k)
  }

  predicate ViewingKnown(t: Tables) {
    forall v :: v in t.viewing ==> v.room in t.seats
  }

  ghost predicate Consistent(t: Tables) {
    Numbered(t) && RowsInRange(t) && ViewingKnown(t)
  }

  /** Reservations and viewings are of users that have been given their id. */
  predicate UsersKnown(t: Tables) {
    && (forall k :: k in t.rows ==> t.rows[k].user <= t.lastUser)
    && forall v :: v in t.viewing ==> v.user <= t.lastUser
  }

  /** Statuses computed from a complete query say of each seat whether it is reserved. */
  lemma MarkedIsExact(t: Tables, room: int, taken: seq<int>)
    requires Consistent(t) && room in t.seats && Lists(taken, TakenIn(t, room))
    ensures forall i :: 0 <= i < |t.seats[room]| ==>
              Marked(|t.seats[room]|, taken)[i]
              == if Place(room, t.seats[room][i]) in t.rows then SEAT_STATUS_OCCUPIED else SEAT_STATUS_FREE
  {
    forall i | 0 <= i < |t.seats[room]|
      ensures i + 1 in taken <==> Place(room, t.seats[room][i]) in t.rows
    {
      assert i + 1 in TakenIn(t, room) <==> Place(room, i + 1) in t.rows;
    }
  }

  // ----- what the statements achieve together -----

  /** The row is there and is the user's. */
  predicate Owns(t: Tables, user: int, place: Place) {
    place in t.rows && t.rows[place].user == user
  }

  /** Paying a place saves it, and nothing else of the user's or of others', from the release of the unpaid rows. */
  lemma PaymentOutlastsRelease(t: Tables, user: int, place: Place, k: Place)
    ensures var t' := RemoveUserUnpaid(UpdatePaid(t, user, place), user);
            && (Owns(t', user, k) <==> Owns(t, user, k) && (k == place || t.rows[k].paid))
            && (Owns(t', user, k) ==> t'.rows[k].paid)
            && forall v :: v != user ==>
                 (Owns(t', v, k) <==> Owns(t, v, k)) && (Owns(t, v, k) ==> t'.rows[k] == t.rows[k])
  {
  }

  /** After a release another user can reserve exactly what was free before or held unpaid by the user. */
  lemma ReleaseFrees(t: Tables, user: int, other: int, place: Place)
    requires place.seat > 0 && other != user
    ensures var t' := RemoveUserUnpaid(t, user);
            && (Admits(t', place) <==> Admits(t, place) || (Owns(t, user, place) && !t.rows[place].paid))
            && (Owns(InsertReservation(t', other, place), other, place) <==>
                Admits(t', place) || Owns(t, other, place))
  {
  }

  /** One user after the other releases its unpaid rows. */
  function ReleaseAll(t: Tables, users: seq<int>): Tables {
    if users == [] then t else RemoveUserUnpaid(ReleaseAll(t, users[..|users| - 1]), users[|users| - 1])
  }

  lemma {:induction false} ReleasedRows(t: Tables, users: seq<int>)
    ensures var t' := ReleaseAll(t, users);
            && t' == t.(rows := t'.rows)
            && forall k :: k in t'.rows <==> k in t.rows && (t.rows[k].paid || t.rows[k].user !in users)
    ensures forall k :: k in ReleaseAll(t, users).rows ==> ReleaseAll(t, users).rows[k] == t.rows[k]
  {
    if users != [] {
      var n := |users| - 1;
      ReleasedRows(t, users[..n]);
      assert users == users[..n] + [users[n]];
    }
  }

  /** The cleaning at the start is the release of everybody who has a row. */
  lemma CleaningReleasesAll(t: Tables, users: seq<int>)
    requires forall k :: k in t.rows ==> t.rows[k].user in users
    ensures RemoveUnpaid(t) == ReleaseAll(t, users)
  {
    ReleasedRows(t, users);
    assert RemoveUnpaid(t).rows == ReleaseAll(t, users).rows;
  }
}
