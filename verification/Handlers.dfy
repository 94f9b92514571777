/**
 The admin forks a process for every request (src/admin/admin.cpp): here any number of such
 handlers run side by side, each one SQL statement or one send at a time, in any interleaving.
 */
module Handlers {
  import opened Bytes
  import opened Ledger

  datatype Request =
    | Pay(list: seq<Place>)
    | Exit
    | Register
    | Rooms
    | ViewSeats(room: int)
    | Select(seat: int)
    | Unknown

  datatype Reply =
    | Paid
    | Registered(user: int)
    | RoomIds(ids: seq<int>)
    | SeatStatuses(seatIds: seq<int>, statuses: seq<byte>)
    | Selected(success: bool)
    | Invalid
    | NoReply

  /** A seat map sent on the activity queue; `sender` is the handler that sent it. */
  datatype Update = Update(to: int, room: int, seatIds: seq<int>, statuses: seq<byte>, sender: nat)

  /** What a handler does next, with the local variables it needs from there on. */
  datatype Pc =
    | PayAt(list: seq<Place>, next: nat)
    | Logout
    | Release
    | AddUser
    | Login(user: int)
    | AskRooms
    | AskSeats(room: int)
    | AskTaken(room: int, seatIds: seq<int>)
    | Enter(room: int, seatIds: seq<int>, statuses: seq<byte>)
    | AskCurrentRoom(seat: int)
    | Reserve(place: Place)
    | Leave(place: Place)
    | AskWatchers(place: Place)
    | AskLayout(place: Place, watchers: seq<int>)
    | AskMarks(place: Place, watchers: seq<int>, seatIds: seq<int>)
    | Notify(place: Place, watchers: seq<int>, seatIds: seq<int>, statuses: seq<byte>, next: nat)
    | LeaveAgain(place: Place)
    | Answer(reply: Reply)
    | Done(reply: Reply)

  datatype Handler = Handler(user: int, pc: Pc)

  /** A selection that reserved `place`, with the users it found viewing the room. */
  datatype Selection = Selection(user: int, place: Place, watchers: seq<int>)

  /**
   Besides the tables, the handlers and the updates sent, the state remembers what happened:
   `listed` holds (u, p) when a pay request of u reached the row p while u owned it, `taken`
   when u reserved p, `heard` what a selection found, `gone` the users whose EXIT has
   been dispatched and `settled` those whose EXIT has removed their unpaid rows.
   */
  datatype State = State(tables: Tables, live: map<nat, Handler>, updates: seq<Update>,
                         listed: set<(int, Place)>, taken: set<(int, Place)>,
                         heard: map<nat, Selection>, gone: set<int>, settled: set<int>)

  /**
   `room` and `order` are the row order the database happens to choose; `number` is which of the user's
   requests is dispatched, which no handler looks at.
   */
  datatype Action =
    | Dispatch(pid: nat, user: int, number: nat, request: Request)
    | Advance(pid: nat, room: int, order: seq<int>)
    | Restart

  function Start(request: Request): Pc {
    match request
    case Pay(list) => PayAt(list, 0)
    case Exit => Logout
    case Register => AddUser
    case Rooms => AskRooms
    case ViewSeats(room) => AskSeats(room)
    case Select(seat) => AskCurrentRoom(seat)
    case Unknown => Answer(Invalid)
  }

  /** The row order `order` and the room `room` are possible answers of the pending query. */
  ghost predicate Possible(t: Tables, h: Handler, room: int, order: seq<int>) {
    match h.pc
    case AskTaken(r, _) => Lists(order, TakenIn(t, r))
    case AskMarks(place, _, _) => Lists(order, TakenIn(t, place.room))
    case AskWatchers(place) => Lists(order, WatchersOf(t, place.room))
    case AskCurrentRoom(_) => room in RoomsOf(t, h.user)
    case Done(_) => false
    case _ => true
  }

  /** The next statement of a handler: its effect on the tables. */
  function TablesAfter(t: Tables, h: Handler): Tables {
    match h.pc
    case PayAt(list, next) => if next < |list| then UpdatePaid(t, h.user, list[next]) else t
    case Logout => LogoutUser(t, h.user)
    case Release => RemoveUserUnpaid(t, h.user)
    case AddUser => InsertUser(t)
    case Login(user) => LoginUser(t, user)
    case Enter(room, _, _) => InsertUserInRoom(t, h.user, room)
    case Reserve(place) => InsertReservation(t, h.user, place)
    case Leave(_) => RemoveUserInRoom(t, h.user)
    case LeaveAgain(_) => RemoveUserInRoom(t, h.user)
    case _ => t
  }

  /** The next statement of a handler: where it goes on. */
  function PcAfter(t: Tables, h: Handler, room: int, order: seq<int>): Pc {
    match h.pc
    case PayAt(list, next) => if next < |list| then PayAt(list, next + 1) else Answer(Paid)
    case Logout => Release
    case Release => Done(NoReply)
    case AddUser => Login(t.lastUser + 1)
    case Login(user) => Answer(Registered(user))
    case AskRooms => Answer(RoomIds(t.rooms))
    case AskSeats(r) => if SeatsOf(t, r) == [] then Answer(Invalid) else AskTaken(r, SeatsOf(t, r))
    case AskTaken(r, ids) => Enter(r, ids, Marked(|ids|, order))
    case Enter(_, ids, statuses) => Answer(SeatStatuses(ids, statuses))
    case AskCurrentRoom(seat) => if room == 0 then Answer(Invalid) else Reserve(Place(room, seat))
    case Reserve(place) => if Admits(t, place) then Leave(place) else Answer(Selected(false))
    case Leave(place) => AskWatchers(place)
    case AskWatchers(place) => if order == [] then LeaveAgain(place) else AskLayout(place, order)
    case AskLayout(place, watchers) => AskMarks(place, watchers, SeatsOf(t, place.room))
    case AskMarks(place, watchers, ids) => Notify(place, watchers, ids, Marked(|ids|, order), 0)
    case Notify(place, watchers, ids, statuses, next) =>
      if next + 1 < |watchers| then Notify(place, watchers, ids, statuses, next + 1)
      else LeaveAgain(place)
    case LeaveAgain(_) => Answer(Selected(true))
    case Answer(reply) => Done(reply)
    case Done(reply) => Done(reply)
  }

  function UpdatesBy(h: Handler, pid: nat): seq<Update> {
    match h.pc
    case Notify(place, watchers, ids, statuses, next) =>
      if next < |watchers| then [Update(watchers[next], place.room, ids, statuses, pid)] else []
    case _ => []
  }

  function ListedBy(t: Tables, h: Handler): set<(int, Place)> {
    if h.pc.PayAt? && h.pc.next < |h.pc.list| && h.pc.list[h.pc.next] in t.rows
       && t.rows[h.pc.list[h.pc.next]].user == h.user
    then {(h.user, h.pc.list[h.pc.next])} else {}
  }

  function TakenBy(t: Tables, h: Handler): set<(int, Place)> {
    if h.pc.Reserve? && Admits(t, h.pc.place) then {(h.user, h.pc.place)} else {}
  }

  ghost predicate Enabled(s: State, a: Action) {
    match a
    case Dispatch(pid, _, _, _) => pid !in s.live && pid !in s.heard
    case Advance(pid, room, order) => pid in s.live && Possible(s.tables, s.live[pid], room, order)
    case Restart => true
  }

  ghost function Apply(s: State, a: Action): State
    requires Enabled(s, a)
  {
    match a
    case Dispatch(pid, user, _, request) =>
      s.(live := s.live[pid := Handler(user, Start(request))],
         gone := if request == Exit then s.gone + {user} else s.gone)
    case Advance(pid, room, order) =>
      var h := s.live[pid];
      s.(tables := TablesAfter(s.tables, h),
         live := s.live[pid := h.(pc := PcAfter(s.tables, h, room, order))],
         updates := s.updates + UpdatesBy(h, pid),
         listed := s.listed + ListedBy(s.tables, h),
         taken := s.taken + TakenBy(s.tables, h),
         heard := if h.pc.AskWatchers? then s.heard[pid := Selection(h.user, h.pc.place, order)] else s.heard,
         settled := if h.pc.Release? then s.settled + {h.user} else s.settled)
    case Restart =>
      // The processes are gone; clean_db_tables runs before requests are taken again.
      s.(tables := RemoveUsersInRoom(RemoveUnpaid(s.tables)), live := map[], taken := s.listed)
  }

  // ----- what holds in any interleaving whatever -----

  /** From one state to a later one: no paid row goes, no owner changes, no payment is undone. */
  predicate RowsRespected(r: map<Place, Row>, r': map<Place, Row>) {
    forall k :: k in r ==>
      && (r[k].paid ==> k in r' && r'[k] == r[k])
      && (k in r' ==> r'[k].user == r[k].user)
  }

  lemma StepRespectsRows(s: State, a: Action)
    requires Enabled(s, a)
    ensures RowsRespected(s.tables.rows, Apply(s, a).tables.rows)
  {
  }

  /** A restart leaves the paid rows and nobody in a room, and no handler running. */
  lemma RestartCleans(s: State)
    ensures var s' := Apply(s, Restart);
            && s'.live == map[] && s'.tables.viewing == {}
            && (forall k :: k in s'.tables.rows <==> k in s.tables.rows && s.tables.rows[k].paid)
            && (forall k :: k in s'.tables.rows ==> s'.tables.rows[k] == s.tables.rows[k])
            && s'.tables == s.tables.(viewing := s'.tables.viewing, rows := s'.tables.rows)
  {
  }

  /** A course of events. */
  ghost predicate Run(states: seq<State>, acts: seq<Action>) {
    && |states| == |acts| + 1
    && forall i :: 0 <= i < |acts| ==> Enabled(states[i], acts[i]) && states[i + 1] == Apply(states[i], acts[i])
  }

  /** Paid rows are for ever, across other users' exits and restarts of the admin alike. */
  lemma {:induction false} PaidIsForEver(states: seq<State>, acts: seq<Action>, i: nat, j: nat, place: Place)
    requires Run(states, acts) && i <= j < |states|
    requires place in states[i].tables.rows && states[i].tables.rows[place].paid
    ensures place in states[j].tables.rows
    ensures states[j].tables.rows[place] == states[i].tables.rows[place]
    decreases j - i
  {
    hide Apply, Enabled;
    if i < j {
      PaidIsForEver(states, acts, i, j - 1, place);
      StepRespectsRows(states[j - 1], acts[j - 1]);
    }
  }

  /** While a seat stays reserved, it stays reserved by the same user. */
  lemma {:induction false} OneOwner(states: seq<State>, acts: seq<Action>, i: nat, j: nat, place: Place)
    requires Run(states, acts) && i <= j < |states|
    requires forall m :: i <= m <= j ==> place in states[m].tables.rows
    ensures states[j].tables.rows[place].user == states[i].tables.rows[place].user
    ensures states[i].tables.rows[place].paid ==> states[j].tables.rows[place].paid
    decreases j - i
  {
    hide Apply, Enabled;
    if i < j {
      OneOwner(states, acts, i, j - 1, place);
      StepRespectsRows(states[j - 1], acts[j - 1]);
    }
  }

  /** The rows of one user. */
  function RowsOf(t: Tables, user: int): map<Place, Row> {
    map k | k in t.rows && t.rows[k].user == user :: t.rows[k]
  }

  /** No handler touches the rows of another user. */
  lemma OthersKeepRows(s: State, pid: nat, room: int, order: seq<int>, user: int)
    requires Enabled(s, Advance(pid, room, order)) && s.live[pid].user != user
    ensures RowsOf(Apply(s, Advance(pid, room, order)).tables, user) == RowsOf(s.tables, user)
  {
  }

  // ----- one handler running without interruption -----

  ghost predicate Alone(pid: nat, s: State, acts: seq<Action>, s': State)
    decreases |acts|
  {
    if acts == [] then s' == s
    else
      && acts[0].Advance? && acts[0].pid == pid && Enabled(s, acts[0])
      && Alone(pid, Apply(s, acts[0]), acts[1..], s')
  }

  lemma AloneAtFirst(pid: nat, s: State)
    ensures Alone(pid, s, [], s)
  {
  }

  lemma {:induction false} AloneSnoc(pid: nat, s: State, acts: seq<Action>, m: State, a: Action)
    requires Alone(pid, s, acts, m) && a.Advance? && a.pid == pid && Enabled(m, a)
    ensures Alone(pid, s, acts + [a], Apply(m, a))
    decreases |acts|
  {
    hide Apply, Enabled;
    if acts != [] {
      AloneSnoc(pid, Apply(s, acts[0]), acts[1..], m, a);
      assert (acts + [a])[1..] == acts[1..] + [a];
    }
  }

  /** One more statement of the handler `h`. */
  lemma Next(pid: nat, h: Handler, s: State, acts: seq<Action>, m: State, room: int, order: seq<int>)
    returns (acts': seq<Action>, s': State)
    requires Alone(pid, s, acts, m) && pid in m.live && m.live[pid] == h && Possible(m.tables, h, room, order)
    ensures Alone(pid, s, acts', s')
    ensures s'.tables == TablesAfter(m.tables, h) && s'.updates == m.updates + UpdatesBy(h, pid)
    ensures pid in s'.live && s'.live[pid] == h.(pc := PcAfter(m.tables, h, room, order))
  {
    hide TablesAfter, PcAfter, UpdatesBy, Possible;
    var a := Advance(pid, room, order);
    AloneSnoc(pid, s, acts, m, a);
    acts', s' := acts + [a], Apply(m, a);
  }
}
