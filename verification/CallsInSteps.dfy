/**
 The calls of a session where the admin's handlers run statement by statement, those of other users in
 between: from the arrival of a request to its end the user's own rows and rooms change as the call says.
 */
module CallsInSteps {
  import opened Messages
  import opened Ledger
  import opened Handlers
  import opened Orderly
  import opened SessionCalls

  /** What a user has in the tables. */
  datatype Holdings = Holdings(rows: map<Place, Row>, rooms: set<int>)

  function Of(t: Tables, user: int): Holdings {
    Holdings(RowsOf(t, user), RoomsOf(t, user))
  }

  function PaidUp(rows: map<Place, Row>, list: seq<Place>): map<Place, Row> {
    map k | k in rows :: if k in list then Row(rows[k].user, true) else rows[k]
  }

  function PaidOnly(rows: map<Place, Row>): map<Place, Row> {
    map k | k in rows && rows[k].paid :: rows[k]
  }

  /** The row a selection inserts is in a room viewed, and new. */
  predicate SeatTaken(user: int, was: Holdings, place: Place, rows: map<Place, Row>) {
    place.room in was.rooms && place !in was.rows && rows == was.rows[place := Row(user, false)]
  }

  /** What a request has done to the holdings of its user when `reply` is given. */
  ghost predicate Effect(user: int, was: Holdings, request: Request, reply: Reply, now: Holdings) {
    match request
    case Pay(list) => reply == Paid && now == was.(rows := PaidUp(was.rows, list))
    case Exit => reply == NoReply && now == was.(rows := PaidOnly(was.rows))
    case ViewSeats(room) =>
      (reply.SeatStatuses? || reply == Invalid)
      && now == if reply.SeatStatuses? then was.(rooms := was.rooms + {room}) else was
    case Select(seat) =>
      if reply == Selected(true) then
        now.rooms == {} && exists room :: SeatTaken(user, was, Place(room, seat), now.rows)
      else (reply == Selected(false) || reply == Invalid) && now == was
    case _ => now == was
  }

  /** How far a request has come at the statement `pc`. */
  ghost predicate Along(user: int, was: Holdings, request: Request, pc: Pc, now: Holdings) {
    match pc
    case PayAt(list, next) =>
      request == Pay(list) && next <= |list| && now == was.(rows := PaidUp(was.rows, list[..next]))
    case Logout => request == Exit && now == was
    case Release => request == Exit && now == was
    case AddUser => request == Register && now == was
    case Login(_) => request == Register && now == was
    case AskRooms => request == Rooms && now == was
    case AskSeats(room) => request == ViewSeats(room) && now == was
    case AskTaken(room, _) => request == ViewSeats(room) && now == was
    case Enter(room, _, _) => request == ViewSeats(room) && now == was
    case AskCurrentRoom(seat) => request == Select(seat) && now == was
    case Reserve(place) => request == Select(place.seat) && place.room in was.rooms && now == was
    case Leave(place) => Taking(user, was, request, place, now) && now.rooms == was.rooms
    case AskWatchers(place) => Taking(user, was, request, place, now) && now.rooms == {}
    case AskLayout(place, _) => Taking(user, was, request, place, now) && now.rooms == {}
    case AskMarks(place, _, _) => Taking(user, was, request, place, now) && now.rooms == {}
    case Notify(place, _, _, _, _) => Taking(user, was, request, place, now) && now.rooms == {}
    case LeaveAgain(place) => Taking(user, was, request, place, now) && now.rooms == {}
    case Answer(reply) => Effect(user, was, request, reply, now)
    case Done(reply) => Effect(user, was, request, reply, now)
  }

  predicate Taking(user: int, was: Holdings, request: Request, place: Place, now: Holdings) {
    request == Select(place.seat) && SeatTaken(user, was, place, now.rows)
  }

  // ----- one statement -----

  lemma StartsAlong(user: int, was: Holdings, request: Request)
    ensures Along(user, was, request, Start(request), was)
  {
    var none := PaidUp(was.rows, []);
    assert none.Keys == was.rows.Keys;
    assert none == was.rows;
  }

  lemma PaysAlong(t: Tables, user: int, was: Holdings, list: seq<Place>, next: nat)
    requires next < |list| && Of(t, user) == was.(rows := PaidUp(was.rows, list[..next]))
    ensures Of(UpdatePaid(t, user, list[next]), user) == was.(rows := PaidUp(was.rows, list[..next + 1]))
    requires forall k :: k in was.rows ==> was.rows[k].user == user
  {
    var t', place := UpdatePaid(t, user, list[next]), list[next];
    var rows, rows', paid' := RowsOf(t, user), RowsOf(t', user), PaidUp(was.rows, list[..next + 1]);
    assert list[..next + 1] == list[..next] + [place];
    assert rows == PaidUp(was.rows, list[..next]);
    assert rows.Keys == was.rows.Keys == paid'.Keys;
    assert place in rows <==> place in t.rows && t.rows[place].user == user;
    forall k ensures k in rows' <==> k in rows {
      assert k in rows' <==> k in t'.rows && t'.rows[k].user == user;
    }
    forall k | k in rows' ensures rows'[k] == paid'[k] {
      assert rows'[k] == if k == place then Row(user, true) else rows[k];
    }
    assert rows' == paid';
    assert RoomsOf(t', user) == RoomsOf(t, user);
  }

  predicate Selecting(pc: Pc) {
    pc.AskCurrentRoom? || pc.Reserve? || pc.Leave? || pc.AskWatchers? || pc.AskLayout? || pc.AskMarks? || pc.Notify?
    || pc.LeaveAgain?
  }

  lemma SelectsAlong(t: Tables, h: Handler, was: Holdings, request: Request, room: int, order: seq<int>)
    requires Along(h.user, was, request, h.pc, Of(t, h.user)) && Possible(t, h, room, order) && Selecting(h.pc)
    ensures Along(h.user, was, request, PcAfter(t, h, room, order), Of(TablesAfter(t, h), h.user))
  {
    match h.pc
    case Reserve(place) =>
      if Admits(t, place) {
        assert place !in RowsOf(t, h.user);
        assert RowsOf(InsertReservation(t, h.user, place), h.user) == was.rows[place := Row(h.user, false)];
      }
    case Leave(place) => LeaveLeaves(t, h.user);
    case LeaveAgain(place) => LeaveLeaves(t, h.user);
    case _ =>
  }

  /** Every statement of the user's handler takes its request further. */
  lemma StatementAlong(t: Tables, h: Handler, was: Holdings, request: Request, room: int, order: seq<int>)
    requires Along(h.user, was, request, h.pc, Of(t, h.user)) && Possible(t, h, room, order)
    requires forall k :: k in was.rows ==> was.rows[k].user == h.user
    ensures Along(h.user, was, request, PcAfter(t, h, room, order), Of(TablesAfter(t, h), h.user))
  {
    if Selecting(h.pc) {
      hide *;
      SelectsAlong(t, h, was, request, room, order);
    } else {
      match h.pc
      case PayAt(list, next) =>
        if next < |list| {
          PaysAlong(t, h.user, was, list, next);
        } else {
          assert list[..next] == list;
        }
      case Release =>
        assert RowsOf(RemoveUserUnpaid(t, h.user), h.user) == PaidOnly(was.rows);
        assert RoomsOf(RemoveUserUnpaid(t, h.user), h.user) == was.rooms;
      case Enter(r, _, _) =>
        var t' := InsertUserInRoom(t, h.user, r);
        assert Viewing(h.user, r) in t'.viewing;
        assert RoomsOf(t', h.user) == was.rooms + {r};
      case _ =>
    }
  }

  // ----- from the arrival of a request to its end -----

  ghost predicate NoHandlerOf(s: State, user: int) {
    forall p :: p in s.live && Busy(s.live[p]) ==> s.live[p].user != user
  }

  /** `pid` is the user's one handler at work, and `was` what the user had when its request arrived. */
  ghost predicate AtWork(s: State, pid: nat, user: int, was: Holdings, request: Request) {
    && pid in s.live && s.live[pid].user == user
    && Along(user, was, request, s.live[pid].pc, Of(s.tables, user))
    && (forall p :: p in s.live && Busy(s.live[p]) && p != pid ==> s.live[p].user != user)
  }

  lemma OwnRows(t: Tables, user: int)
    ensures forall k :: k in Of(t, user).rows ==> Of(t, user).rows[k].user == user
  {
  }

  lemma OthersKeepHoldings(s: State, a: Action, user: int)
    requires Enabled(s, a) && !a.Restart? && (a.Advance? ==> s.live[a.pid].user != user)
    ensures Of(Apply(s, a).tables, user) == Of(s.tables, user)
  {
    if a.Advance? {
      OthersKeepRows(s, a.pid, a.room, a.order, user);
      hide TablesAfter, RoomsOf, RowsOf;
      Frame(s.tables, s.live[a.pid], user);
    }
  }

  lemma StaysAtWork(s: State, a: Action, pid: nat, user: int, was: Holdings, request: Request)
    requires Inv(s) && Enabled(s, a) && InOrder(s, a) && !a.Restart?
    requires AtWork(s, pid, user, was, request) && Busy(s.live[pid])
    requires forall k :: k in was.rows ==> was.rows[k].user == user
    ensures AtWork(Apply(s, a), pid, user, was, request)
  {
    hide Inv, TablesAfter, PcAfter, Possible, Along;
    if a.Advance? && a.pid == pid {
      StatementAlong(s.tables, s.live[pid], was, request, a.room, a.order);
    } else {
      if a.Advance? {
        PossibleIsBusy(s.tables, s.live[a.pid], a.room, a.order);
      }
      OthersKeepHoldings(s, a, user);
    }
  }

  lemma PossibleIsBusy(t: Tables, h: Handler, room: int, order: seq<int>)
    requires Possible(t, h, room, order)
    ensures Busy(h)
  {
  }

  lemma StaysIdle(s: State, a: Action, user: int)
    requires Enabled(s, a) && !a.Restart? && !(a.Dispatch? && a.user == user) && NoHandlerOf(s, user)
    ensures NoHandlerOf(Apply(s, a), user) && Of(Apply(s, a).tables, user) == Of(s.tables, user)
  {
    hide TablesAfter, PcAfter, Possible;
    if a.Advance? {
      PossibleIsBusy(s.tables, s.live[a.pid], a.room, a.order);
    }
    OthersKeepHoldings(s, a, user);
  }

  /** The handler `pid` runs from the arrival of its request at `i` to its end at `j`, the admin with it. */
  ghost predicate Spans(states: seq<State>, acts: seq<Action>, i: nat, j: nat, pid: nat) {
    && i < j < |states| && j <= |acts| && acts[i].Dispatch? && acts[i].pid == pid
    && (forall m :: i < m < j ==> !acts[m].Restart? && pid in states[m].live && Busy(states[m].live[pid]))
    && pid in states[j].live && states[j].live[pid].pc.Done?
  }

  lemma {:induction false} RequestInSteps(states: seq<State>, acts: seq<Action>, i: nat, j: nat, m: nat, pid: nat)
    requires OrderlyRun(states, acts) && Spans(states, acts, i, j, pid) && i < m <= j
    ensures var user := acts[i].user;
            AtWork(states[m], pid, user, Of(states[i].tables, user), acts[i].request)
    decreases m - i
  {
    hide Inv, Apply, Enabled, InOrder, AtWork;
    var user := acts[i].user;
    if m == i + 1 {
      RequestStarts(states[i], acts[i]);
    } else {
      RequestInSteps(states, acts, i, j, m - 1, pid);
      RunKeepsInv(states, acts, m - 1);
      OwnRows(states[i].tables, user);
      StaysAtWork(states[m - 1], acts[m - 1], pid, user, Of(states[i].tables, user), acts[i].request);
    }
  }

  lemma RequestStarts(s: State, a: Action)
    requires a.Dispatch? && Enabled(s, a) && InOrder(s, a)
    ensures AtWork(Apply(s, a), a.pid, a.user, Of(s.tables, a.user), a.request)
  {
    hide Along, Of;
    StartsAlong(a.user, Of(s.tables, a.user), a.request);
  }

  /** When a request of the user has been carried out, the user's own rows and rooms have changed as it says. */
  lemma RequestTakesEffect(states: seq<State>, acts: seq<Action>, i: nat, j: nat, pid: nat)
    requires OrderlyRun(states, acts) && Spans(states, acts, i, j, pid)
    ensures var user := acts[i].user;
            && Effect(user, Of(states[i].tables, user), acts[i].request, states[j].live[pid].pc.reply,
                      Of(states[j].tables, user))
            && NoHandlerOf(states[j], user)
  {
    hide OrderlyRun;
    RequestInSteps(states, acts, i, j, j, pid);
  }

  /** No request of the user arrives from the step `i` up to the step `j`. */
  ghost predicate Quiet(acts: seq<Action>, i: nat, j: nat, user: int)
    requires j <= |acts|
  {
    forall m :: i <= m < j ==> !acts[m].Restart? && !(acts[m].Dispatch? && acts[m].user == user)
  }

  /** And until the next request of the user nobody changes them. */
  lemma {:induction false} BetweenRequests(states: seq<State>, acts: seq<Action>, i: nat, j: nat, user: int)
    requires Run(states, acts) && i <= j <= |acts| && NoHandlerOf(states[i], user) && Quiet(acts, i, j, user)
    ensures NoHandlerOf(states[j], user) && Of(states[j].tables, user) == Of(states[i].tables, user)
    decreases j - i
  {
    hide Apply, Enabled, NoHandlerOf;
    if i < j {
      BetweenRequests(states, acts, i, j - 1, user);
      StaysIdle(states[j - 1], acts[j - 1], user);
    }
  }

  // ----- the list of a session -----

  /** A call, with the handler `pid` that carried out its request from the step `from` to the step `to`. */
  datatype Turn = Turn(call: Call, pid: nat, from: nat, to: nat)

  /** The session's list after its calls. */
  function ListAfter(turns: seq<Turn>): seq<Place> {
    if turns == [] then []
    else After(Standing(true, ListAfter(turns[..|turns| - 1])), turns[|turns| - 1].call).list
  }

  function CallsOf(turns: seq<Turn>): seq<Event> {
    seq(|turns|, i requires 0 <= i < |turns| => Mine(turns[i].call))
  }

  function EndOf(first: nat, turns: seq<Turn>): nat {
    if turns == [] then first else turns[|turns| - 1].to
  }

  /** `x` is the next call of the user after the step `since`, with the client's list being `list`. */
  ghost predicate NextCall(states: seq<State>, acts: seq<Action>, user: int, since: nat, list: seq<Place>, x: Turn) {
    && since <= x.from && Spans(states, acts, x.from, x.to, x.pid) && Quiet(acts, since, x.from, user)
    && acts[x.from].user == user && acts[x.from].request == RequestOf(x.call, list)
    && (Succeeds(x.call) <==> Granted(x.call, states[x.to].live[x.pid].pc.reply))
  }

  /** The calls of a session that begins at the step `first`, among the statements of all users' handlers. */
  ghost predicate InTurns(states: seq<State>, acts: seq<Action>, user: int, first: nat, turns: seq<Turn>) {
    && OrderlyRun(states, acts) && first < |states|
    && Of(states[first].tables, user) == Holdings(map[], {}) && NoHandlerOf(states[first], user)
    && forall n :: 0 <= n < |turns| ==>
         NextCall(states, acts, user, EndOf(first, turns[..n]), ListAfter(turns[..n]), turns[n])
  }

  /** Wherever the seat may become the user's, it is in the room the caller names. */
  predicate NamesItsRoom(was: Holdings, seat: Seat) {
    forall room :: room in was.rooms && Place(room, seat.id) !in was.rows ==> room == seat.roomId
  }

  ghost predicate Listed(list: seq<Place>, rows: map<Place, Row>) {
    (forall i, j :: 0 <= i < j < |list| ==> list[i] != list[j]) && forall k :: k in list <==> k in rows
  }

  /** A request takes the user's rows where the call takes the list. */
  lemma CallAgrees(user: int, was: Holdings, list: seq<Place>, call: Call, reply: Reply, now: Holdings)
    requires Effect(user, was, RequestOf(call, list), reply, now) && (Succeeds(call) <==> Granted(call, reply))
    requires Listed(list, was.rows) && !call.EndMom? && (call.ReserveSeat? ==> NamesItsRoom(was, call.seat))
    ensures Listed(After(Standing(true, list), call).list, now.rows)
    ensures now.rooms == RoomsAfter(was.rooms, call)
    ensures call == PaySeats(true) ==> forall k :: k in now.rows ==> now.rows[k].paid
  {
    if call.ReserveSeat? && call.ok {
      var room :| SeatTaken(user, was, Place(room, call.seat.id), now.rows);
      assert room == call.seat.roomId;
    }
  }

  lemma ListedIsListing(list: seq<Place>, t: Tables, user: int)
    ensures ListsRows(list, t, user) <==> Listed(list, Of(t, user).rows)
  {
    assert forall k :: Owns(t, user, k) <==> k in RowsOf(t, user);
  }

  lemma FewerTurns(states: seq<State>, acts: seq<Action>, user: int, first: nat, turns: seq<Turn>)
    requires InTurns(states, acts, user, first, turns) && turns != []
    ensures var before, x := turns[..|turns| - 1], turns[|turns| - 1];
            && OrderlyRun(states, acts) && InTurns(states, acts, user, first, before)
            && NextCall(states, acts, user, EndOf(first, before), ListAfter(before), x)
  {
    hide OrderlyRun, NextCall, EndOf, ListAfter, NoHandlerOf;
    var before := turns[..|turns| - 1];
    assert forall n: nat :: n <= |before| ==> before[..n] == turns[..n];
    forall n | 0 <= n < |before|
      ensures NextCall(states, acts, user, EndOf(first, before[..n]), ListAfter(before[..n]), before[n])
    {
      assert before[n] == turns[n] && before[..n] == turns[..n];
    }
  }

  lemma LastCallNames(turns: seq<Turn>, was: Holdings)
    requires turns != [] && OneRoomAtATime(CallsOf(turns)) && was.rooms == Viewed(CallsOf(turns[..|turns| - 1]))
    ensures Viewed(CallsOf(turns)) == RoomsAfter(was.rooms, turns[|turns| - 1].call)
    ensures var call := turns[|turns| - 1].call; call.ReserveSeat? ==> NamesItsRoom(was, call.seat)
  {
    hide Viewed;
    var events, n := CallsOf(turns), |turns| - 1;
    assert events[..n] == CallsOf(turns[..n]) && events[n] == Mine(turns[n].call);
    ViewedNext(events);
  }

  lemma ViewedNext(events: seq<Event>)
    requires events != [] && events[|events| - 1].Mine?
    ensures Viewed(events) == RoomsAfter(Viewed(events[..|events| - 1]), events[|events| - 1].call)
  {
  }

  lemma FewerCalls(turns: seq<Turn>)
    requires turns != [] && OneRoomAtATime(CallsOf(turns))
    ensures OneRoomAtATime(CallsOf(turns[..|turns| - 1]))
  {
    hide Viewed;
    var events, before := CallsOf(turns), CallsOf(turns[..|turns| - 1]);
    forall i | 0 <= i < |before| && before[i].Mine? && before[i].call.ReserveSeat?
      ensures Viewed(before[..i]) == {before[i].call.seat.roomId}
    {
      assert before[..i] == events[..i] && before[i] == events[i];
    }
  }

  /** List and rows agree after the calls, the rooms are those viewed, and after a payment every row is paid. */
  ghost predicate Agreed(t: Tables, user: int, turns: seq<Turn>) {
    && ListsRows(ListAfter(turns), t, user) && RoomsOf(t, user) == Viewed(CallsOf(turns))
    && (turns != [] && turns[|turns| - 1].call == PaySeats(true) ==> forall k :: Owns(t, user, k) ==> t.rows[k].paid)
  }

  lemma StaysAgreed(t: Tables, t': Tables, user: int, turns: seq<Turn>)
    requires Agreed(t, user, turns) && Of(t', user) == Of(t, user)
    ensures Agreed(t', user, turns)
  {
    hide Viewed, ListAfter, RoomsOf;
    OnlyOwnRowsMatter(ListAfter(turns), t, t', user);
    assert forall k :: Owns(t, user, k) <==> k in RowsOf(t, user);
    assert forall k :: Owns(t', user, k) <==> k in RowsOf(t', user);
  }

  lemma BeginsAgreed(t: Tables, user: int)
    requires Of(t, user) == Holdings(map[], {})
    ensures Agreed(t, user, [])
  {
    NoRows(t, user);
  }

  lemma CallAgreed(states: seq<State>, acts: seq<Action>, user: int, since: nat, turns: seq<Turn>)
    requires OrderlyRun(states, acts) && turns != []
    requires NextCall(states, acts, user, since, ListAfter(turns[..|turns| - 1]), turns[|turns| - 1])
    requires Agreed(states[turns[|turns| - 1].from].tables, user, turns[..|turns| - 1])
    requires OneRoomAtATime(CallsOf(turns)) && !turns[|turns| - 1].call.EndMom?
    ensures var x := turns[|turns| - 1];
            Agreed(states[x.to].tables, user, turns) && NoHandlerOf(states[x.to], user)
  {
    var before, x := turns[..|turns| - 1], turns[|turns| - 1];
    RequestTakesEffect(states, acts, x.from, x.to, x.pid);
    hide OrderlyRun, NoHandlerOf, Effect, RoomsOf, RowsOf, Viewed, After, Quiet, RequestOf, Granted, Succeeds;
    var was, now := Of(states[x.from].tables, user), Of(states[x.to].tables, user);
    ListedIsListing(ListAfter(before), states[x.from].tables, user);
    LastCallNames(turns, was);
    CallAgrees(user, was, ListAfter(before), x.call, states[x.to].live[x.pid].pc.reply, now);
    ListedIsListing(ListAfter(turns), states[x.to].tables, user);
    RowsAreOwned(states[x.to].tables, user);
  }

  lemma RowsAreOwned(t: Tables, user: int)
    ensures forall k :: Owns(t, user, k) ==> k in RowsOf(t, user) && RowsOf(t, user)[k] == t.rows[k]
  {
  }

  /**
   A session that views one room at a time has, from the end of each of its calls to its next call, a list
   that names exactly its rows, whatever statements the handlers of others run during and between the calls.
   */
  lemma {:induction false} AgreesInSteps(states: seq<State>, acts: seq<Action>, user: int, first: nat,
                                         turns: seq<Turn>, j: nat)
    requires InTurns(states, acts, user, first, turns) && OneRoomAtATime(CallsOf(turns))
    requires forall n :: 0 <= n < |turns| ==> !turns[n].call.EndMom?
    requires EndOf(first, turns) <= j <= |acts| && Quiet(acts, EndOf(first, turns), j, user)
    ensures |states| == |acts| + 1 && Agreed(states[j].tables, user, turns) && NoHandlerOf(states[j], user)
    decreases |turns|
  {
    assert Run(states, acts);
    hide InTurns, Run, OrderlyRun, NoHandlerOf, Agreed, Of, ListAfter, CallsOf, OneRoomAtATime;
    if turns == [] {
      SessionBegins(states, acts, user, first);
    } else {
      var before, x := turns[..|turns| - 1], turns[|turns| - 1];
      FewerTurns(states, acts, user, first, turns);
      FewerCalls(turns);
      AgreesInSteps(states, acts, user, first, before, x.from);
      CallAgreed(states, acts, user, EndOf(first, before), turns);
    }
    BetweenRequests(states, acts, EndOf(first, turns), j, user);
    StaysAgreed(states[EndOf(first, turns)].tables, states[j].tables, user, turns);
  }

  lemma SessionBegins(states: seq<State>, acts: seq<Action>, user: int, first: nat)
    requires InTurns(states, acts, user, first, [])
    ensures first < |states| && Agreed(states[first].tables, user, []) && NoHandlerOf(states[first], user)
  {
    BeginsAgreed(states[first].tables, user);
  }
}
