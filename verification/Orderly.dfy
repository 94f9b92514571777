/**
 Handlers of different users in any interleaving, those of one user one after the other and
 none after the user's EXIT, which is how the session listeners issue requests (module Relay).
 */
module Orderly {
  import opened Messages
  import opened Ledger
  import opened Handlers

  predicate Busy(h: Handler) {
    !h.pc.Done?
  }

  /** A seat is selected by a user who is in a room, and its number is not beyond the seats of the user's rooms. */
  ghost predicate SelectAllowed(t: Tables, user: int, seat: int) {
    && RoomsOf(t, user) != {}
    && forall room :: room in RoomsOf(t, user) && room != 0 && seat > 0 ==> InRange(t, Place(room, seat))
  }

  ghost predicate InOrder(s: State, a: Action) {
    a.Dispatch? ==>
      && a.user !in s.gone
      && (forall pid :: pid in s.live && Busy(s.live[pid]) ==> s.live[pid].user != a.user)
      && (a.request.Select? ==> SelectAllowed(s.tables, a.user, a.request.seat))
  }

  /** The database as `clean_db_tables` leaves it, and no handler yet. */
  ghost predicate Initial(s: State) {
    && Consistent(s.tables) && s.live == map[] && s.updates == [] && s.heard == map[]
    && s.gone == s.settled == {}
    && (forall k :: k in s.tables.rows ==> s.tables.rows[k].paid)
    && s.listed == (set k | k in s.tables.rows :: (s.tables.rows[k].user, k))
    && s.taken == s.listed
  }

  ghost predicate OrderlyRun(states: seq<State>, acts: seq<Action>) {
    && Run(states, acts) && Initial(states[0])
    && forall i :: 0 <= i < |acts| ==> InOrder(states[i], acts[i])
  }

  function Recipients(updates: seq<Update>, pid: nat): seq<int> {
    if updates == [] then []
    else
      var n := |updates| - 1;
      Recipients(updates[..n], pid) + if updates[n].sender == pid then [updates[n].to] else []
  }

  lemma RecipientsSnoc(updates: seq<Update>, u: Update, pid: nat)
    ensures Recipients(updates + [u], pid) == Recipients(updates, pid) + if u.sender == pid then [u.to] else []
  {
    assert (updates + [u])[..|updates|] == updates;
  }

  lemma {:induction false} NoRecipients(updates: seq<Update>, pid: nat)
    requires forall u :: u in updates ==> u.sender != pid
    ensures Recipients(updates, pid) == []
  {
    if updates != [] {
      NoRecipients(updates[..|updates| - 1], pid);
    }
  }

  // ----- the invariant -----

  /** The row a selection inserted is still there and still its user's. */
  predicate Holding(t: Tables, user: int, place: Place) {
    InRange(t, place) && Owns(t, user, place)
  }

  ghost predicate Distinct(xs: seq<int>) {
    forall i, j :: 0 <= i < j < |xs| ==> xs[i] != xs[j]
  }

  /** The pcs of a handler whose selection has found the watchers of its room. */
  predicate HasHeard(pc: Pc) {
    match pc
    case AskLayout(_, _) => true
    case AskMarks(_, _, _) => true
    case Notify(_, _, _, _, _) => true
    case LeaveAgain(_) => true
    case Answer(reply) => reply == Selected(true)
    case Done(reply) => reply == Selected(true)
    case _ => false
  }

  /** What a handler relies on at each statement. */
  ghost predicate PcOk(t: Tables, h: Handler, gone: set<int>) {
    match h.pc
    case Logout => h.user in gone
    case Release => h.user in gone
    case AskTaken(room, ids) => room in t.seats && ids == t.seats[room]
    case Enter(room, ids, statuses) => room in t.seats && ids == t.seats[room] && |statuses| == |ids|
    case AskCurrentRoom(seat) => SelectAllowed(t, h.user, seat)
    case Reserve(place) => place.seat > 0 ==> InRange(t, place)
    case Leave(place) => Holding(t, h.user, place)
    case AskWatchers(place) => Holding(t, h.user, place) && RoomsOf(t, h.user) == {}
    case AskLayout(place, watchers) => Holding(t, h.user, place) && watchers != []
    case AskMarks(place, watchers, ids) =>
      Holding(t, h.user, place) && watchers != [] && ids == t.seats[place.room]
    case Notify(place, watchers, ids, statuses, next) =>
      && Holding(t, h.user, place) && next < |watchers|
      && ids == t.seats[place.room] && |statuses| == |ids|
      && statuses[place.seat - 1] == SEAT_STATUS_OCCUPIED
    case LeaveAgain(place) => Holding(t, h.user, place)
    case _ => true
  }

  /** The updates a handler has sent so far. */
  ghost predicate ToldOk(h: Handler, selection: Selection, told: seq<int>) {
    match h.pc
    case AskLayout(place, watchers) => selection == Selection(h.user, place, watchers) && told == []
    case AskMarks(place, watchers, _) => selection == Selection(h.user, place, watchers) && told == []
    case Notify(place, watchers, _, _, next) =>
      selection == Selection(h.user, place, watchers) && next < |watchers| && told == watchers[..next]
    case _ => told == selection.watchers
  }

  ghost predicate HandlersOk(s: State) {
    forall pid :: pid in s.live ==> PcOk(s.tables, s.live[pid], s.gone)
  }

  ghost predicate OnePerUser(s: State) {
    && (forall p, q | p in s.live && q in s.live && Busy(s.live[p]) && Busy(s.live[q]) ::
          s.live[p].user == s.live[q].user ==> p == q)
    && (forall p :: p in s.live && Busy(s.live[p]) && s.live[p].user in s.gone ==>
          s.live[p].pc.Logout? || s.live[p].pc.Release?)
    && (forall p :: p in s.live && Busy(s.live[p]) ==> s.live[p].user !in s.settled)
    && s.settled <= s.gone
  }

  ghost predicate ToldRight(s: State) {
    && (forall pid :: pid in s.live ==> (HasHeard(s.live[pid].pc) <==> pid in s.heard))
    && (forall pid :: pid in s.live && pid in s.heard ==>
          ToldOk(s.live[pid], s.heard[pid], Recipients(s.updates, pid)))
  }

  /** An update shows the seat its selection took, and goes to a watcher other than the requester. */
  ghost predicate Shows(u: Update, selection: Selection) {
    && u.room == selection.place.room
    && 1 <= selection.place.seat <= |u.statuses|
    && u.statuses[selection.place.seat - 1] == SEAT_STATUS_OCCUPIED
    && u.to in selection.watchers && u.to != selection.user
  }

  ghost predicate UpdatesShow(s: State) {
    && (forall u :: u in s.updates ==> u.sender in s.heard && Shows(u, s.heard[u.sender]))
    && (forall pid :: pid in s.heard ==>
          Distinct(s.heard[pid].watchers) && s.heard[pid].user !in s.heard[pid].watchers)
  }

  /** What has been listed for payment and what has been taken, against the rows. */
  ghost predicate Recorded(s: State) {
    && (forall u, k :: (u, k) in s.listed <==> k in s.tables.rows && s.tables.rows[k] == Row(u, true))
    && (forall u, k :: (u, k) in s.taken && u !in s.settled ==> Owns(s.tables, u, k))
    && (forall k :: k in s.tables.rows ==> (s.tables.rows[k].user, k) in s.taken)
    && (forall k :: k in s.tables.rows && s.tables.rows[k].user in s.settled ==> s.tables.rows[k].paid)
  }

  ghost predicate Inv(s: State) {
    Consistent(s.tables) && HandlersOk(s) && OnePerUser(s) && ToldRight(s) && UpdatesShow(s) && Recorded(s)
  }

  lemma InitialInv(s: State)
    requires Initial(s)
    ensures Inv(s)
  {
  }

  // ----- one step -----

  /** What a statement of a handler leaves alone: the seats, and all that belongs to other users. */
  lemma Frame(t: Tables, h: Handler, user: int)
    requires user != h.user
    ensures TablesAfter(t, h).seats == t.seats
    ensures RoomsOf(TablesAfter(t, h), user) == RoomsOf(t, user)
    ensures forall k :: Owns(t, user, k) <==> Owns(TablesAfter(t, h), user, k)
    ensures forall k :: Owns(t, user, k) ==> TablesAfter(t, h).rows[k] == t.rows[k]
  {
  }

  lemma RowsStayInRange(t: Tables, h: Handler)
    requires Consistent(t) && (h.pc.Reserve? && h.pc.place.seat > 0 ==> InRange(t, h.pc.place))
    ensures RowsInRange(TablesAfter(t, h))
  {
    hide Numbered, ViewingKnown;
  }

  lemma ViewingStaysKnown(t: Tables, h: Handler)
    requires Consistent(t) && (h.pc.Enter? ==> h.pc.room in t.seats)
    ensures ViewingKnown(TablesAfter(t, h)) && TablesAfter(t, h).seats == t.seats
  {
    hide Numbered, RowsInRange;
  }

  lemma ConsistentAfter(t: Tables, h: Handler, gone: set<int>)
    requires Consistent(t) && PcOk(t, h, gone)
    ensures Consistent(TablesAfter(t, h))
  {
    RowsStayInRange(t, h);
    ViewingStaysKnown(t, h);
    hide RowsInRange, ViewingKnown, TablesAfter;
  }

  lemma KeepsConsistent(s: State, a: Action)
    requires Inv(s) && Enabled(s, a) && InOrder(s, a)
    ensures Consistent(Apply(s, a).tables)
  {
    if a.Advance? {
      ConsistentAfter(s.tables, s.live[a.pid], s.gone);
    }
  }

  lemma KeepsOnePerUser(s: State, a: Action)
    requires Inv(s) && Enabled(s, a) && InOrder(s, a)
    ensures OnePerUser(Apply(s, a))
  {
    if a.Advance? {
      hide Consistent, Recorded, TablesAfter, ListedBy, TakenBy, ToldRight, UpdatesShow;
      assert PcOk(s.tables, s.live[a.pid], s.gone);
    }
  }

  lemma PaymentRecorded(s: State, pid: nat, room: int, order: seq<int>)
    requires Recorded(s) && pid in s.live && s.live[pid].pc.PayAt? && s.live[pid].user !in s.settled
    ensures Recorded(Apply(s, Advance(pid, room, order)))
  {
  }

  lemma ReleaseRecorded(s: State, pid: nat, room: int, order: seq<int>)
    requires Recorded(s) && pid in s.live && s.live[pid].pc.Release?
    ensures Recorded(Apply(s, Advance(pid, room, order)))
  {
  }

  lemma ReservationRecorded(s: State, pid: nat, room: int, order: seq<int>)
    requires Recorded(s) && pid in s.live && s.live[pid].pc.Reserve? && s.live[pid].user !in s.settled
    ensures Recorded(Apply(s, Advance(pid, room, order)))
  {
  }

  /** The other statements leave rows and records as they are. */
  lemma RowsUntouched(t: Tables, h: Handler)
    requires !h.pc.PayAt? && !h.pc.Release? && !h.pc.Reserve?
    ensures TablesAfter(t, h).rows == t.rows && ListedBy(t, h) == TakenBy(t, h) == {}
  {
  }

  lemma KeepsRecorded(s: State, a: Action)
    requires Inv(s) && Enabled(s, a) && InOrder(s, a)
    ensures Recorded(Apply(s, a))
  {
    hide Consistent, HandlersOk, ToldRight, UpdatesShow;
    if a.Advance? {
      hide TablesAfter, ListedBy, TakenBy;
      var h := s.live[a.pid];
      match h.pc
      case PayAt(_, _) => PaymentRecorded(s, a.pid, a.room, a.order);
      case Release => ReleaseRecorded(s, a.pid, a.room, a.order);
      case Reserve(_) => ReservationRecorded(s, a.pid, a.room, a.order);
      case _ => RowsUntouched(s.tables, h);
    }
  }

  /** The handler that moves is all right at its next statement. */
  lemma MoverOk(t: Tables, h: Handler, gone: set<int>, room: int, order: seq<int>)
    requires Consistent(t) && PcOk(t, h, gone) && Possible(t, h, room, order)
    ensures PcOk(TablesAfter(t, h), h.(pc := PcAfter(t, h, room, order)), gone)
  {
    match h.pc
    case AskMarks(place, watchers, ids) =>
      var statuses := Marked(|ids|, order);
      assert place.seat in TakenIn(t, place.room);
      assert statuses[place.seat - 1] == SEAT_STATUS_OCCUPIED;
    case Leave(place) =>
      LeaveLeaves(t, h.user);
    case AskCurrentRoom(seat) =>
      assert room in RoomsOf(t, h.user);
    case AskWatchers(place) =>
    case AskLayout(place, watchers) =>
    case Notify(place, watchers, ids, statuses, next) =>
    case Reserve(place) =>
    case _ =>
  }

  lemma LeaveLeaves(t: Tables, user: int)
    ensures RoomsOf(RemoveUserInRoom(t, user), user) == {}
  {
  }

  lemma OtherOk(t: Tables, mover: Handler, h: Handler, gone: set<int>)
    requires PcOk(t, h, gone) && (Busy(h) ==> mover.user != h.user)
    ensures PcOk(TablesAfter(t, mover), h, gone)
  {
    if Busy(h) {
      hide TablesAfter, RoomsOf;
      Frame(t, mover, h.user);
    }
  }

  lemma KeepsHandlersOk(s: State, a: Action)
    requires Inv(s) && Enabled(s, a) && InOrder(s, a)
    ensures HandlersOk(Apply(s, a))
  {
    hide PcOk, Consistent, ToldRight, UpdatesShow, Recorded, TablesAfter, PcAfter;
    match a
    case Restart =>
    case Dispatch(pid, user, _, request) =>
      forall q | q in s.live && q != pid ensures PcOk(s.tables, s.live[q], Apply(s, a).gone) {
        GoneGrows(s.tables, s.live[q], s.gone, Apply(s, a).gone);
      }
      StartOk(s, a);
    case Advance(pid, room, order) =>
      MoverOk(s.tables, s.live[pid], s.gone, room, order);
      forall q | q in s.live && q != pid ensures PcOk(Apply(s, a).tables, s.live[q], s.gone) {
        OtherOk(s.tables, s.live[pid], s.live[q], s.gone);
      }
  }

  lemma GoneGrows(t: Tables, h: Handler, gone: set<int>, gone': set<int>)
    requires PcOk(t, h, gone) && gone <= gone'
    ensures PcOk(t, h, gone')
  {
  }

  lemma StartOk(s: State, a: Action)
    requires a.Dispatch? && Enabled(s, a) && InOrder(s, a)
    ensures PcOk(s.tables, Handler(a.user, Start(a.request)), Apply(s, a).gone)
  {
  }

  lemma WatchersAreOthers(t: Tables, h: Handler, gone: set<int>, order: seq<int>)
    requires h.pc.AskWatchers? && PcOk(t, h, gone) && Lists(order, WatchersOf(t, h.pc.place.room))
    ensures Distinct(order) && h.user !in order
  {
    QueriesAreExact(t, h.user, h.pc.place.room, h.pc.place.seat);
  }

  lemma SentShows(t: Tables, h: Handler, gone: set<int>, selection: Selection, told: seq<int>, pid: nat)
    requires PcOk(t, h, gone) && h.pc.Notify? && ToldOk(h, selection, told)
    requires selection.user !in selection.watchers
    ensures forall u :: u in UpdatesBy(h, pid) ==> u.sender == pid && Shows(u, selection)
  {
    assert h.pc.watchers[h.pc.next] in h.pc.watchers;
  }

  lemma KeepsUpdatesShow(s: State, a: Action)
    requires Inv(s) && Enabled(s, a) && InOrder(s, a)
    ensures UpdatesShow(Apply(s, a))
  {
    if a.Advance? {
      hide Consistent, OnePerUser, Recorded, TablesAfter, ListedBy, TakenBy, PcAfter, PcOk, Shows, Distinct,
           HasHeard, ToldOk;
      var h := s.live[a.pid];
      match h.pc
      case AskWatchers(_) =>
        assert !HasHeard(h.pc) by { AskingHasNotHeard(h.pc); }
        WatchersAreOthers(s.tables, h, s.gone, a.order);
      case Notify(_, _, _, _, _) =>
        assert HasHeard(h.pc) by { AskingHasNotHeard(h.pc); }
        SentShows(s.tables, h, s.gone, s.heard[a.pid], Recipients(s.updates, a.pid), a.pid);
      case _ =>
    }
  }

  lemma AskingHasNotHeard(pc: Pc)
    ensures pc.AskWatchers? ==> !HasHeard(pc)
    ensures pc.Notify? ==> HasHeard(pc)
  {
  }

  /** The updates a step adds are the mover's own. */
  lemma RecipientsAfter(s: State, pid: nat, q: nat)
    requires pid in s.live
    ensures var sent := UpdatesBy(s.live[pid], pid);
            Recipients(s.updates + sent, q)
            == if q == pid && sent != [] then Recipients(s.updates, q) + [sent[0].to]
               else Recipients(s.updates, q)
  {
    var sent := UpdatesBy(s.live[pid], pid);
    if sent == [] {
      assert s.updates + sent == s.updates;
    } else {
      RecipientsSnoc(s.updates, sent[0], q);
    }
  }

  lemma HeardAfter(t: Tables, h: Handler, room: int, order: seq<int>)
    requires Busy(h)
    ensures HasHeard(PcAfter(t, h, room, order)) <==> HasHeard(h.pc) || h.pc.AskWatchers?
  {
  }

  lemma ToldAfterAsking(t: Tables, h: Handler, room: int, order: seq<int>)
    requires h.pc.AskWatchers?
    ensures ToldOk(h.(pc := PcAfter(t, h, room, order)), Selection(h.user, h.pc.place, order), [])
  {
  }

  lemma ToldAfter(t: Tables, h: Handler, gone: set<int>, room: int, order: seq<int>,
                  selection: Selection, told: seq<int>, pid: nat)
    requires PcOk(t, h, gone) && HasHeard(h.pc) && Busy(h) && ToldOk(h, selection, told)
    ensures var sent := UpdatesBy(h, pid);
            ToldOk(h.(pc := PcAfter(t, h, room, order)), selection,
                   if sent != [] then told + [sent[0].to] else told)
  {
    if h.pc.Notify? {
      var watchers, next := h.pc.watchers, h.pc.next;
      assert watchers[..next] + [watchers[next]] == watchers[..next + 1];
      assert watchers[..|watchers|] == watchers;
    }
  }

  lemma MoverTold(s: State, pid: nat, room: int, order: seq<int>)
    requires Inv(s) && Enabled(s, Advance(pid, room, order))
    ensures var s' := Apply(s, Advance(pid, room, order));
            && (HasHeard(s'.live[pid].pc) <==> pid in s'.heard)
            && (pid in s'.heard ==> ToldOk(s'.live[pid], s'.heard[pid], Recipients(s'.updates, pid)))
  {
    hide Recipients, Consistent, OnePerUser, Recorded, TablesAfter, ListedBy, TakenBy, PcAfter,
         ToldOk, HasHeard, PcOk;
    var h := s.live[pid];
    RecipientsAfter(s, pid, pid);
    HeardAfter(s.tables, h, room, order);
    if h.pc.AskWatchers? {
      AskingHasNotHeard(h.pc);
      NoRecipients(s.updates, pid);
      ToldAfterAsking(s.tables, h, room, order);
    } else if HasHeard(h.pc) {
      ToldAfter(s.tables, h, s.gone, room, order, s.heard[pid], Recipients(s.updates, pid), pid);
    }
  }

  lemma KeepsToldRight(s: State, a: Action)
    requires Inv(s) && Enabled(s, a) && InOrder(s, a)
    ensures ToldRight(Apply(s, a))
  {
    hide Recipients, Consistent, HandlersOk, OnePerUser, Recorded, UpdatesShow, ToldOk, HasHeard,
         TablesAfter, ListedBy, TakenBy, PcAfter;
    match a
    case Restart =>
    case Dispatch(pid, user, _, request) =>
      StartHasNotHeard(request);
    case Advance(pid, room, order) =>
      MoverTold(s, pid, room, order);
      forall q | q in s.live && q != pid {
        RecipientsAfter(s, pid, q);
      }
  }

  lemma StartHasNotHeard(request: Request)
    ensures !HasHeard(Start(request))
  {
  }

  lemma StepKeepsInv(s: State, a: Action)
    requires Inv(s) && Enabled(s, a) && InOrder(s, a)
    ensures Inv(Apply(s, a))
  {
    KeepsConsistent(s, a);
    KeepsOnePerUser(s, a);
    KeepsRecorded(s, a);
    KeepsHandlersOk(s, a);
    KeepsUpdatesShow(s, a);
    KeepsToldRight(s, a);
  }

  lemma {:induction false} RunKeepsInv(states: seq<State>, acts: seq<Action>, i: nat)
    requires OrderlyRun(states, acts) && i < |states|
    ensures Inv(states[i])
  {
    hide Inv, Apply, Enabled, InOrder;
    if i == 0 {
      InitialInv(states[0]);
    } else {
      RunKeepsInv(states, acts, i - 1);
      StepKeepsInv(states[i - 1], acts[i - 1]);
    }
  }

  // ----- settlement -----

  /**
   Once the EXIT of a user has been carried out, the user's rows are exactly the places that
   some pay request of the user listed while the user owned them, and all of them are paid.
   */
  lemma Settlement(states: seq<State>, acts: seq<Action>, i: nat, user: int)
    requires OrderlyRun(states, acts) && i < |states| && user in states[i].settled
    ensures forall k :: Owns(states[i].tables, user, k) <==> (user, k) in states[i].listed
    ensures forall k :: Owns(states[i].tables, user, k) ==> states[i].tables.rows[k].paid
  {
    hide OrderlyRun, Consistent, HandlersOk, OnePerUser, ToldRight, UpdatesShow;
    RunKeepsInv(states, acts, i);
  }

  /** The step that settles a user frees every place the user took and did not list, and no other. */
  lemma SettlingFrees(states: seq<State>, acts: seq<Action>, i: nat)
    requires OrderlyRun(states, acts) && i < |acts| && acts[i].Advance?
    requires states[i].live[acts[i].pid].pc.Release?
    ensures var user, s, s' := states[i].live[acts[i].pid].user, states[i], states[i + 1];
            && user in s'.settled
            && (forall k :: (user, k) in s.taken && (user, k) !in s.listed ==> k !in s'.tables.rows)
            && (forall k :: k in s.tables.rows && s.tables.rows[k].user != user ==>
                  k in s'.tables.rows && s'.tables.rows[k] == s.tables.rows[k])
            && (forall k :: k in s'.tables.rows ==> k in s.tables.rows)
  {
    RunKeepsInv(states, acts, i);
    hide Consistent, HandlersOk, ToldRight, UpdatesShow;
  }

  /** No reservation is ever of a seat the room does not have. */
  lemma ReservedSeatsExist(states: seq<State>, acts: seq<Action>, i: nat)
    requires OrderlyRun(states, acts) && i < |states|
    ensures RowsInRange(states[i].tables)
  {
    RunKeepsInv(states, acts, i);
  }

  // ----- broadcast -----

  lemma StepKeepsHeard(s: State, a: Action, pid: nat)
    requires Inv(s) && Enabled(s, a) && pid in s.heard
    ensures pid in Apply(s, a).heard && Apply(s, a).heard[pid] == s.heard[pid]
  {
    if a.Advance? {
      assert HasHeard(s.live[a.pid].pc) <==> a.pid in s.heard;
    }
  }

  lemma {:induction false} HeardStays(states: seq<State>, acts: seq<Action>, i: nat, j: nat, pid: nat)
    requires OrderlyRun(states, acts) && i <= j < |states| && pid in states[i].heard
    ensures pid in states[j].heard && states[j].heard[pid] == states[i].heard[pid]
    decreases j - i
  {
    hide Inv, Apply, Enabled, InOrder;
    if i < j {
      HeardStays(states, acts, i, j - 1, pid);
      RunKeepsInv(states, acts, j - 1);
      StepKeepsHeard(states[j - 1], acts[j - 1], pid);
    }
  }

  /**
   When a selection answers with success, its updates have gone once to each user who was viewing
   the room when it asked, and not to the requester; and each shows the new seat as occupied,
   whatever the other handlers did meanwhile.
   */
  lemma BroadcastIsExact(states: seq<State>, acts: seq<Action>, i: nat, j: nat, place: Place)
    requires OrderlyRun(states, acts) && i < |acts| && i < j < |states| && acts[i].Advance?
    requires states[i].live[acts[i].pid].pc == AskWatchers(place)
    requires acts[i].pid in states[j].live && states[j].live[acts[i].pid].pc == Answer(Selected(true))
    ensures var pid, user := acts[i].pid, states[i].live[acts[i].pid].user;
            && Lists(Recipients(states[j].updates, pid), WatchersOf(states[i].tables, place.room))
            && (forall v :: v in Recipients(states[j].updates, pid) <==>
                  Viewing(v, place.room) in states[i].tables.viewing)
            && user !in Recipients(states[j].updates, pid)
            && forall u :: u in states[j].updates && u.sender == pid ==>
                 && u.room == place.room && 1 <= place.seat <= |u.statuses|
                 && u.statuses[place.seat - 1] == SEAT_STATUS_OCCUPIED
  {
    hide PcOk, Consistent, OnePerUser, Recorded, TablesAfter, PcAfter, UpdatesBy, ListedBy,
         TakenBy, Recipients, Initial, InOrder;
    var pid := acts[i].pid;
    HeardStays(states, acts, i + 1, j, pid);
    RunKeepsInv(states, acts, j);
    assert ToldOk(states[j].live[pid], states[j].heard[pid], Recipients(states[j].updates, pid));
    forall v ensures v in WatchersOf(states[i].tables, place.room) <==>
                       Viewing(v, place.room) in states[i].tables.viewing
    {
      QueriesAreExact(states[i].tables, v, place.room, place.seat);
    }
  }
}
