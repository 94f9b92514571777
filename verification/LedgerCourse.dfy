/**
 The interleavings of handlers the ledger's theorems are about are those whose handlers start in turn,
 and so those that the relay, or sessions with their timers, bring about.
 */
module LedgerCourse {
  import opened Ledger
  import opened Handlers
  import opened Orderly
  import opened Course
  import RelayCourse
  import Relay
  import SessionCourse
  import TimedSession

  function EventOf(s: State, a: Action): seq<Event>
  {
    match a
    case Dispatch(_, user, number, request) => [Started(user, number, request == Exit)]
    case Advance(pid, room, order) =>
      if pid in s.live && !Busy(s.live[pid].(pc := PcAfter(s.tables, s.live[pid], room, order)))
      then [Ended(s.live[pid].user)] else []
    case Restart => [Restarted]
  }

  function Events(states: seq<State>, acts: seq<Action>, n: nat): seq<Event>
    requires n <= |acts| <= |states|
  {
    if n == 0 then [] else Events(states, acts, n - 1) + EventOf(states[n - 1], acts[n - 1])
  }

  /** A seat is selected only by a user in a room and within the room's seats. */
  ghost predicate SelectsAllowed(states: seq<State>, acts: seq<Action>)
    requires |acts| <= |states|
  {
    forall i :: 0 <= i < |acts| && acts[i].Dispatch? && acts[i].request.Select? ==>
      SelectAllowed(states[i].tables, acts[i].user, acts[i].request.seat)
  }

  function BusyUsers(s: State): set<int> {
    set pid | pid in s.live && Busy(s.live[pid]) :: s.live[pid].user
  }

  ghost predicate Tallies(s: State, es: seq<Event>) {
    Running(es) == BusyUsers(s) && Exited(es) == s.gone
  }

  lemma StepTallies(s: State, a: Action, es: seq<Event>)
    requires Inv(s) && Enabled(s, a) && InOrder(s, a) && Tallies(s, es)
    ensures Tallies(Apply(s, a), es + EventOf(s, a))
  {
    hide Inv, Running, Exited;
    match a
    case Dispatch(pid, user, number, request) =>
      Snoc(es, Started(user, number, request == Exit));
      DispatchBusy(s, a);
    case Restart => Snoc(es, Restarted);
    case Advance(pid, room, order) =>
      AdvanceBusy(s, a);
      if EventOf(s, a) == [] {
        assert es + EventOf(s, a) == es;
      } else {
        Snoc(es, Ended(s.live[pid].user));
      }
  }

  lemma DispatchBusy(s: State, a: Action)
    requires Enabled(s, a) && a.Dispatch?
    ensures BusyUsers(Apply(s, a)) == BusyUsers(s) + {a.user}
  {
    var s' := Apply(s, a);
    assert Busy(s'.live[a.pid]) && s'.live[a.pid].user == a.user;
    forall u | u in BusyUsers(s) ensures u in BusyUsers(s') {
      var pid :| pid in s.live && Busy(s.live[pid]) && s.live[pid].user == u;
      assert pid in s'.live && s'.live[pid] == s.live[pid];
    }
  }

  lemma AdvanceBusy(s: State, a: Action)
    requires Inv(s) && Enabled(s, a) && a.Advance?
    ensures var s' := Apply(s, a);
            BusyUsers(s') == if EventOf(s, a) == [] then BusyUsers(s) else BusyUsers(s) - {s.live[a.pid].user}
  {
    hide Consistent, HandlersOk, ToldRight, UpdatesShow, Recorded, PcAfter, TablesAfter;
    var s', h := Apply(s, a), s.live[a.pid];
    assert Busy(h);
    forall u | u in BusyUsers(s) && u != h.user ensures u in BusyUsers(s') {
      var pid :| pid in s.live && Busy(s.live[pid]) && s.live[pid].user == u;
      assert s'.live[pid] == s.live[pid];
    }
    forall u | u in BusyUsers(s') ensures u in BusyUsers(s) && (EventOf(s, a) != [] ==> u != h.user) {
      var pid :| pid in s'.live && Busy(s'.live[pid]) && s'.live[pid].user == u;
      assert pid != a.pid ==> s'.live[pid] == s.live[pid];
    }
    if EventOf(s, a) == [] {
      assert Busy(s'.live[a.pid]) && s'.live[a.pid].user == h.user;
    }
  }

  /** The next request is a later one than those of its user before. */
  predicate Numbered(a: Action, es: seq<Event>) {
    a.Dispatch? ==> Follows(es, a.user, a.number)
  }

  /** The clauses of `InOrder` and the numbers are that the next event is in turn. */
  lemma NextInTurn(s: State, a: Action, es: seq<Event>)
    requires Tallies(s, es) && InTurn(es)
    requires a.Dispatch? && a.request.Select? ==> SelectAllowed(s.tables, a.user, a.request.seat)
    ensures InTurn(es + EventOf(s, a)) <==> InOrder(s, a) && Numbered(a, es)
  {
    hide Running, Exited, InTurn, SelectAllowed, Follows;
    match a
    case Dispatch(pid, user, number, request) =>
      Snoc(es, Started(user, number, request == Exit));
      assert user in BusyUsers(s) <==> exists p :: p in s.live && Busy(s.live[p]) && s.live[p].user == user;
    case Restart => Snoc(es, Restarted);
    case Advance(pid, room, order) =>
      if EventOf(s, a) == [] {
        assert es + EventOf(s, a) == es;
      } else {
        Snoc(es, Ended(s.live[pid].user));
      }
  }

  lemma {:induction false} PrefixInTurn(es: seq<Event>, more: seq<Event>)
    requires InTurn(es + more)
    ensures InTurn(es)
  {
    if more == [] {
      assert es + more == es;
    } else {
      var n := |more| - 1;
      assert (es + more)[..|es + more| - 1] == es + more[..n];
      PrefixInTurn(es, more[..n]);
    }
  }

  /** The requests of each user have been dispatched in their order. */
  ghost predicate NumbersGrow(acts: seq<Action>, n: nat)
    requires n <= |acts|
  {
    forall i, j :: 0 <= i < j < n && acts[i].Dispatch? && acts[j].Dispatch? && acts[i].user == acts[j].user ==>
      acts[i].number < acts[j].number
  }

  /** The started events are the dispatches. */
  lemma {:induction false} StartedAreDispatched(states: seq<State>, acts: seq<Action>, n: nat, user: int, number: nat)
    requires n <= |acts| <= |states|
    ensures Follows(Events(states, acts, n), user, number) <==>
              forall i :: 0 <= i < n && acts[i].Dispatch? && acts[i].user == user ==> acts[i].number < number
  {
    if n > 0 {
      StartedAreDispatched(states, acts, n - 1, user, number);
      var es, last := Events(states, acts, n - 1), EventOf(states[n - 1], acts[n - 1]);
      if last == [] {
        assert es + last == es;
      } else {
        FollowsSnoc(es, last[0], user, number);
        assert last == [last[0]];
      }
    }
  }

  lemma NextNumber(states: seq<State>, acts: seq<Action>, n: nat)
    requires n < |acts| <= |states|
    ensures NumbersGrow(acts, n + 1) <==> NumbersGrow(acts, n) && Numbered(acts[n], Events(states, acts, n))
  {
    if acts[n].Dispatch? {
      StartedAreDispatched(states, acts, n, acts[n].user, acts[n].number);
    }
  }

  lemma {:induction false} EventsTally(states: seq<State>, acts: seq<Action>, n: nat)
    requires Run(states, acts) && Initial(states[0]) && SelectsAllowed(states, acts) && n <= |acts|
    ensures InTurn(Events(states, acts, n)) <==>
              NumbersGrow(acts, n) && forall i :: 0 <= i < n ==> InOrder(states[i], acts[i])
    ensures InTurn(Events(states, acts, n)) ==> Inv(states[n]) && Tallies(states[n], Events(states, acts, n))
  {
    hide Inv, Apply, Enabled, InOrder, Tallies, InTurn, EventOf, SelectAllowed, NumbersGrow, Numbered;
    if n == 0 {
      NothingTallies(states[0]);
      assert NumbersGrow(acts, 0) by { NoNumbers(acts); }
    } else {
      EventsTally(states, acts, n - 1);
      NextNumber(states, acts, n - 1);
      var s, a, es := states[n - 1], acts[n - 1], Events(states, acts, n - 1);
      if InTurn(es) {
        NextInTurn(s, a, es);
        if InOrder(s, a) {
          StepKeepsInv(s, a);
          StepTallies(s, a, es);
        }
      } else if InTurn(es + EventOf(s, a)) {
        PrefixInTurn(es, EventOf(s, a));
      }
    }
  }

  lemma NoNumbers(acts: seq<Action>)
    ensures NumbersGrow(acts, 0)
  {
  }

  lemma NothingTallies(s: State)
    requires Initial(s)
    ensures Tallies(s, []) && InTurn([]) && Inv(s)
  {
    InitialInv(s);
  }

  /**
   A run is orderly, with each user's requests dispatched in their order, exactly if its handlers start in
   turn, its selections being allowed.
   */
  lemma OrderlyIffInTurn(states: seq<State>, acts: seq<Action>)
    requires Run(states, acts) && Initial(states[0]) && SelectsAllowed(states, acts)
    ensures OrderlyRun(states, acts) && NumbersGrow(acts, |acts|) <==> InTurn(Events(states, acts, |acts|))
  {
    EventsTally(states, acts, |acts|);
  }

  // ----- effects in the order of the requests -----

  /** All statements of a user's request come before those of its next one, unless the admin is restarted. */
  ghost predicate EffectsInOrder(states: seq<State>, acts: seq<Action>)
    requires |acts| <= |states|
  {
    forall i, j, m | 0 <= i < j <= m < |acts| && OneAfterTheOther(acts, i, j, m) ::
      acts[i].number < acts[j].number && !(acts[m].Advance? && acts[m].pid == acts[i].pid)
  }

  /** Two requests of one user arrive at the steps `i` and `j`, and the admin is not restarted before `m`. */
  ghost predicate OneAfterTheOther(acts: seq<Action>, i: int, j: int, m: int)
    requires 0 <= i < j <= m < |acts|
  {
    && acts[i].Dispatch? && acts[j].Dispatch? && acts[i].user == acts[j].user
    && forall r :: i < r < m ==> !acts[r].Restart?
  }

  lemma {:induction false} HandlerStays(states: seq<State>, acts: seq<Action>, i: nat, m: nat)
    requires Run(states, acts) && i < m < |states| && acts[i].Dispatch? && forall r :: i < r < m ==> !acts[r].Restart?
    ensures acts[i].pid in states[m].live && states[m].live[acts[i].pid].user == acts[i].user
    decreases m - i
  {
    assert states[m] == Apply(states[m - 1], acts[m - 1]);
    hide TablesAfter, PcAfter, ListedBy, TakenBy, UpdatesBy;
    if i + 1 < m {
      HandlerStays(states, acts, i, m - 1);
    }
  }

  lemma {:induction false} DoneStays(states: seq<State>, acts: seq<Action>, pid: nat, j: nat, m: nat)
    requires Run(states, acts) && j <= m < |states| && pid in states[j].live && !Busy(states[j].live[pid])
    requires forall r :: j <= r < m ==> !acts[r].Restart?
    ensures pid in states[m].live && !Busy(states[m].live[pid])
    ensures m < |acts| ==> !(acts[m].Advance? && acts[m].pid == pid)
    decreases m - j
  {
    hide TablesAfter, PcAfter, ListedBy, TakenBy, UpdatesBy;
    if j < m {
      DoneStays(states, acts, pid, j, m - 1);
      assert states[m] == Apply(states[m - 1], acts[m - 1]);
    }
    assert m < |acts| ==> Enabled(states[m], acts[m]);
  }

  lemma OrderlyEffects(states: seq<State>, acts: seq<Action>)
    requires OrderlyRun(states, acts) && NumbersGrow(acts, |acts|)
    ensures EffectsInOrder(states, acts)
  {
    forall i, j, m | 0 <= i < j <= m < |acts| && OneAfterTheOther(acts, i, j, m)
      ensures acts[i].number < acts[j].number && !(acts[m].Advance? && acts[m].pid == acts[i].pid)
    {
      hide Apply, Enabled;
      HandlerStays(states, acts, i, j);
      assert InOrder(states[j], acts[j]);
      DoneStays(states, acts, acts[i].pid, j, m);
    }
  }

  lemma InTurnMakesOrderly(states: seq<State>, acts: seq<Action>)
    requires Run(states, acts) && Initial(states[0]) && SelectsAllowed(states, acts)
    requires InTurn(Events(states, acts, |acts|))
    ensures OrderlyRun(states, acts) && EffectsInOrder(states, acts)
  {
    OrderlyIffInTurn(states, acts);
    OrderlyEffects(states, acts);
  }

  /**
   Handlers that start and end as some run of the relay has them do are in an orderly run, in which the
   requests of a user take effect one after the other in the order in which they were made.
   */
  lemma RelayMakesOrderly(states: seq<State>, acts: seq<Action>, relay: seq<Relay.State>, steps: seq<Relay.Action>)
    requires Run(states, acts) && Initial(states[0]) && SelectsAllowed(states, acts)
    requires Relay.Run(relay, steps) && Events(states, acts, |acts|) == RelayCourse.Events(relay, steps, |steps|)
    ensures OrderlyRun(states, acts) && EffectsInOrder(states, acts)
  {
    RelayCourse.RelayIsInTurn(relay, steps);
    InTurnMakesOrderly(states, acts);
  }

  /** What a user's handlers do is what some session of the user with its timer, or a login, brings about. */
  ghost predicate BySession(es: seq<Event>, user: int) {
    || (exists states, acts :: TimedSession.Run(states, acts) && es == SessionCourse.Events(states, acts, |acts|, user))
    || exists number :: es <= [Started(user, number, false), Ended(user)]
  }

  /** So are handlers that start and end as sessions with their timers, one for each user, have them do. */
  lemma SessionsMakeOrderly(states: seq<State>, acts: seq<Action>)
    requires Run(states, acts) && Initial(states[0]) && SelectsAllowed(states, acts)
    requires forall user :: BySession(Only(Events(states, acts, |acts|), user), user)
    ensures OrderlyRun(states, acts) && EffectsInOrder(states, acts)
  {
    var es := Events(states, acts, |acts|);
    forall user ensures InTurnFor(es, user) {
      SessionInTurn(Only(es, user), user);
    }
    InTurnIffEach(es);
    InTurnMakesOrderly(states, acts);
  }

  lemma LoginInTurn(user: int, number: nat)
    ensures InTurn([Started(user, number, false), Ended(user)])
  {
    var es: seq<Event> := [];
    Snoc(es, Started(user, number, false));
    es := es + [Started(user, number, false)];
    Snoc(es, Ended(user));
    assert es + [Ended(user)] == [Started(user, number, false), Ended(user)];
  }

  lemma SessionInTurn(es: seq<Event>, user: int)
    requires BySession(es, user)
    ensures InTurn(es)
  {
    if states, acts :| TimedSession.Run(states, acts) && es == SessionCourse.Events(states, acts, |acts|, user) {
      SessionCourse.SessionIsInTurn(states, acts, user);
    } else {
      var number :| es <= [Started(user, number, false), Ended(user)];
      LoginInTurn(user, number);
      var login := [Started(user, number, false), Ended(user)];
      assert es + login[|es|..] == login;
      PrefixInTurn(es, login[|es|..]);
    }
  }
}
