/**
 The handlers that a session with its timer has the admin start for its user: one at a time, in the order
 of the requests, and none after the client's or the timer's EXIT.
 */
module SessionCourse {
  import opened TimedSession
  import opened Course

  function EventOf(s: State, a: Action, user: int): seq<Event>
    requires Enabled(s, a)
  {
    match a
    case AdminStarts(k) => [Started(user, s.desk[k].number, s.desk[k].exit)]
    case HandlerEnds(k) => [Event.Ended(user)]
    case _ => []
  }

  ghost function Events(states: seq<State>, acts: seq<Action>, n: nat, user: int): seq<Event>
    requires Run(states, acts) && n <= |acts|
  {
    if n == 0 then [] else Events(states, acts, n - 1, user) + EventOf(states[n - 1], acts[n - 1], user)
  }

  predicate Working(s: State) {
    s.desk != [] && s.desk[0].running
  }

  predicate Unstarted(s: State) {
    s.desk != [] && !s.desk[0].running
  }

  ghost predicate Tallies(s: State, es: seq<Event>, user: int) {
    && Running(es) == (if Working(s) then {user} else {})
    && (user in Exited(es) ==> !InLoop(s.listener) && !Unstarted(s))
    && Follows(es, user, s.served) && (Unstarted(s) ==> Follows(es, user, s.desk[0].number))
  }

  lemma OneJob(s: State)
    requires Inv(s)
    ensures |s.desk| <= 1 && (s.desk != [] ==> s.desk[0].number + 1 == s.served)
    ensures s.desk != [] && s.desk[0].exit ==> !InLoop(s.listener)
    ensures s.listener.Serving? ==> s.desk == []
  {
    hide LoopOk, EndOk, MomOk;
  }

  lemma StartStep(s: State, k: nat)
    requires Enabled(s, AdminStarts(k)) && |s.desk| <= 1
    ensures var s' := Apply(s, AdminStarts(k));
            && k == 0 && Unstarted(s) && s'.desk == [s.desk[0].(running := true)]
            && s'.served == s.served && s'.listener == s.listener
  {
  }

  lemma EndStep(s: State, k: nat)
    requires Enabled(s, HandlerEnds(k)) && |s.desk| <= 1
    ensures var s' := Apply(s, HandlerEnds(k));
            Working(s) && s'.desk == [] && s'.served == s.served && s'.listener == s.listener
  {
  }

  lemma ServeStep(s: State)
    requires Enabled(s, ListenerServes) && s.desk == []
    ensures var s' := Apply(s, ListenerServes);
            |s'.desk| == 1 && !s'.desk[0].running && s'.desk[0].number == s.served && s'.served == s.served + 1
  {
  }

  lemma OtherStep(s: State, a: Action)
    requires Enabled(s, a) && !a.AdminStarts? && !a.HandlerEnds? && !a.ListenerServes?
    ensures var s' := Apply(s, a);
            s'.desk == s.desk && s'.served == s.served && (InLoop(s'.listener) ==> InLoop(s.listener))
  {
  }

  lemma StartTallies(s: State, k: nat, es: seq<Event>, user: int)
    requires Inv(s) && Enabled(s, AdminStarts(k)) && Tallies(s, es, user) && InTurn(es)
    ensures var es' := es + EventOf(s, AdminStarts(k), user);
            Tallies(Apply(s, AdminStarts(k)), es', user) && InTurn(es')
  {
    OneJob(s);
    StartStep(s, k);
    var e := Started(user, s.desk[0].number, s.desk[0].exit);
    assert EventOf(s, AdminStarts(k), user) == [e];
    hide Inv, Running, Exited, InTurn, InLoop, Follows, Apply, Enabled, EventOf;
    Snoc(es, e);
    FollowsSnoc(es, e, user, s.served);
  }

  lemma EndTallies(s: State, k: nat, es: seq<Event>, user: int)
    requires Inv(s) && Enabled(s, HandlerEnds(k)) && Tallies(s, es, user) && InTurn(es)
    ensures var es' := es + EventOf(s, HandlerEnds(k), user);
            Tallies(Apply(s, HandlerEnds(k)), es', user) && InTurn(es')
  {
    OneJob(s);
    EndStep(s, k);
    hide Inv, Running, Exited, InTurn, InLoop, Follows, Apply, Enabled;
    Snoc(es, Event.Ended(user));
    FollowsSnoc(es, Event.Ended(user), user, s.served);
  }

  lemma ServeTallies(s: State, es: seq<Event>, user: int)
    requires Inv(s) && Enabled(s, ListenerServes) && Tallies(s, es, user)
    ensures Tallies(Apply(s, ListenerServes), es, user)
  {
    OneJob(s);
    ServeStep(s);
    assert InLoop(s.listener);
    hide Inv, Running, Exited, InLoop, Apply;
  }

  lemma OtherTallies(s: State, a: Action, es: seq<Event>, user: int)
    requires Enabled(s, a) && Tallies(s, es, user) && !a.AdminStarts? && !a.HandlerEnds? && !a.ListenerServes?
    ensures Tallies(Apply(s, a), es, user)
  {
    OtherStep(s, a);
    hide Inv, Running, Exited, InLoop, Follows, Apply, Enabled;
  }

  lemma StepTallies(s: State, a: Action, es: seq<Event>, user: int)
    requires Inv(s) && Enabled(s, a) && Tallies(s, es, user) && InTurn(es)
    ensures var es' := es + EventOf(s, a, user); Tallies(Apply(s, a), es', user) && InTurn(es')
  {
    hide Inv, Tallies, InTurn, Apply, Enabled;
    if a.AdminStarts? {
      StartTallies(s, a.job, es, user);
    } else if a.HandlerEnds? {
      EndTallies(s, a.job, es, user);
    } else {
      if a.ListenerServes? {
        ServeTallies(s, es, user);
      } else {
        OtherTallies(s, a, es, user);
      }
      assert es + [] == es;
    }
  }

  lemma {:induction false} EventsTally(states: seq<State>, acts: seq<Action>, n: nat, user: int)
    requires Run(states, acts) && n <= |acts|
    ensures Tallies(states[n], Events(states, acts, n, user), user) && InTurn(Events(states, acts, n, user))
  {
    if n > 0 {
      hide Inv, Apply, Enabled, Tallies, InTurn, EventOf;
      EventsTally(states, acts, n - 1, user);
      RunKeepsInv(states, acts, n - 1);
      StepTallies(states[n - 1], acts[n - 1], Events(states, acts, n - 1, user), user);
    }
  }

  /** In every run of a session, whatever its timer does, the user's handlers are in turn. */
  lemma SessionIsInTurn(states: seq<State>, acts: seq<Action>, user: int)
    requires Run(states, acts)
    ensures InTurn(Events(states, acts, |acts|, user))
  {
    EventsTally(states, acts, |acts|, user);
  }
}
