/**
 One session with its inactivity timer: the listener's loop and its end (cinema_listen_client,
 src/cinema/cinema.cpp), the timer process that sends an EXIT as if it were the client
 (start_timer), the client's calls (src/middleware/client_interface.cpp) and the MOM's process that
 passes them on (fork_client, src/middleware/mom.cpp). The way between that process and the listener,
 proved elsewhere to keep order, is one queue each way. Reading and writing the timer's slot are
 separate steps, so the two critical sections of a check-then-write can be torn apart by the other
 process. The admin's handlers of this user are steps of their own.
 */
module TimedSession {
  import opened Wrappers

  /** What a client calls: a request, `end_mom`, or `login`, which asks for no session to be there or not. */
  datatype Call = Asking | Leaving | LoggingIn
  datatype Item = Ask | ClientExit | TimerExit
  datatype Answer = Reply | ExitReply

  /** `Closed` is a client told that the cinema has ended the session, `Left` one that has ended it itself. */
  datatype Client = Idle | Waiting(call: Call) | Closed | Left

  /** `Lost` waits for an answer by the cinema id, while that of a login goes by the token. */
  datatype Mom = Ready | Busy | Lost | Ended
  datatype Timer = Armed | HalfDone | Done | Killed

  datatype Listener =
    | Listening                 // line 143
    | Checking(item: Item)      // line 147, the test
    | Refreshing(item: Item)    // line 148
    | Serving(item: Item)       // line 152, up to the admin
    | Awaiting                  // the admin's answer
    | Stopping                  // line 159, after an EXIT
    | Deciding                  // line 161
    | Draining                  // line 164
    | Finished

  /** The user's `number`th request with the admin: waiting in its queue, or being handled by a child process. */
  datatype Job = Job(number: nat, exit: bool, running: bool)

  /**
   `box` and `back` are the queue between client and MOM. `desk` are the requests with the admin and
   `answered` whether an answer of its is there. `timedOut` is the slot's CONNECTION_TIMEDOUT; `fired`, the item
   `drained` and `served`, the number of requests sent to the admin, record what was done.
   */
  datatype State = State(client: Client, box: seq<Call>, back: seq<Answer>, mom: Mom, up: seq<Item>,
                         down: seq<Answer>, listener: Listener, desk: seq<Job>, answered: bool, timer: Timer,
                         timedOut: bool, fired: bool, drained: Option<Item>, served: nat)

  datatype Action =
    | ClientCalls(call: Call) | ClientReceives
    | MomTakes | MomReturns
    | TimerSends | TimerMarks
    | ListenerTakes | ListenerChecks | ListenerRefreshes | ListenerServes | ListenerAnswers
    | AdminStarts(job: nat) | HandlerEnds(job: nat)
    | ListenerKills | ListenerDecides | ListenerDrains

  predicate Initial(s: State) {
    s == State(Idle, [], [], Ready, [], [], Listening, [], false, Armed, false, false, None, 0)
  }

  predicate Enabled(s: State, a: Action) {
    match a
    case ClientCalls(call) => s.client.Idle? || (s.client.Closed? && call.LoggingIn?)
    case ClientReceives => s.client.Waiting? && s.back != []
    case MomTakes => s.mom.Ready? && s.box != []
    case MomReturns => s.mom.Busy? && s.down != []
    case TimerSends => s.timer.Armed?
    case TimerMarks => s.timer.HalfDone?
    case ListenerTakes => s.listener.Listening? && s.up != []
    case ListenerChecks => s.listener.Checking?
    case ListenerRefreshes => s.listener.Refreshing?
    case ListenerServes => s.listener.Serving?
    case ListenerAnswers => s.listener.Awaiting? && s.answered
    case AdminStarts(k) =>
      k < |s.desk| && !s.desk[k].running && forall j :: 0 <= j < k ==> s.desk[j].running
    case HandlerEnds(k) => k < |s.desk| && s.desk[k].running
    case ListenerKills => s.listener.Stopping?
    case ListenerDecides => s.listener.Deciding?
    case ListenerDrains => s.listener.Draining? && s.up != []
  }

  function Apply(s: State, a: Action): State
    requires Enabled(s, a)
  {
    match a
    case ClientCalls(call) => s.(client := Waiting(call), box := s.box + [call])
    case ClientReceives =>
      s.(client := if s.back[0].Reply? then Idle else if s.client.call.Leaving? then Left else Closed,
         back := s.back[1..])
    case MomTakes =>
      if s.box[0].LoggingIn? then s.(mom := Lost, box := s.box[1..])
      else s.(mom := Busy, box := s.box[1..], up := s.up + [if s.box[0].Asking? then Ask else ClientExit])
    case MomReturns =>
      s.(mom := if s.down[0].ExitReply? then Ended else Ready, down := s.down[1..], back := s.back + [s.down[0]])
    case TimerSends => s.(timer := HalfDone, up := s.up + [TimerExit], fired := true)
    case TimerMarks => s.(timer := Done, timedOut := true)
    case ListenerTakes => s.(listener := Checking(s.up[0]), up := s.up[1..])
    case ListenerChecks =>
      s.(listener := if s.timedOut then Serving(s.listener.item) else Refreshing(s.listener.item))
    case ListenerRefreshes => s.(listener := Serving(s.listener.item), timedOut := false)
    case ListenerServes =>
      if s.listener.item.Ask? then s.(listener := Awaiting, desk := s.desk + [Job(s.served, false, false)],
                                      served := s.served + 1)
      else s.(listener := Stopping, desk := s.desk + [Job(s.served, true, false)], served := s.served + 1,
              down := s.down + [ExitReply])
    case ListenerAnswers => s.(listener := Listening, answered := false, down := s.down + [Reply])
    case AdminStarts(k) => s.(desk := s.desk[k := s.desk[k].(running := true)])
    case HandlerEnds(k) =>
      s.(desk := s.desk[..k] + s.desk[k + 1..], answered := s.answered || !s.desk[k].exit)
    case ListenerKills => s.(listener := Deciding, timer := Killed)
    case ListenerDecides => s.(listener := if s.timedOut then Draining else Finished)
    case ListenerDrains => s.(listener := Finished, up := s.up[1..], drained := Some(s.up[0]))
  }

  ghost predicate Run(states: seq<State>, acts: seq<Action>) {
    && |states| == |acts| + 1 && Initial(states[0])
    && forall i :: 0 <= i < |acts| ==> Enabled(states[i], acts[i]) && states[i + 1] == Apply(states[i], acts[i])
  }

  // ----- the balance of messages -----

  predicate InLoop(l: Listener) {
    l.Listening? || l.Checking? || l.Refreshing? || l.Serving? || l.Awaiting?
  }

  /** The items not answered yet, the one in the listener's hands first. */
  function Pending(s: State): seq<Item> {
    (if s.listener.Checking? || s.listener.Refreshing? || s.listener.Serving? then [s.listener.item]
     else if s.listener.Awaiting? then [Ask] else []) + s.up
  }

  /** The items of the client and the timer that are under way: one each at most, in some order. */
  predicate PendingOk(p: seq<Item>, mine: bool, exiting: bool, timers: bool) {
    var item := if exiting then ClientExit else Ask;
    if mine && timers then p == [item, TimerExit] || p == [TimerExit, item]
    else if mine then p == [item]
    else if timers then p == [TimerExit]
    else p == []
  }

  predicate Inv(s: State) {
    && (s.timedOut ==> s.fired)
    && (s.timer.Armed? ==> !s.fired) && (s.timer.HalfDone? || s.timer.Done? ==> s.fired)
    && (s.timer.HalfDone? ==> !s.timedOut)
    && (s.timer.Killed? <==> s.listener.Deciding? || s.listener.Draining? || s.listener.Finished?)
    && (s.listener.Draining? ==> s.timedOut) && (s.drained.Some? <==> s.listener.Finished? && s.timedOut)
    && DeskOk(s) && MomOk(s)
    && if InLoop(s.listener) then LoopOk(s) else EndOk(s)
  }

  /** With the admin is the request the listener waits for, or after the end the EXIT, and nothing else. */
  predicate DeskOk(s: State) {
    && (s.desk != [] ==> s.desk[0].number + 1 == s.served)
    && if s.listener.Awaiting? then if s.answered then s.desk == [] else |s.desk| == 1 && !s.desk[0].exit
       else if InLoop(s.listener) then s.desk == [] && !s.answered
       else !s.answered && (s.desk == [] || (|s.desk| == 1 && s.desk[0].exit))
  }

  /** What client and MOM have between them. */
  predicate MomOk(s: State) {
    match s.mom
    case Ready =>
      if s.client.Waiting? then
        (s.box == [s.client.call] && s.back == []) || (s.box == [] && s.back == [Reply] && s.client.call.Asking?)
      else s.client.Idle? && s.box == [] && s.back == []
    case Busy => s.client.Waiting? && !s.client.call.LoggingIn? && s.box == [] && s.back == []
    case Lost => s.client == Waiting(LoggingIn) && s.box == [] && s.back == []
    case Ended =>
      if s.client == Waiting(LoggingIn) then s.box == [LoggingIn] && s.back == []
      else if s.client.Waiting? then s.box == [] && s.back == [ExitReply]
      else !s.client.Idle? && s.box == [] && s.back == []
  }

  /** Before an EXIT is answered: a request is under way, or its answer is. */
  predicate LoopOk(s: State) {
    && !s.mom.Ended?
    && (s.down == [] || (s.mom.Busy? && s.client == Waiting(Asking) && s.down == [Reply]))
    && PendingOk(Pending(s), s.mom.Busy? && s.down == [], s.client == Waiting(Leaving), s.fired)
  }

  /** After one EXIT was answered, by whomever it was sent: nothing is left but the other one's message. */
  predicate EndOk(s: State) {
    && (if s.mom.Ended? then s.down == []
        else s.down == [ExitReply] || (s.mom.Busy? && s.client == Waiting(Asking) && s.down == [Reply, ExitReply]))
    && (s.mom.Ready? || s.mom.Lost? || (s.mom.Busy? && s.client == Waiting(Asking)) ==> s.fired)
    && |s.up| + (if s.drained.Some? then 1 else 0)
       == (if s.fired then 1 else 0) - (if s.mom.Ready? || s.mom.Lost? || |s.down| == 2 then 1 else 0)
  }

  lemma TakingKeeps(s: State)
    requires Inv(s) && Enabled(s, MomTakes)
    ensures Inv(Apply(s, MomTakes))
  {
    assert s.client == Waiting(s.box[0]) && s.box == [s.box[0]] && s.back == [];
    if s.box[0].LoggingIn? {
      assert Pending(Apply(s, MomTakes)) == Pending(s);
      hide Pending, DeskOk;
    } else {
      assert Pending(Apply(s, MomTakes)) == Pending(s) + [if s.box[0].Asking? then Ask else ClientExit];
      hide Pending, DeskOk;
    }
  }

  lemma TimingKeeps(s: State)
    requires Inv(s) && Enabled(s, TimerSends)
    ensures Inv(Apply(s, TimerSends))
  {
    assert Pending(Apply(s, TimerSends)) == Pending(s) + [TimerExit];
    hide Pending, MomOk;
  }

  lemma CallingKeeps(s: State, call: Call)
    requires Inv(s) && Enabled(s, ClientCalls(call))
    ensures Inv(Apply(s, ClientCalls(call)))
  {
    assert Pending(Apply(s, ClientCalls(call))) == Pending(s);
    hide Pending, DeskOk;
  }

  lemma ReceivingKeeps(s: State)
    requires Inv(s) && Enabled(s, ClientReceives)
    ensures Inv(Apply(s, ClientReceives))
  {
    assert Pending(Apply(s, ClientReceives)) == Pending(s);
    hide Pending, DeskOk;
  }

  lemma ReturningKeeps(s: State)
    requires Inv(s) && Enabled(s, MomReturns)
    ensures Inv(Apply(s, MomReturns))
  {
    assert Pending(Apply(s, MomReturns)) == Pending(s);
    hide Pending;
  }

  lemma ServingKeeps(s: State)
    requires Inv(s) && Enabled(s, ListenerServes)
    ensures Inv(Apply(s, ListenerServes))
  {
    assert Pending(s)[0] == s.listener.item && Pending(s)[1..] == s.up;
    if s.listener.item.Ask? {
      assert Pending(Apply(s, ListenerServes)) == Pending(s);
    }
  }

  lemma AnsweringKeeps(s: State)
    requires Inv(s) && Enabled(s, ListenerAnswers)
    ensures Inv(Apply(s, ListenerAnswers))
  {
    assert Pending(s)[0] == Ask && Pending(s)[1..] == s.up;
  }

  lemma CheckingKeeps(s: State, a: Action)
    requires Inv(s) && Enabled(s, a)
    requires a.ListenerTakes? || a.ListenerChecks? || a.ListenerRefreshes? || a.TimerMarks?
    ensures Inv(Apply(s, a))
  {
    assert Pending(Apply(s, a)) == Pending(s);
    hide Pending, PendingOk, MomOk;
  }

  lemma EndingKeeps(s: State, a: Action)
    requires Inv(s) && Enabled(s, a) && (a.ListenerKills? || a.ListenerDecides? || a.ListenerDrains?)
    ensures Inv(Apply(s, a))
  {
    assert !InLoop(s.listener) && !InLoop(Apply(s, a).listener);
    hide LoopOk, MomOk;
  }

  lemma AdminKeeps(s: State, a: Action)
    requires Inv(s) && Enabled(s, a) && (a.AdminStarts? || a.HandlerEnds?)
    ensures Inv(Apply(s, a))
  {
    assert Pending(Apply(s, a)) == Pending(s);
    hide PendingOk, Pending;
  }

  lemma StepKeepsInv(s: State, a: Action)
    requires Inv(s) && Enabled(s, a)
    ensures Inv(Apply(s, a))
  {
    if a.MomTakes? {
      hide Inv, Apply, Enabled;
      TakingKeeps(s);
    } else if a.TimerSends? {
      hide Inv, Apply, Enabled;
      TimingKeeps(s);
    } else if a.ClientCalls? {
      hide Inv, Apply, Enabled;
      CallingKeeps(s, a.call);
    } else if a.ClientReceives? {
      hide Inv, Apply, Enabled;
      ReceivingKeeps(s);
    } else if a.MomReturns? {
      hide Inv, Apply, Enabled;
      ReturningKeeps(s);
    } else if a.ListenerServes? {
      hide Inv, Apply, Enabled;
      ServingKeeps(s);
    } else if a.ListenerAnswers? {
      hide Inv, Apply, Enabled;
      AnsweringKeeps(s);
    } else if a.AdminStarts? || a.HandlerEnds? {
      hide Inv, Apply, Enabled;
      AdminKeeps(s, a);
    } else if a.ListenerKills? || a.ListenerDecides? || a.ListenerDrains? {
      hide Inv, Apply, Enabled;
      EndingKeeps(s, a);
    } else {
      hide Inv, Apply, Enabled;
      CheckingKeeps(s, a);
    }
  }

  lemma {:induction false} RunKeepsInv(states: seq<State>, acts: seq<Action>, i: nat)
    requires Run(states, acts) && i < |states|
    ensures Inv(states[i])
  {
    if i > 0 {
      hide Inv, Apply, Enabled;
      RunKeepsInv(states, acts, i - 1);
      StepKeepsInv(states[i - 1], acts[i - 1]);
    }
  }

  // ----- one answer each -----

  /**
   A client that waits for a request has one answer coming: its call is still to be passed on, or it is
   pending with the listener, or its answer is there, or the session's EXIT answer is. A client that leaves
   gets an EXIT answer only, and no plain answer is ever left for a later request.
   */
  predicate OneAnswerComing(s: State) {
    var answers := s.back + s.down;
    && (s.client == Waiting(Leaving) ==> Reply !in answers)
    && (Reply in answers ==> s.client == Waiting(Asking) && answers[0] == Reply && Reply !in answers[1..])
    && (s.client.Waiting? && !s.client.call.LoggingIn? && answers == [] ==>
          s.box == [s.client.call] || (if s.client.call.Leaving? then ClientExit else Ask) in Pending(s))
    && (s.client.Waiting? && answers == [Reply] ==> s.box == [] && Ask !in Pending(s) && ClientExit !in Pending(s))
    && (s.client.Idle? ==> answers == [] || (answers == [ExitReply] && s.fired))
    && (s.client.Closed? || s.client.Left? ==> answers == [])
  }

  lemma OneAnswerEach(states: seq<State>, acts: seq<Action>, i: nat)
    requires Run(states, acts) && i < |states|
    ensures OneAnswerComing(states[i])
  {
    hide Inv, OneAnswerComing;
    RunKeepsInv(states, acts, i);
    if InLoop(states[i].listener) {
      OneAnswerInLoop(states[i]);
    } else {
      OneAnswerAtEnd(states[i]);
    }
  }

  lemma OneAnswerInLoop(s: State)
    requires Inv(s) && InLoop(s.listener)
    ensures OneAnswerComing(s)
  {
    assert LoopOk(s) && MomOk(s) && (s.timer.HalfDone? || s.timer.Done? ==> s.fired);
    hide Inv, DeskOk, Pending;
  }

  lemma OneAnswerAtEnd(s: State)
    requires Inv(s) && !InLoop(s.listener)
    ensures OneAnswerComing(s)
  {
    assert EndOk(s) && MomOk(s);
    assert s.listener.Awaiting? || s.listener.Checking? || s.listener.Refreshing? || s.listener.Serving?
           || Pending(s) == s.up;
    hide Inv, DeskOk, Pending;
    if s.mom.Ended? {
      assert s.back + s.down == s.back;
    } else if s.back == [] {
      assert s.back + s.down == s.down;
    } else {
      assert s.back + s.down == [Reply, ExitReply];
    }
  }

  // ----- the order of messages -----

  /** What a step puts before the listener: the request of the client that waits, or the timer's EXIT. */
  function PutBy(s: State, a: Action): seq<Item> {
    if a.TimerSends? then [TimerExit]
    else if a.MomTakes? && s.client == Waiting(Asking) then [Ask]
    else if a.MomTakes? && s.client == Waiting(Leaving) then [ClientExit]
    else []
  }

  /** What the listener has got by a step, to serve or to throw away. */
  function ReadBy(a: Action, s': State): seq<Item> {
    if a.ListenerTakes? && s'.listener.Checking? then [s'.listener.item]
    else if a.ListenerDrains? && s'.drained.Some? then [s'.drained.value]
    else []
  }

  function ItemsPut(states: seq<State>, acts: seq<Action>, n: nat): seq<Item>
    requires n <= |acts| <= |states|
  {
    if n == 0 then [] else ItemsPut(states, acts, n - 1) + PutBy(states[n - 1], acts[n - 1])
  }

  function ItemsRead(states: seq<State>, acts: seq<Action>, n: nat): seq<Item>
    requires n <= |acts| && n < |states|
  {
    if n == 0 then [] else ItemsRead(states, acts, n - 1) + ReadBy(acts[n - 1], states[n])
  }

  /** An answer put by the listener: to a request that of the admin, to an EXIT at once. */
  function AnswerBy(s: State, a: Action): seq<Answer> {
    if a.ListenerAnswers? then [Reply]
    else if a.ListenerServes? && s.listener.Serving? && !s.listener.item.Ask? then [ExitReply]
    else []
  }

  /** The answer a client has received: it goes on after a reply, and is over after an EXIT. */
  function ReceivedBy(a: Action, s': State): seq<Answer> {
    if a.ClientReceives? then [if s'.client.Idle? then Reply else ExitReply] else []
  }

  function AnswersPut(states: seq<State>, acts: seq<Action>, n: nat): seq<Answer>
    requires n <= |acts| <= |states|
  {
    if n == 0 then [] else AnswersPut(states, acts, n - 1) + AnswerBy(states[n - 1], acts[n - 1])
  }

  function AnswersReceived(states: seq<State>, acts: seq<Action>, n: nat): seq<Answer>
    requires n <= |acts| && n < |states|
  {
    if n == 0 then [] else AnswersReceived(states, acts, n - 1) + ReceivedBy(acts[n - 1], states[n])
  }

  lemma ItemsMove(s: State, a: Action)
    requires Inv(s) && Enabled(s, a)
    ensures ReadBy(a, Apply(s, a)) + Apply(s, a).up == s.up + PutBy(s, a)
  {
    hide LoopOk, EndOk, DeskOk;
    if a.MomTakes? {
      assert s.client == Waiting(s.box[0]);
    }
  }

  lemma AnswersMove(s: State, a: Action)
    requires Enabled(s, a)
    ensures ReceivedBy(a, Apply(s, a)) + (Apply(s, a).back + Apply(s, a).down) == s.back + s.down + AnswerBy(s, a)
  {
    var s' := Apply(s, a);
    if a.ClientReceives? {
      assert ReceivedBy(a, s') == [s.back[0]];
      assert s.back + s.down == [s.back[0]] + (s.back[1..] + s.down);
    } else if a.MomReturns? {
      assert s.back + s.down == (s.back + [s.down[0]]) + s.down[1..];
    } else {
      AnswersAdded(s, a);
    }
  }

  lemma AnswersAdded(s: State, a: Action)
    requires Enabled(s, a) && !a.ClientReceives? && !a.MomReturns?
    ensures Apply(s, a).back == s.back && Apply(s, a).down == s.down + AnswerBy(s, a)
  {
  }

  /** The listener reads what was put before it, and the client receives what it answers, each in order. */
  lemma {:induction false} ReadsInOrder(states: seq<State>, acts: seq<Action>, n: nat)
    requires Run(states, acts) && n <= |acts|
    ensures ItemsRead(states, acts, n) + states[n].up == ItemsPut(states, acts, n)
    ensures ItemsRead(states, acts, n) <= ItemsPut(states, acts, n)
    ensures AnswersReceived(states, acts, n) + (states[n].back + states[n].down) == AnswersPut(states, acts, n)
    ensures AnswersReceived(states, acts, n) <= AnswersPut(states, acts, n)
  {
    hide Inv, Apply, Enabled, PutBy, ReadBy, AnswerBy, ReceivedBy;
    if n > 0 {
      var s, a, s' := states[n - 1], acts[n - 1], states[n];
      ReadsInOrder(states, acts, n - 1);
      RunKeepsInv(states, acts, n - 1);
      ItemsMove(s, a);
      AnswersMove(s, a);
      InStep(ItemsRead(states, acts, n - 1), s.up, ItemsPut(states, acts, n - 1), ReadBy(a, s'), s'.up, PutBy(s, a));
      InStep(AnswersReceived(states, acts, n - 1), s.back + s.down, AnswersPut(states, acts, n - 1),
             ReceivedBy(a, s'), s'.back + s'.down, AnswerBy(s, a));
    }
  }

  /** What was put is what was read and what is there, and stays so when both sides go on. */
  lemma InStep<T>(done: seq<T>, rest: seq<T>, put: seq<T>, out: seq<T>, rest': seq<T>, more: seq<T>)
    requires done + rest == put && out + rest' == rest + more
    ensures done + out + rest' == put + more
  {
    assert done + out + rest' == done + (out + rest');
    assert put + more == done + (rest + more);
  }

  /** A request passed on is still to be answered, with nothing ahead of it but an EXIT of the timer put earlier. */
  predicate AskedFor(s: State, late: bool) {
    && s.client == Waiting(Asking) && s.box == []
    && var answer := if late then ExitReply else Reply;
       || (s.mom.Busy? && InLoop(s.listener) && s.down == [] && s.back == []
           && Pending(s) != [] && Pending(s)[0] == if late then TimerExit else Ask)
       || (s.mom.Busy? && s.back == [] && s.down != [] && s.down[0] == answer)
       || s.back == [answer]
  }

  lemma AskingAsks(s: State)
    requires Inv(s) && Enabled(s, MomTakes) && s.client == Waiting(Asking)
    ensures AskedFor(Apply(s, MomTakes), s.fired)
  {
    assert s.box == [Asking] && s.back == [];
    assert Pending(Apply(s, MomTakes)) == Pending(s) + [Ask];
    hide Pending, DeskOk;
  }

  lemma StaysAsked(s: State, a: Action, late: bool)
    requires Inv(s) && Enabled(s, a) && !a.ClientReceives? && AskedFor(s, late)
    ensures AskedFor(Apply(s, a), late)
  {
    if a.ListenerServes? {
      assert Pending(s)[0] == s.listener.item;
    }
  }

  lemma {:induction false} FiredIff(states: seq<State>, acts: seq<Action>, n: nat)
    requires Run(states, acts) && n <= |acts|
    ensures states[n].fired <==> exists t :: 0 <= t < n && acts[t].TimerSends?
  {
    if n > 0 {
      FiredIff(states, acts, n - 1);
      assert states[n] == Apply(states[n - 1], acts[n - 1]);
    }
  }

  lemma {:induction false} StaysAskedFor(states: seq<State>, acts: seq<Action>, i: nat, m: nat)
    requires Run(states, acts) && i < m <= |acts| && acts[i].MomTakes? && states[i].client == Waiting(Asking)
    requires forall k :: i < k < m ==> !acts[k].ClientReceives?
    ensures AskedFor(states[m], states[i].fired)
    decreases m - i
  {
    hide Inv, Apply, Enabled, AskedFor;
    RunKeepsInv(states, acts, m - 1);
    if m == i + 1 {
      AskingAsks(states[i]);
    } else {
      StaysAskedFor(states, acts, i, m - 1);
      StaysAsked(states[m - 1], acts[m - 1], states[i].fired);
    }
  }

  /**
   A request is answered, and not by the end of the session, if and only if it was passed on before the timer
   sent its EXIT, whenever the listener and the timer go on.
   */
  lemma RepliedIffBeforeTimer(states: seq<State>, acts: seq<Action>, i: nat, j: nat)
    requires Run(states, acts) && i < j < |acts| && acts[i].MomTakes? && states[i].client == Waiting(Asking)
    requires acts[j].ClientReceives? && forall k :: i < k < j ==> !acts[k].ClientReceives?
    ensures ReceivedBy(acts[j], states[j + 1]) == [Reply] <==> forall t :: 0 <= t < i ==> !acts[t].TimerSends?
  {
    StaysAskedFor(states, acts, i, j);
    FiredIff(states, acts, i);
    assert states[j + 1] == Apply(states[j], acts[j]);
  }

  predicate Sends(a: Action) {
    a.ClientCalls?
  }

  predicate OfTimer(a: Action) {
    a.TimerSends? || a.TimerMarks?
  }

  /** While the client waits for a request, it can be served, whatever the timer does. */
  lemma WaitingIsServed(states: seq<State>, acts: seq<Action>, i: nat)
    requires Run(states, acts) && i < |states|
    requires states[i].client.Waiting? && !states[i].client.call.LoggingIn?
    ensures exists a: Action :: !Sends(a) && !OfTimer(a) && Enabled(states[i], a)
  {
    RunKeepsInv(states, acts, i);
    var s := states[i];
    var a :=
      if s.back != [] then ClientReceives
      else if s.box != [] then MomTakes
      else if s.down != [] then MomReturns
      else match s.listener
        case Listening => ListenerTakes
        case Checking(_) => ListenerChecks
        case Refreshing(_) => ListenerRefreshes
        case Awaiting =>
          if s.answered then ListenerAnswers else if s.desk[0].running then HandlerEnds(0) else AdminStarts(0)
        case _ => ListenerServes;
    assert !Sends(a) && !OfTimer(a) && Enabled(s, a);
  }

  function ListenerRank(l: Listener): nat {
    match l
    case Checking(_) => 13
    case Refreshing(_) => 12
    case Serving(_) => 11
    case Awaiting => 7
    case Listening => 4
    case Stopping => 3
    case Deciding => 2
    case Draining => 1
    case Finished => 0
  }

  function Rank(s: State): nat {
    11 * |s.box| + 10 * |s.up| + 2 * |s.down| + |s.back| + ListenerRank(s.listener)
    + (if s.desk == [] then 0 else if s.desk[0].running then 1 else 2)
    + if s.timer.Armed? then 12 else if s.timer.HalfDone? then 1 else 0
  }

  /** Every step but a new request brings the session nearer to rest. */
  lemma RankFalls(s: State, a: Action)
    requires Inv(s) && Enabled(s, a) && !Sends(a)
    ensures Rank(Apply(s, a)) < Rank(s)
  {
    if a.ListenerServes? || a.AdminStarts? || a.HandlerEnds? {
      hide Apply, Enabled, Inv, Rank;
      WorkFalls(s, a);
    } else {
      hide Inv, DeskOk;
    }
  }

  lemma WorkFalls(s: State, a: Action)
    requires Inv(s) && Enabled(s, a) && (a.ListenerServes? || a.AdminStarts? || a.HandlerEnds?)
    ensures Rank(Apply(s, a)) < Rank(s)
  {
    assert |s.desk| <= 1 && (a.ListenerServes? ==> s.desk == []);
    hide Inv;
  }

  function Sent(acts: seq<Action>): nat {
    if acts == [] then 0 else Sent(acts[..|acts| - 1]) + if Sends(acts[|acts| - 1]) then 1 else 0
  }

  function Received(acts: seq<Action>): nat {
    if acts == [] then 0 else Received(acts[..|acts| - 1]) + if acts[|acts| - 1].ClientReceives? then 1 else 0
  }

  lemma {:induction false} OneReceivedEach(states: seq<State>, acts: seq<Action>, i: nat)
    requires Run(states, acts) && i <= |acts|
    ensures Sent(acts[..i]) == Received(acts[..i]) + if states[i].client.Waiting? then 1 else 0
  {
    if i > 0 {
      OneReceivedEach(states, acts, i - 1);
      assert acts[..i][..i - 1] == acts[..i - 1];
      assert states[i] == Apply(states[i - 1], acts[i - 1]);
    }
  }

  /** Nothing is left to do but for the timer to fire and the client to call anew. */
  ghost predicate AtRest(s: State) {
    forall a: Action :: Enabled(s, a) ==> Sends(a) || OfTimer(a)
  }

  ghost predicate LogsIn(acts: seq<Action>) {
    exists i :: 0 <= i < |acts| && acts[i] == ClientCalls(LoggingIn)
  }

  /** A client that logs in, whether its session is still there or has been closed by the cinema, waits for ever. */
  lemma {:induction false} LoginIsForEver(states: seq<State>, acts: seq<Action>, i: nat, j: nat)
    requires Run(states, acts) && i < j < |states| && acts[i] == ClientCalls(LoggingIn)
    ensures states[j].client == Waiting(LoggingIn)
    decreases j - i
  {
    if i + 1 < j {
      LoginIsForEver(states, acts, i, j - 1);
      RunKeepsInv(states, acts, j - 1);
    }
    LoginStays(states[j - 1], acts[j - 1]);
  }

  lemma LoginStays(s: State, a: Action)
    requires Enabled(s, a) && (a == ClientCalls(LoggingIn) || (Inv(s) && s.client == Waiting(LoggingIn)))
    ensures Apply(s, a).client == Waiting(LoggingIn)
  {
    hide LoopOk, EndOk, DeskOk;
  }

  lemma {:induction false} LoginsWait(states: seq<State>, acts: seq<Action>, i: nat)
    requires Run(states, acts) && i < |states| && states[i].client == Waiting(LoggingIn)
    ensures LogsIn(acts)
  {
    if i > 0 {
      assert states[i] == Apply(states[i - 1], acts[i - 1]);
      if acts[i - 1] != ClientCalls(LoggingIn) {
        assert states[i - 1].client == Waiting(LoggingIn);
        LoginsWait(states, acts, i - 1);
      }
    }
  }

  /**
   Bring the session to rest, which takes at most as many steps as its rank: then each of the client's calls
   has been answered if and only if none was a login.
   */
  lemma AllAnswered(states: seq<State>, acts: seq<Action>)
    requires Run(states, acts) && AtRest(states[|acts|])
    ensures !states[|acts|].client.Waiting? <==> !LogsIn(acts)
    ensures Sent(acts) == Received(acts) <==> !LogsIn(acts)
  {
    hide Enabled;
    var s := states[|acts|];
    if LogsIn(acts) {
      var i :| 0 <= i < |acts| && acts[i] == ClientCalls(LoggingIn);
      LoginIsForEver(states, acts, i, |acts|);
    } else if s.client.Waiting? {
      if s.client.call.LoggingIn? {
        LoginsWait(states, acts, |acts|);
      } else {
        WaitingIsServed(states, acts, |acts|);
      }
    }
    OneReceivedEach(states, acts, |acts|);
    assert acts[..|acts|] == acts;
  }

  lemma {:induction false} FewStepsLeft(states: seq<State>, acts: seq<Action>, i: nat, j: nat)
    requires Run(states, acts) && i <= j <= |acts| && forall k :: i <= k < j ==> !Sends(acts[k])
    ensures Rank(states[j]) + (j - i) <= Rank(states[i])
    decreases j - i
  {
    hide Apply, Enabled, Rank, Inv;
    if i < j {
      FewStepsLeft(states, acts, i, j - 1);
      RunKeepsInv(states, acts, j - 1);
      RankFalls(states[j - 1], acts[j - 1]);
    }
  }

  // ----- the user's handlers -----

  /** Whatever the timer does, at most one request of the user is with the admin at any time. */
  lemma HandlersDoNotOverlap(states: seq<State>, acts: seq<Action>, i: nat)
    requires Run(states, acts) && i < |states|
    ensures |states[i].desk| <= 1
  {
    hide LoopOk, EndOk, MomOk, Run;
    RunKeepsInv(states, acts, i);
  }

  /** After the first EXIT, the client's or the timer's, the admin is sent nothing more for the user. */
  lemma {:induction false} ExitIsLast(states: seq<State>, acts: seq<Action>, i: nat, j: nat)
    requires Run(states, acts) && i < j < |acts| && acts[i].ListenerServes? && !states[i].listener.item.Ask?
    ensures !InLoop(states[j].listener) && !acts[j].ListenerServes?
    decreases j - i
  {
    assert states[i + 1] == Apply(states[i], acts[i]);
    if i + 1 < j {
      ExitIsLast(states, acts, i, j - 1);
      EndsForGood(states[j - 1], acts[j - 1]);
    }
  }

  lemma EndsForGood(s: State, a: Action)
    requires Enabled(s, a) && !InLoop(s.listener)
    ensures !InLoop(Apply(s, a).listener)
  {
  }

  // ----- what is left at the end -----

  /** A refresh over the timer's mark, or a kill between the timer's EXIT and its mark. */
  predicate Tears(s: State, a: Action) {
    (a.ListenerRefreshes? && s.timedOut) || (a.ListenerKills? && s.timer.HalfDone?)
  }

  ghost predicate Torn(states: seq<State>, acts: seq<Action>, n: nat)
    requires |states| == |acts| + 1 && n <= |acts|
  {
    exists i :: 0 <= i < n && Tears(states[i], acts[i])
  }

  /** The timer has sent its EXIT, and its mark is neither in the slot nor to come. */
  predicate MarkLost(s: State) {
    s.fired && !s.timedOut && !s.timer.HalfDone?
  }

  lemma StepLosesMark(s: State, a: Action)
    requires Inv(s) && Enabled(s, a)
    ensures MarkLost(Apply(s, a)) <==> MarkLost(s) || Tears(s, a)
  {
    hide LoopOk, EndOk, MomOk, DeskOk;
  }

  lemma {:induction false} LostMeansTorn(states: seq<State>, acts: seq<Action>, n: nat)
    requires Run(states, acts) && n <= |acts|
    ensures MarkLost(states[n]) <==> Torn(states, acts, n)
  {
    hide Inv, Enabled, Apply, Tears;
    if n > 0 {
      LostMeansTorn(states, acts, n - 1);
      RunKeepsInv(states, acts, n - 1);
      StepLosesMark(states[n - 1], acts[n - 1]);
      assert Torn(states, acts, n) <==> Torn(states, acts, n - 1) || Tears(states[n - 1], acts[n - 1]);
    }
  }

  /**
   Once the EXIT answer has been passed on and the session is at rest, the listener has finished and no
   answer is left; a message to it is left unread exactly when a critical section was torn, and then it is
   one message; and one to the MOM's process exactly when the client has logged in after the end.
   */
  lemma LeftoverWhenTorn(states: seq<State>, acts: seq<Action>)
    requires Run(states, acts) && states[|acts|].mom.Ended? && AtRest(states[|acts|])
    ensures var s := states[|acts|];
            && s.listener.Finished? && s.down == [] && s.back == []
            && |s.up| == (if Torn(states, acts, |acts|) then 1 else 0)
            && s.box == if LogsIn(acts) then [LoggingIn] else []
  {
    RunKeepsInv(states, acts, |acts|);
    LostMeansTorn(states, acts, |acts|);
    var s := states[|acts|];
    EndedAtRest(s);
    AllAnswered(states, acts);
  }

  lemma EndedAtRest(s: State)
    requires Inv(s) && s.mom.Ended? && AtRest(s)
    ensures s.listener.Finished? && s.back == []
  {
    assert !Enabled(s, ListenerKills) && !Enabled(s, ListenerDecides) && !Enabled(s, ListenerDrains);
    assert !Enabled(s, ClientReceives);
  }

  /** The timer's EXIT and mark are one step, and so are the listener's test and refresh. */
  ghost predicate Whole(states: seq<State>, acts: seq<Action>)
    requires |states| == |acts| + 1
  {
    forall i :: 0 <= i && i + 1 < |acts| ==>
      && (acts[i].TimerSends? ==> acts[i + 1].TimerMarks?)
      && (acts[i].ListenerChecks? && states[i + 1].listener.Refreshing? ==> acts[i + 1].ListenerRefreshes?)
  }

  lemma {:induction false} WholeSteps(states: seq<State>, acts: seq<Action>, i: nat)
    requires Run(states, acts) && Whole(states, acts) && i < |acts|
    ensures states[i].listener.Refreshing? ==>
              i > 0 && acts[i - 1].ListenerChecks? && acts[i].ListenerRefreshes? && !states[i].timedOut
    ensures states[i].timer.HalfDone? ==> i > 0 && acts[i - 1].TimerSends? && acts[i].TimerMarks?
  {
    if i > 0 {
      WholeSteps(states, acts, i - 1);
      assert states[i] == Apply(states[i - 1], acts[i - 1]);
    }
  }

  /** With whole steps every message to and from the listener has been read in the end. */
  lemma WholeStepsLeaveNothing(states: seq<State>, acts: seq<Action>)
    requires Run(states, acts) && Whole(states, acts) && states[|acts|].mom.Ended? && AtRest(states[|acts|])
    ensures states[|acts|].up == [] && states[|acts|].down == [] && states[|acts|].back == []
  {
    forall i | 0 <= i < |acts| ensures !Tears(states[i], acts[i]) {
      WholeSteps(states, acts, i);
    }
    LeftoverWhenTorn(states, acts);
  }

  // ----- both ways of tearing happen -----

  ghost predicate EndsIn(states: seq<State>, acts: seq<Action>, s: State) {
    Run(states, acts) && states[|acts|] == s
  }

  lemma Extend(states: seq<State>, acts: seq<Action>, s: State, a: Action)
    returns (states': seq<State>, acts': seq<Action>, s': State)
    requires EndsIn(states, acts, s) && Enabled(s, a)
    ensures s' == Apply(s, a) && EndsIn(states', acts', s')
  {
    hide Apply, Enabled;
    states', acts', s' := states + [Apply(s, a)], acts + [a], Apply(s, a);
  }

  lemma Start() returns (states: seq<State>, acts: seq<Action>, s: State)
    ensures Initial(s) && EndsIn(states, acts, s)
  {
    s := State(Idle, [], [], Ready, [], [], Listening, [], false, Armed, false, false, None, 0);
    states, acts := [s], [];
  }

  /** The listener refreshes over the mark: the timer's EXIT stays in the queue for good. */
  lemma RefreshTears()
    ensures exists states: seq<State>, acts: seq<Action>, s: State ::
              EndsIn(states, acts, s) && s.listener.Finished? && s.client.Left? && s.up == [TimerExit]
  {
    hide EndsIn;
    var states, acts, s := Start();
    states, acts, s := Extend(states, acts, s, ClientCalls(Leaving));
    states, acts, s := Extend(states, acts, s, MomTakes);
    states, acts, s := Extend(states, acts, s, ListenerTakes);
    states, acts, s := Extend(states, acts, s, ListenerChecks);
    states, acts, s := Extend(states, acts, s, TimerSends);
    states, acts, s := Extend(states, acts, s, TimerMarks);
    states, acts, s := Extend(states, acts, s, ListenerRefreshes);
    states, acts, s := Extend(states, acts, s, ListenerServes);
    states, acts, s := Extend(states, acts, s, MomReturns);
    states, acts, s := Extend(states, acts, s, ClientReceives);
    states, acts, s := Extend(states, acts, s, ListenerKills);
    states, acts, s := Extend(states, acts, s, ListenerDecides);
  }

  /** The timer is killed before its mark: the client's own EXIT stays in the queue for good. */
  lemma KillTears()
    ensures exists states: seq<State>, acts: seq<Action>, s: State ::
              EndsIn(states, acts, s) && s.listener.Finished? && s.client.Left? && s.up == [ClientExit]
  {
    hide EndsIn;
    var states, acts, s := Start();
    states, acts, s := Extend(states, acts, s, TimerSends);
    states, acts, s := Extend(states, acts, s, ClientCalls(Leaving));
    states, acts, s := Extend(states, acts, s, MomTakes);
    states, acts, s := Extend(states, acts, s, ListenerTakes);
    states, acts, s := Extend(states, acts, s, ListenerChecks);
    states, acts, s := Extend(states, acts, s, ListenerRefreshes);
    states, acts, s := Extend(states, acts, s, ListenerServes);
    states, acts, s := Extend(states, acts, s, MomReturns);
    states, acts, s := Extend(states, acts, s, ClientReceives);
    states, acts, s := Extend(states, acts, s, ListenerKills);
    states, acts, s := Extend(states, acts, s, ListenerDecides);
  }

  // ----- and so do both logins -----

  /** The cinema closes the session, and the client logs in: nobody reads that any more. */
  lemma LoginAfterTimeout()
    ensures exists states: seq<State>, acts: seq<Action>, s: State ::
              EndsIn(states, acts, s) && s.mom.Ended? && s.client == Waiting(LoggingIn) && s.box == [LoggingIn]
  {
    hide EndsIn;
    var states, acts, s := Start();
    states, acts, s := Extend(states, acts, s, TimerSends);
    states, acts, s := Extend(states, acts, s, TimerMarks);
    states, acts, s := Extend(states, acts, s, ListenerTakes);
    states, acts, s := Extend(states, acts, s, ListenerChecks);
    states, acts, s := Extend(states, acts, s, ListenerServes);
    states, acts, s := Extend(states, acts, s, ClientCalls(Asking));
    states, acts, s := Extend(states, acts, s, MomTakes);
    states, acts, s := Extend(states, acts, s, MomReturns);
    states, acts, s := Extend(states, acts, s, ClientReceives);
    states, acts, s := Extend(states, acts, s, ClientCalls(LoggingIn));
  }

  /** The client logs in while it is logged in: the MOM's process waits for the wrong answer. */
  lemma LoginWhileLoggedIn()
    ensures exists states: seq<State>, acts: seq<Action>, s: State ::
              EndsIn(states, acts, s) && s.mom.Lost? && s.client == Waiting(LoggingIn)
  {
    hide EndsIn;
    var states, acts, s := Start();
    states, acts, s := Extend(states, acts, s, ClientCalls(LoggingIn));
    states, acts, s := Extend(states, acts, s, MomTakes);
  }
}
