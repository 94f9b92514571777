/**
 The handlers the relay has the admin start: one at a time for each user, in the order of its requests, and
 none after an EXIT.
 */
module RelayCourse {
  import opened TypedQueue
  import opened Relay
  import opened RelayInvariant
  import opened RelaySteps
  import opened RelayEffects
  import opened RelayHandlers
  import opened Course

  function EventOf(s: State, a: Action): seq<Event>
    requires Enabled(s, a)
  {
    match a
    case AdminForks =>
      var note := Typed(s, AdminUp, ADMIN);
      [Started(note.clientId, note.tag.serial, note.choice.Leave?)]
    case HandlerEnds(i, _) => [Event.Ended(s.queues[Pool][i].body.clientId)]
    case _ => []
  }

  ghost function Events(states: seq<State>, acts: seq<Action>, n: nat): seq<Event>
    requires Run(states, acts) && n <= |acts|
  {
    if n == 0 then [] else Events(states, acts, n - 1) + EventOf(states[n - 1], acts[n - 1])
  }

  function Ids(q: seq<Envelope<Note>>): set<int> {
    set e | e in q :: e.body.clientId
  }

  ghost predicate Tallies(s: State, es: seq<Event>) {
    Running(es) == Ids(s.queues[Pool]) && forall u :: u in Exited(es) ==> Gone(s, u)
  }

  lemma StartTallies(s: State, es: seq<Event>)
    requires Inv(s) && Tallies(s, es) && InTurn(es) && Enabled(s, AdminForks)
    requires Follows(es, Typed(s, AdminUp, ADMIN).clientId, Typed(s, AdminUp, ADMIN).tag.serial)
    ensures var es' := es + EventOf(s, AdminForks); Tallies(Apply(s, AdminForks), es') && InTurn(es')
  {
    hide Inv, Gone, Channel, Oldest, Running, Exited, InTurn, Follows;
    var k := Oldest(s.queues[AdminUp], ADMIN);
    var env := s.queues[AdminUp][k];
    var u := env.body.clientId;
    Snoc(es, Started(u, env.body.tag.serial, env.body.choice.Leave?));
    ForksIntoPool(s);
    IdsGrow(s.queues[Pool], Envelope(1, env.body));
    NotStarted(s, k, es);
    forall v | v in Exited(es) ensures Gone(Apply(s, AdminForks), v) {
      GoneStays(s, AdminForks, v);
    }
    if env.body.choice.Leave? {
      ExitMakesGone(s, k);
    }
  }

  lemma ForksIntoPool(s: State)
    requires Enabled(s, AdminForks)
    ensures Apply(s, AdminForks).queues[Pool] == s.queues[Pool] + [Envelope(1, Typed(s, AdminUp, ADMIN))]
  {
    hide Channel, Oldest, TokenOf, Without;
  }

  lemma IdsGrow(q: seq<Envelope<Note>>, env: Envelope<Note>)
    ensures Ids(q + [env]) == Ids(q) + {env.body.clientId}
  {
    assert env in q + [env];
    assert forall e :: e in q + [env] <==> e in q || e == env;
    forall u | u in Ids(q) + {env.body.clientId} ensures u in Ids(q + [env]) {
      if u in Ids(q) {
        var e :| e in q && e.body.clientId == u;
        assert e in q + [env];
      }
    }
  }

  /** The user of the next request has no handler running and has not left. */
  lemma NotStarted(s: State, k: nat, es: seq<Event>)
    requires Inv(s) && Tallies(s, es) && k < |s.queues[AdminUp]|
    ensures var u := s.queues[AdminUp][k].body.clientId; u !in Running(es) && u !in Exited(es)
  {
    hide Inv, Running, Exited;
    var u := s.queues[AdminUp][k].body.clientId;
    if u in Running(es) {
      var e :| e in s.queues[Pool] && e.body.clientId == u;
      var j :| 0 <= j < |s.queues[Pool]| && s.queues[Pool][j] == e;
      AdminIdsDiffer(s, AdminUp, k, Pool, j);
    }
  }

  lemma EndTallies(s: State, es: seq<Event>, a: Action)
    requires Inv(s) && Tallies(s, es) && InTurn(es) && Enabled(s, a) && a.HandlerEnds?
    ensures var es' := es + EventOf(s, a); Tallies(Apply(s, a), es') && InTurn(es')
  {
    hide Inv, Gone, Running, Exited, InTurn, FreshId;
    var q := s.queues[Pool];
    Snoc(es, Event.Ended(q[a.i].body.clientId));
    EndsInPool(s, a);
    forall j: nat, k: nat | j < k < |q| ensures q[j].body.clientId != q[k].body.clientId {
      AdminIdsDiffer(s, Pool, j, Pool, k);
    }
    IdsShrink(q, a.i);
    forall v | v in Exited(es) ensures Gone(Apply(s, a), v) {
      GoneStays(s, a, v);
    }
  }

  lemma EndsInPool(s: State, a: Action)
    requires Enabled(s, a) && a.HandlerEnds?
    ensures Apply(s, a).queues[Pool] == Without(s.queues[Pool], a.i)
  {
    HandlerEndsStep(s, a);
    hide Without, Stamp, SendType, Apply, Enabled, Grant, Pull, Post;
    PostsElsewhere();
    PulledFrom(s, a.i);
  }

  lemma PulledFrom(s: State, i: nat)
    requires i < |s.queues[Pool]|
    ensures Pull(s, Pool, i).queues[Pool] == Without(s.queues[Pool], i)
  {
    hide Without, TokenOf;
  }

  lemma PostsElsewhere()
    ensures forall s: State, to: Node, t: int, note: Note {:trigger Post(s, to, t, note)} | to != Pool ::
              Post(s, to, t, note).queues[Pool] == s.queues[Pool]
  {
    hide TokenOf;
  }

  lemma IdsShrink(q: seq<Envelope<Note>>, i: nat)
    requires i < |q| && forall j: nat, k: nat :: j < k < |q| ==> q[j].body.clientId != q[k].body.clientId
    ensures Ids(Without(q, i)) == Ids(q) - {q[i].body.clientId}
  {
    var q' := Without(q, i);
    forall u | u in Ids(q') ensures u in Ids(q) && u != q[i].body.clientId {
      var e :| e in q' && e.body.clientId == u;
      var j :| 0 <= j < |q'| && q'[j] == e;
      WithoutAt(q, i, j);
    }
    forall u | u in Ids(q) && u != q[i].body.clientId ensures u in Ids(q') {
      var e :| e in q && e.body.clientId == u;
      var j :| 0 <= j < |q| && q[j] == e;
      WithoutAt(q, i, if j < i then j else j - 1);
      assert q'[if j < i then j else j - 1] == e;
    }
  }

  lemma OtherTallies(s: State, es: seq<Event>, a: Action)
    requires Inv(s) && Tallies(s, es) && Enabled(s, a) && !a.AdminForks? && !a.HandlerEnds?
    ensures Tallies(Apply(s, a), es)
  {
    hide Inv, Gone, Running, Exited, Apply, Enabled;
    PoolStays(s, a);
    forall v | v in Exited(es) ensures Gone(Apply(s, a), v) {
      GoneStays(s, a, v);
    }
  }

  lemma PoolStays(s: State, a: Action)
    requires Enabled(s, a) && !a.AdminForks? && !a.HandlerEnds?
    ensures Apply(s, a).queues[Pool] == s.queues[Pool]
  {
    if a.ClientSends? {
      hide Apply, Enabled;
      var env := SendsOne(s, a);
    } else if !a.MainForks? && !a.TakerSpawns? {
      hide Apply, Enabled;
      StepsNearer(s, a);
    } else {
      hide Channel;
    }
  }

  /** Earlier handlers of the user were started for earlier requests. */
  lemma {:induction false} RequestFollows(states: seq<State>, acts: seq<Action>, n: nat, i: nat)
    requires Run(states, acts) && n <= i < |acts| && acts[i] == AdminForks
    ensures var note := Typed(states[i], AdminUp, ADMIN);
            Follows(Events(states, acts, n), note.clientId, note.tag.serial)
  {
    hide Apply, Channel, Oldest;
    if n > 0 {
      RequestFollows(states, acts, n - 1, i);
      var note := Typed(states[i], AdminUp, ADMIN);
      var es, last := Events(states, acts, n - 1), EventOf(states[n - 1], acts[n - 1]);
      if last == [] {
        assert es + last == es;
      } else {
        assert last == [last[0]];
        FollowsSnoc(es, last[0], note.clientId, note.tag.serial);
        if last[0].Started? && last[0].user == note.clientId {
          UsersHandlersInOrder(states, acts, n - 1, i);
        }
      }
    }
  }

  lemma {:induction false} EventsTally(states: seq<State>, acts: seq<Action>, n: nat)
    requires Run(states, acts) && n <= |acts|
    ensures Tallies(states[n], Events(states, acts, n)) && InTurn(Events(states, acts, n))
  {
    hide Inv, Apply, Enabled, Tallies, InTurn, EventOf;
    if n == 0 {
      NothingTallies(states[0]);
    } else {
      EventsTally(states, acts, n - 1);
      RunKeepsInv(states, acts, n - 1);
      var s, a, es := states[n - 1], acts[n - 1], Events(states, acts, n - 1);
      if a.AdminForks? {
        RequestFollows(states, acts, n - 1, n - 1);
        StartTallies(s, es);
      } else if a.HandlerEnds? {
        EndTallies(s, es, a);
      } else {
        OtherTallies(s, es, a);
        NoEvent(s, a);
        assert es + [] == es;
      }
    }
  }

  lemma NoEvent(s: State, a: Action)
    requires Enabled(s, a) && !a.AdminForks? && !a.HandlerEnds?
    ensures EventOf(s, a) == []
  {
  }

  lemma NothingTallies(s: State)
    requires Initial(s)
    ensures Tallies(s, []) && InTurn([])
  {
  }

  /** In every run of the relay the handlers of each user are in turn and in order, and none follows an EXIT. */
  lemma RelayIsInTurn(states: seq<State>, acts: seq<Action>)
    requires Run(states, acts)
    ensures InTurn(Events(states, acts, |acts|))
  {
    EventsTally(states, acts, |acts|);
  }
}
