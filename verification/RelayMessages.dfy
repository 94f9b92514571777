/**
 The relay keeps one message for each client that waits, and answers it with its own answer.
 */
module RelayMessages {
  import opened TypedQueue
  import opened Wrappers
  import opened Relay
  import opened RelayInvariant
  import opened RelayLocal
  import opened RelaySteps

  /** The message at index `k` of `n` is a request of `c` or its answer. */
  predicate About(s: State, n: Node, k: nat, c: int) {
    k < |s.queues[n]| && s.queues[n][k].body.tag.client == c && !s.queues[n][k].body.tag.notice
  }

  lemma AboutIsPlaced(s: State, n: Node, k: nat, c: int)
    requires Inv(s) && About(s, n, k, c)
    ensures Token(c, false) in s.place && s.place[Token(c, false)] == Spot(n, s.queues[n][k])
    ensures c in s.clients && LocalOf(s, c).main == Some(Spot(n, s.queues[n][k]))
  {
    hide LocalOk;
    Found(s, n, k);
  }

  lemma PlacedOnce(s: State, n: Node, k: nat, k': nat, c: int)
    requires Inv(s) && About(s, n, k, c) && About(s, n, k', c)
    ensures k == k'
  {
    hide LocalOk, IdsOk, Scoped;
    assert QueueAgrees(s.queues[n], n, s.place);
  }

  /**
   Of every client that waits there is exactly one message in all the queues, sockets and processes:
   its latest request, or the answer to that request. Of a client that does not wait there is none.
   */
  lemma OneMessageEach(states: seq<State>, acts: seq<Action>, i: nat, c: int)
    requires Run(states, acts) && i < |states| && c in states[i].clients
    ensures var s := states[i];
            && (s.clients[c].pc.Waiting? <==> exists n: Node, k: nat :: About(s, n, k, c))
            && (forall n: Node, k: nat, n': Node, k': nat ::
                  About(s, n, k, c) && About(s, n', k', c) ==> n == n' && k == k')
            && forall n: Node, k: nat :: About(s, n, k, c) ==> s.queues[n][k].body.tag.serial == s.clients[c].serial
  {
    hide Run, Inv, LocalOk, LocalOf;
    RunKeepsInv(states, acts, i);
    var s := states[i];
    forall n: Node, k: nat, n': Node, k': nat | About(s, n, k, c) && About(s, n', k', c) ensures n == n' && k == k' {
      AboutIsPlaced(s, n, k, c);
      AboutIsPlaced(s, n', k', c);
      PlacedOnce(s, n, k, k', c);
    }
    forall n: Node, k: nat | About(s, n, k, c)
      ensures s.clients[c].pc.Waiting? && s.queues[n][k].body.tag.serial == s.clients[c].serial
    {
      AboutIsPlaced(s, n, k, c);
      Look(s, c);
      Ids(s, c);
      TagIsCurrent(c, LocalOf(s, c));
    }
    if s.clients[c].pc.Waiting? {
      var n, k := WaitingHasMessage(s, c);
    }
  }

  lemma TagIsCurrent(c: int, l: Local)
    requires LocalOk(c, l) && l.main.Some?
    ensures l.client.pc.Waiting? && l.main.value.env.body.tag == Tag(c, l.client.serial, false)
  {
  }

  lemma WaitingHasMessage(s: State, c: int) returns (n: Node, k: nat)
    requires Inv(s) && c in s.clients && s.clients[c].pc.Waiting?
    ensures About(s, n, k, c)
  {
    hide IdsOk, Scoped, NoticeOk, WaitingOk;
    assert LocalOk(c, LocalOf(s, c));
    var spot := s.place[Token(c, false)];
    n := spot.node;
    var q := s.queues[n];
    assert QueueAgrees(q, n, s.place) && spot.env in q;
    var j :| 0 <= j < |q| && q[j] == spot.env;
    k := j;
  }

  /** The answer with which a client joins tells it the update slot its MOM process writes to. */
  lemma SlotIsOwn(states: seq<State>, acts: seq<Action>, i: nat, c: int)
    requires Run(states, acts) && i < |acts| && acts[i] == ClientReceives(c)
    requires c in states[i].clients && states[i].clients[c].choice.Init?
    ensures HasTyped(states[i], MomDown, c) && Typed(states[i], MomDown, c).id == c % Messages.MAX_CLIENTS_HOST
  {
    hide Inv, LocalOk, LocalOf;
    RunKeepsInv(states, acts, i);
    var s := states[i];
    var d, l, env := MainOwner(s, MomDown, Oldest(s.queues[MomDown], c));
    ReturnType(d, l, MomDown, env);
    Look(s, d);
    JoinsSlot(d, l, env);
  }

  lemma JoinsSlot(c: int, l: Local, env: Envelope<Note>)
    requires LocalOk(c, l) && l.main == Some(Spot(MomDown, env)) && l.client.choice.Init?
    ensures env.body.id == c % Messages.MAX_CLIENTS_HOST
  {
  }

  /** The answer a client receives is the answer to its own latest request. */
  lemma AnswerIsOwn(states: seq<State>, acts: seq<Action>, i: nat, c: int)
    requires Run(states, acts) && i < |acts| && acts[i] == ClientReceives(c)
    ensures var s := states[i];
            && c in s.clients && HasTyped(s, MomDown, c)
            && Typed(s, MomDown, c).tag == Tag(c, s.clients[c].serial, false)
            && Typed(s, MomDown, c).choice == AnswerTo(s.clients[c].choice)
  {
    hide Inv, LocalOk, LocalOf;
    RunKeepsInv(states, acts, i);
    var s := states[i];
    var d, l, env := MainOwner(s, MomDown, Oldest(s.queues[MomDown], c));
    ReturnType(d, l, MomDown, env);
    Look(s, d);
    ReceivesLocal(d, l, env);
  }
}
