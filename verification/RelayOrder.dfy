/**
 First come, first served: at no place of the relay does a message overtake an earlier one of its type, and
 at the places where any type is received, no message overtakes another.
 */
module RelayOrder {
  import opened TypedQueue
  import opened Relay
  import opened RelayInvariant
  import opened RelaySteps
  import opened RelayEffects

  /** Both messages are at `n`, `e` before `f`. */
  ghost predicate Before(s: State, n: Node, e: Envelope<Note>, f: Envelope<Note>) {
    exists k: nat, l: nat :: k < l < |s.queues[n]| && s.queues[n][k] == e && s.queues[n][l] == f
  }

  lemma StepQueues(s: State, a: Action, n: Node)
    requires Enabled(s, a)
    ensures Queued(n, s.queues[n], Apply(s, a).queues[n])
  {
    hide Queued;
    if a.ClientSends? {
      hide Apply, Enabled;
      var env := SendsOne(s, a);
      PutInOrder(n, s.queues[n], env);
    } else if a.MainForks? || a.TakerSpawns? {
      PutInOrder(n, s.queues[n], Envelope(1, Blank(Other, 0, Tag(0, 0, false))));
    } else {
      hide Apply, Enabled;
      StepsNearer(s, a);
    }
  }

  lemma PutInOrder(n: Node, q: seq<Envelope<Note>>, env: Envelope<Note>)
    ensures Queued(n, q, q) && Queued(n, q, q + [env])
  {
  }

  lemma WithoutAt<T>(q: seq<T>, i: nat, j: nat)
    requires i < |q| && j < |q| && j != i
    ensures var j' := if j < i then j else j - 1; j' < |Without(q, i)| && Without(q, i)[j'] == q[j]
  {
  }

  lemma LeftIsGone<T(!new)>(q: seq<T>, i: nat)
    requires i < |q| && forall j: nat, k: nat :: j < k < |q| ==> q[j] != q[k]
    ensures q[i] !in Without(q, i)
  {
    var q' := Without(q, i);
    forall j | 0 <= j < |q'| ensures q'[j] != q[i] {
      assert q'[j] == q[if j < i then j else j + 1];
    }
  }

  lemma TakenFromBefore(n: Node, q: seq<Envelope<Note>>, i: nat, k: nat, l: nat)
    requires Foremost(n, q, i) && k < l < |q| && (Untyped(n) || q[k].mtype == q[l].mtype)
    requires q[k] in Without(q, i) && forall i: nat, j: nat :: i < j < |q| ==> q[i] != q[j]
    ensures var q' := Without(q, i); exists k': nat, l': nat :: k' < l' < |q'| && q'[k'] == q[k] && q'[l'] == q[l]
  {
    LeftIsGone(q, i);
    hide Without;
    assert i != k && i != l;
    WithoutAt(q, i, k);
    WithoutAt(q, i, l);
  }

  /** Of two messages that compete the later does not leave while the earlier is there. */
  lemma StaysBehind(n: Node, q: seq<Envelope<Note>>, q': seq<Envelope<Note>>, k: nat, l: nat)
    requires Queued(n, q, q') && !n.Pool? && k < l < |q| && (Untyped(n) || q[k].mtype == q[l].mtype)
    requires q[k] in q' && forall i: nat, j: nat :: i < j < |q| ==> q[i] != q[j]
    ensures exists k': nat, l': nat :: k' < l' < |q'| && q'[k'] == q[k] && q'[l'] == q[l]
  {
    hide Without;
    if i: nat :| Foremost(n, q, i) && q' == Without(q, i) {
      TakenFromBefore(n, q, i, k, l);
    } else {
      assert q'[k] == q[k] && q'[l] == q[l];
    }
  }

  lemma Different(s: State, n: Node)
    requires Inv(s)
    ensures forall i: nat, j: nat :: i < j < |s.queues[n]| ==> s.queues[n][i] != s.queues[n][j]
  {
    hide LocalOk, IdsOk, Scoped;
    assert QueueAgrees(s.queues[n], n, s.place);
  }

  /** As long as an earlier message waits at a place, no later one of its type, or at all, has been received there. */
  lemma {:induction false} NoOvertaking(states: seq<State>, acts: seq<Action>, i: nat, m: nat, n: Node,
                                        e: Envelope<Note>, f: Envelope<Note>)
    requires Run(states, acts) && i <= m <= |acts| && !n.Pool? && (Untyped(n) || e.mtype == f.mtype)
    requires Before(states[i], n, e, f) && forall x :: i <= x <= m ==> e in states[x].queues[n]
    ensures Before(states[m], n, e, f)
    decreases m - i
  {
    hide Inv, Apply, Enabled, Queued;
    if i < m {
      var s, s' := states[m - 1], states[m];
      NoOvertaking(states, acts, i, m - 1, n, e, f);
      RunKeepsInv(states, acts, m - 1);
      Different(s, n);
      StepQueues(s, acts[m - 1], n);
      var k: nat, l: nat :| k < l < |s.queues[n]| && s.queues[n][k] == e && s.queues[n][l] == f;
      StaysBehind(n, s.queues[n], s'.queues[n], k, l);
    }
  }
}
