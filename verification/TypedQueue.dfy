/**
 The System V queue behind src/ipc/queue.cpp, as a value: messages in the order they were
 sent, each with a positive type. A receive asks for the oldest message of one type, or with
 type 0 for the oldest of all.
 */
module TypedQueue {

  datatype Envelope<+T> = Envelope(mtype: int, body: T)

  /** The bodies of the messages of type `t`, oldest first. */
  function Channel<T>(q: seq<Envelope<T>>, t: int): seq<T> {
    if q == [] then []
    else
      var n := |q| - 1;
      Channel(q[..n], t) + if q[n].mtype == t then [q[n].body] else []
  }

  /** `msgrcv` with selector `sel` takes the message at `i`. */
  predicate Selects<T>(q: seq<Envelope<T>>, sel: int, i: nat) {
    && i < |q|
    && (sel == 0 ==> i == 0)
    && (sel != 0 ==> q[i].mtype == sel && forall j :: 0 <= j < i ==> q[j].mtype != sel)
  }

  function Without<T>(s: seq<T>, i: nat): (r: seq<T>)
    requires i < |s|
    ensures |r| == |s| - 1
  {
    s[..i] + s[i + 1..]
  }

  /** The index of the oldest message of type `t`. */
  function Oldest<T>(q: seq<Envelope<T>>, t: int): (i: nat)
    requires Channel(q, t) != []
    ensures Selects(q, t, i) || t == 0
    ensures i < |q| && q[i].mtype == t && forall j :: 0 <= j < i ==> q[j].mtype != t
    decreases |q|
  {
    var n := |q| - 1;
    if Channel(q[..n], t) != [] then Oldest(q[..n], t)
    else
      NotInEmptyChannel(q[..n], t);
      n
  }

  lemma {:induction false} NotInEmptyChannel<T>(q: seq<Envelope<T>>, t: int)
    requires Channel(q, t) == []
    ensures forall j :: 0 <= j < |q| ==> q[j].mtype != t
  {
    if q != [] {
      NotInEmptyChannel(q[..|q| - 1], t);
    }
  }

  lemma {:induction false} InNonEmptyChannel<T>(q: seq<Envelope<T>>, j: nat)
    requires j < |q|
    ensures q[j].body in Channel(q, q[j].mtype)
  {
    if j < |q| - 1 {
      InNonEmptyChannel(q[..|q| - 1], j);
    }
  }

  lemma {:induction false} ChannelOfSum<T>(a: seq<Envelope<T>>, b: seq<Envelope<T>>, t: int)
    ensures Channel(a + b, t) == Channel(a, t) + Channel(b, t)
  {
    if b == [] {
      assert a + b == a;
    } else {
      var n := |b| - 1;
      ChannelOfSum(a, b[..n], t);
      assert (a + b)[..|a + b| - 1] == a + b[..n];
    }
  }

  /** Taking a message takes the head of the channel of its type and leaves the others alone. */
  lemma TakeIsDequeue<T>(q: seq<Envelope<T>>, sel: int, i: nat, t: int)
    requires Selects(q, sel, i)
    ensures t != q[i].mtype ==> Channel(Without(q, i), t) == Channel(q, t)
    ensures t == q[i].mtype ==> Channel(q, t) == [q[i].body] + Channel(Without(q, i), t)
  {
    assert q == q[..i] + ([q[i]] + q[i + 1..]);
    ChannelOfSum(q[..i], [q[i]] + q[i + 1..], t);
    ChannelOfSum([q[i]], q[i + 1..], t);
    ChannelOfSum(q[..i], q[i + 1..], t);
    if t == q[i].mtype {
      NothingBefore(q[..i], t);
    }
  }

  lemma {:induction false} NothingBefore<T>(q: seq<Envelope<T>>, t: int)
    requires forall j :: 0 <= j < |q| ==> q[j].mtype != t
    ensures Channel(q, t) == []
  {
    if q != [] {
      NothingBefore(q[..|q| - 1], t);
    }
  }

  // ----- whole histories -----

  datatype Op<+T> =
    | Put(env: Envelope<T>)
    | Take(sel: int, env: Envelope<T>)

  /** `op` can happen on `q` and leaves `q'`. */
  ghost predicate Does<T>(q: seq<Envelope<T>>, op: Op<T>, q': seq<Envelope<T>>) {
    match op
    case Put(env) => env.mtype > 0 && q' == q + [env]
    case Take(sel, env) => exists i: nat :: Selects(q, sel, i) && q[i] == env && q' == Without(q, i)
  }

  /** A history of operations with the queue before and after each. */
  ghost predicate History<T>(states: seq<seq<Envelope<T>>>, ops: seq<Op<T>>) {
    && |states| == |ops| + 1 && states[0] == []
    && forall k :: 0 <= k < |ops| ==> Does(states[k], ops[k], states[k + 1])
  }

  function Puts<T>(op: Op<T>): seq<Envelope<T>> {
    if op.Put? then [op.env] else []
  }

  function Takes<T>(op: Op<T>): seq<Envelope<T>> {
    if op.Take? then [op.env] else []
  }

  function Sent<T>(ops: seq<Op<T>>): seq<Envelope<T>> {
    if ops == [] then [] else Sent(ops[..|ops| - 1]) + Puts(ops[|ops| - 1])
  }

  function Received<T>(ops: seq<Op<T>>): seq<Envelope<T>> {
    if ops == [] then [] else Received(ops[..|ops| - 1]) + Takes(ops[|ops| - 1])
  }

  lemma ChannelSnoc<T>(q: seq<Envelope<T>>, env: Envelope<T>, t: int)
    ensures Channel(q + [env], t) == Channel(q, t) + if env.mtype == t then [env.body] else []
  {
    assert (q + [env])[..|q|] == q;
  }

  lemma OpIsFifo<T>(sent: seq<Envelope<T>>, received: seq<Envelope<T>>, q: seq<Envelope<T>>,
                    op: Op<T>, q': seq<Envelope<T>>, t: int)
    requires Channel(sent, t) == Channel(received, t) + Channel(q, t) && Does(q, op, q')
    ensures Channel(sent + Puts(op), t) == Channel(received + Takes(op), t) + Channel(q', t)
  {
    hide Channel;
    match op
    case Put(env) =>
      ChannelSnoc(sent, env, t);
      ChannelSnoc(q, env, t);
      assert received + Takes(op) == received;
    case Take(sel, env) =>
      var i: nat :| Selects(q, sel, i) && q[i] == env && q' == Without(q, i);
      TakeIsDequeue(q, sel, i, t);
      ChannelSnoc(received, env, t);
      assert sent + Puts(op) == sent;
  }

  /**
   However types and selectors are mixed, the messages of one type are received in the order
   they were sent, each once, and what has not been received is still in the queue.
   */
  lemma {:induction false} EachTypeIsFifo<T>(states: seq<seq<Envelope<T>>>, ops: seq<Op<T>>, t: int)
    requires History(states, ops)
    ensures Channel(Sent(ops), t) == Channel(Received(ops), t) + Channel(states[|ops|], t)
    decreases |ops|
  {
    if ops != [] {
      hide Channel, Does;
      var n := |ops| - 1;
      EachTypeIsFifo(states[..n + 1], ops[..n], t);
      assert Does(states[n], ops[n], states[n + 1]);
      OpIsFifo(Sent(ops[..n]), Received(ops[..n]), states[n], ops[n], states[n + 1], t);
    }
  }

  lemma UntypedOpIsFifo<T>(q: seq<Envelope<T>>, op: Op<T>, q': seq<Envelope<T>>)
    requires Does(q, op, q') && (op.Take? ==> op.sel == 0)
    ensures q + Puts(op) == Takes(op) + q'
  {
    if op.Take? {
      assert q == [q[0]] + q[1..];
    }
  }

  /** A reader that always asks for type 0 receives everything in the order it was sent. */
  lemma {:induction false} UntypedIsFifo<T>(states: seq<seq<Envelope<T>>>, ops: seq<Op<T>>)
    requires History(states, ops)
    requires forall k :: 0 <= k < |ops| && ops[k].Take? ==> ops[k].sel == 0
    ensures Sent(ops) == Received(ops) + states[|ops|]
    decreases |ops|
  {
    if ops != [] {
      hide Does;
      var n := |ops| - 1;
      var before, op, after := states[n], ops[n], states[n + 1];
      UntypedIsFifo(states[..n + 1], ops[..n]);
      assert Does(before, op, after);
      UntypedOpIsFifo(before, op, after);
      assert Received(ops[..n]) + before + Puts(op) == Received(ops[..n]) + (before + Puts(op));
    }
  }
}
