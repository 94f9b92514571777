/**
 One direction of a socket while sender and receiver run side by side: `send` and `recv` move
 any positive number of bytes at a time, on each side at its own pace, and neither side marks
 where a message ends (src/network/socket.cpp).
 */
module Framing {
  import opened Bytes
  import opened Messages
  import opened Codec

  /**
   `sent` are the frames whose sending has begun and `pending` what is left of the last one;
   `partial` is the frame being received and `got` are the ones received before it.
   */
  datatype Link = Link(sent: seq<seq<byte>>, pending: seq<byte>, wire: seq<byte>,
                       partial: seq<byte>, got: seq<seq<byte>>)

  const FRESH_LINK := Link([], [], [], [], [])

  datatype Move =
    | Begin(frame: seq<byte>)  // send_packet starts with the next serialised buffer
    | Push(n: nat)             // send takes n bytes
    | Pull(k: nat)             // recv returns k bytes

  predicate Enabled(l: Link, m: Move) {
    match m
    case Begin(frame) => l.pending == [] && |frame| == FRAME_SIZE
    case Push(n) => 1 <= n <= |l.pending|
    case Pull(k) => 1 <= k <= |l.wire| && k <= FRAME_SIZE - |l.partial|
  }

  function Apply(l: Link, m: Move): Link
    requires Enabled(l, m)
  {
    match m
    case Begin(frame) => l.(sent := l.sent + [frame], pending := frame)
    case Push(n) => l.(wire := l.wire + l.pending[..n], pending := l.pending[n..])
    case Pull(k) =>
      var partial := l.partial + l.wire[..k];
      // receive_packet returns once it has a full frame
      if |partial| == FRAME_SIZE then
        l.(wire := l.wire[k..], partial := [], got := l.got + [partial])
      else
        l.(wire := l.wire[k..], partial := partial)
  }

  /** `run` is a possible course of events from `l`, ending in `Last(l, run)`. */
  predicate Possible(l: Link, run: seq<Move>)
    decreases |run|
  {
    run == [] || (Enabled(l, run[0]) && Possible(Apply(l, run[0]), run[1..]))
  }

  function Last(l: Link, run: seq<Move>): Link
    requires Possible(l, run)
    decreases |run|
  {
    if run == [] then l else Last(Apply(l, run[0]), run[1..])
  }

  function Flat(frames: seq<seq<byte>>): seq<byte> {
    if frames == [] then [] else Flat(frames[..|frames| - 1]) + frames[|frames| - 1]
  }

  predicate Framed(frames: seq<seq<byte>>) {
    forall i :: 0 <= i < |frames| ==> |frames[i]| == FRAME_SIZE
  }

  /** No byte is lost, doubled or moved: received, travelling and unsent add up to what is sent. */
  predicate Intact(l: Link) {
    && Framed(l.sent) && Framed(l.got) && |l.partial| < FRAME_SIZE
    && |l.pending| <= FRAME_SIZE
    && Flat(l.got) + l.partial + l.wire + l.pending == Flat(l.sent)
  }

  lemma FlatSnoc(frames: seq<seq<byte>>, f: seq<byte>)
    ensures Flat(frames + [f]) == Flat(frames) + f
  {
    assert (frames + [f])[..|frames|] == frames;
  }

  lemma PushKeepsIntact(l: Link, n: nat)
    requires Intact(l) && Enabled(l, Push(n))
    ensures Intact(Apply(l, Push(n)))
  {
    hide Flat;
    assert l.pending == l.pending[..n] + l.pending[n..];
    var front := Flat(l.got) + l.partial;
    assert front + (l.wire + l.pending[..n]) + l.pending[n..] == front + l.wire + l.pending;
  }

  lemma PullKeepsIntact(l: Link, k: nat)
    requires Intact(l) && Enabled(l, Pull(k))
    ensures Intact(Apply(l, Pull(k)))
  {
    hide Flat;
    var partial := l.partial + l.wire[..k];
    assert l.wire == l.wire[..k] + l.wire[k..];
    assert Flat(l.got) + partial + l.wire[k..] == Flat(l.got) + l.partial + l.wire;
    if |partial| == FRAME_SIZE {
      FlatSnoc(l.got, partial);
      assert Flat(l.got) + partial + [] + l.wire[k..] == Flat(l.got) + partial + l.wire[k..];
    }
  }

  lemma ApplyKeepsIntact(l: Link, m: Move)
    requires Intact(l) && Enabled(l, m)
    ensures Intact(Apply(l, m))
  {
    hide Flat;
    match m
    case Begin(frame) =>
      FlatSnoc(l.sent, frame);
      assert Flat(l.got) + l.partial + l.wire + [] == Flat(l.sent);
    case Push(n) => PushKeepsIntact(l, n);
    case Pull(k) => PullKeepsIntact(l, k);
  }

  lemma {:induction false} RunKeepsIntact(l: Link, run: seq<Move>)
    requires Intact(l) && Possible(l, run)
    ensures Intact(Last(l, run))
    decreases |run|
  {
    if run != [] {
      ApplyKeepsIntact(l, run[0]);
      RunKeepsIntact(Apply(l, run[0]), run[1..]);
    }
  }

  lemma {:induction false} FlatLength(frames: seq<seq<byte>>)
    requires Framed(frames)
    ensures |Flat(frames)| == FRAME_SIZE * |frames|
  {
    if frames != [] {
      FlatLength(frames[..|frames| - 1]);
    }
  }

  /** The `i`-th stretch of FRAME_SIZE bytes is the `i`-th frame. */
  lemma {:induction false} FlatAt(frames: seq<seq<byte>>, i: nat)
    requires Framed(frames) && i < |frames|
    ensures FRAME_SIZE * (i + 1) <= |Flat(frames)|
    ensures Flat(frames)[FRAME_SIZE * i..FRAME_SIZE * (i + 1)] == frames[i]
  {
    var n := |frames| - 1;
    var front := Flat(frames[..n]);
    FlatLength(frames[..n]);
    assert Flat(frames) == front + frames[n];
    if i < n {
      FlatAt(frames[..n], i);
      assert Flat(frames)[FRAME_SIZE * i..FRAME_SIZE * (i + 1)] == front[FRAME_SIZE * i..FRAME_SIZE * (i + 1)];
    }
  }

  /** Frames of one length can be cut out of their concatenation in one way only. */
  lemma FlatPrefix(a: seq<seq<byte>>, rest: seq<byte>, b: seq<seq<byte>>)
    requires Framed(a) && Framed(b) && Flat(a) + rest == Flat(b)
    ensures a <= b
  {
    FlatLength(a);
    FlatLength(b);
    forall i | 0 <= i < |a| ensures a[i] == b[i] {
      FlatAt(a, i);
      FlatAt(b, i);
      assert Flat(b)[FRAME_SIZE * i..FRAME_SIZE * (i + 1)] == Flat(a)[FRAME_SIZE * i..FRAME_SIZE * (i + 1)];
    }
  }

  /**
   Whatever sizes `send` and `recv` choose, the frames received are the first of those sent, in
   order and unshifted; when nothing is under way they are all of them.
   */
  lemma FramesArriveInOrder(run: seq<Move>)
    requires Possible(FRESH_LINK, run)
    ensures var l := Last(FRESH_LINK, run);
            l.got <= l.sent && (l.pending == [] && l.wire == [] ==> l.got == l.sent && l.partial == [])
  {
    RunKeepsIntact(FRESH_LINK, run);
    var l := Last(FRESH_LINK, run);
    assert Flat(l.got) + (l.partial + l.wire + l.pending) == Flat(l.sent);
    FlatPrefix(l.got, l.partial + l.wire + l.pending, l.sent);
    FlatLength(l.got);
    FlatLength(l.sent);
  }

  /** If the frames sent carry messages, the receiver reads those messages, as far as it has got. */
  lemma MessagesArriveInOrder(run: seq<Move>, sender: Host, receiver: Host, messages: seq<Message>)
    requires Possible(FRESH_LINK, run)
    requires var l := Last(FRESH_LINK, run);
             |l.sent| == |messages|
             && forall i :: 0 <= i < |messages| ==>
                  WellFormed(messages[i]) && Carries(sender, l.sent[i], messages[i])
    ensures var l := Last(FRESH_LINK, run);
            |l.got| <= |messages|
            && forall i :: 0 <= i < |l.got| ==>
                 && Readable(receiver, l.got[i])
                 && Decode(receiver, l.got[i]) == Delivered(sender, receiver, messages[i])
  {
    hide Readable, Decode, Carries, WellFormed, Delivered;
    FramesArriveInOrder(run);
    var l := Last(FRESH_LINK, run);
    forall i | 0 <= i < |l.got|
      ensures Readable(receiver, l.got[i])
      ensures Decode(receiver, l.got[i]) == Delivered(sender, receiver, messages[i])
    {
      assert l.got[i] == l.sent[i];
      RoundTrip(sender, receiver, messages[i], l.sent[i]);
    }
  }

  /** The bytes still to be moved before the receiver has every frame whose sending has begun. */
  function Outstanding(l: Link): nat {
    2 * |l.pending| + |l.wire|
  }

  /** Both loops come to an end: every `send` and every `recv` leaves less to do. */
  lemma LoopsEnd(l: Link, m: Move)
    requires Enabled(l, m) && !m.Begin?
    ensures Outstanding(Apply(l, m)) < Outstanding(l)
  {
  }

  /** While bytes are outstanding, one of the two sides can go on. */
  lemma NoStall(l: Link)
    requires Intact(l) && Outstanding(l) > 0
    ensures Enabled(l, Push(1)) || Enabled(l, Pull(1))
  {
  }
}
