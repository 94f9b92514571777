/**
 src/ipc/queue.cpp and src/ipc/communicationqueue.cpp: a pair of system queues used in
 opposite directions by its two ends.
 */
module CommQueue {
  import opened Bytes
  import opened Messages
  import opened TypedQueue
  import opened Wrappers

  const COMMQUEUE_AS_SERVER: int := 0
  const COMMQUEUE_AS_CLIENT: int := 1

  /** `m` is what a receive of type `t` takes. */
  ghost predicate Removed(pending: seq<Envelope<Message>>, t: int, m: Message, pending': seq<Envelope<Message>>) {
    Channel(pending, t) != [] && m == pending[Oldest(pending, t)].body
    && pending' == Without(pending, Oldest(pending, t))
  }

  /** `m` is put as `send_message` puts it on an end with id `id`. */
  ghost predicate Appended(pending: seq<Envelope<Message>>, id: int, m: Message, pending': seq<Envelope<Message>>) {
    && |pending'| == |pending| + 1 && pending'[..|pending|] == pending
    && pending'[|pending|].mtype == (if id == UNDEFINED_ID then m.messageType else id)
    && var sent := pending'[|pending|].body;
       && sent.(messageType := m.messageType) == m
       && sent.messageType == if m.messageType == TYPE_CONNECTION_CINEMA_REQUEST then m.messageType
                              else pending'[|pending|].mtype
  }

  class SystemQueue {
    var pending: seq<Envelope<Message>>

    constructor ()
      ensures pending == []
    {
      pending := [];
    }

    /** `queue_send`: `msgsnd` refuses a type that is not positive. */
    method Send(t: int, m: Message) returns (ok: bool)
      modifies this
      ensures ok <==> t > 0
      ensures ok ==> Does(old(pending), Put(Envelope(t, m)), pending)
      ensures !ok ==> pending == old(pending)
    {
      ok := t > 0;
      if ok {
        pending := pending + [Envelope(t, m)];
      }
    }

    /** `queue_receive`, once a message it selects is there: the call blocks until then. */
    method Receive(t: int) returns (m: Message)
      requires t >= 0 && if t == 0 then pending != [] else Channel(pending, t) != []
      modifies this
      ensures t == 0 ==> exists u :: old(pending) == [Envelope(u, m)] + pending
      ensures t != 0 ==> Channel(old(pending), t) == [m] + Channel(pending, t)
      ensures t != 0 ==> forall u :: u != t ==> Channel(pending, u) == Channel(old(pending), u)
      ensures exists u :: Does(old(pending), Take(t, Envelope(u, m)), pending)
      ensures t != 0 ==> Removed(old(pending), t, m, pending)
    {
      var i := if t == 0 then 0 else Oldest(pending, t);
      forall u {
        TakeIsDequeue(pending, t, i, u);
      }
      assert t == 0 ==> pending == [Envelope(pending[0].mtype, pending[0].body)] + Without(pending, 0);
      assert pending[i] == Envelope(pending[i].mtype, pending[i].body);
      m := pending[i].body;
      pending := Without(pending, i);
    }
  }

  class Channels {
    const first: SystemQueue
    const second: SystemQueue
    var orientation: int
    var id: int

    /** `create_commqueue` at one end; both ends are given the same two queues. */
    constructor (first: SystemQueue, second: SystemQueue, orientation: int)
      ensures this.first == first && this.second == second
      ensures this.orientation == orientation && id == UNDEFINED_ID
    {
      this.first, this.second := first, second;
      this.orientation, id := orientation, UNDEFINED_ID;
    }

    function Outgoing(): SystemQueue
      reads this
    {
      if orientation == COMMQUEUE_AS_SERVER then first else second
    }

    function Incoming(): SystemQueue
      reads this
    {
      if orientation == COMMQUEUE_AS_SERVER then second else first
    }

    /** `send_message`: the id of the end, if it has one, else the message names the type. */
    method SendMessage(input: Message) returns (ok: bool)
      requires -0x8000_0000 <= id < 0x8000_0000
      modifies Outgoing()
      ensures ok <==> (if id == UNDEFINED_ID then input.messageType else id) > 0
      ensures if ok then Appended(old(Outgoing().pending), id, input, Outgoing().pending)
              else Outgoing().pending == old(Outgoing().pending)
    {
      var queue := if orientation == COMMQUEUE_AS_SERVER then first else second;
      var t: int32 := if id != UNDEFINED_ID then id else input.messageType;
      var message := input;
      if input.messageType != TYPE_CONNECTION_CINEMA_REQUEST {
        message := message.(messageType := t);
      }
      ok := queue.Send(t, message);
    }

    /** `receive_message(channel, m_type)`. */
    method ReceiveTyped(t: int) returns (m: Message)
      requires t >= 0
      requires if t == 0 then Incoming().pending != [] else Channel(Incoming().pending, t) != []
      modifies Incoming()
      ensures t == 0 ==> exists u :: old(Incoming().pending) == [Envelope(u, m)] + Incoming().pending
      ensures t != 0 ==>
        && Removed(old(Incoming().pending), t, m, Incoming().pending)
        && Channel(old(Incoming().pending), t) == [m] + Channel(Incoming().pending, t)
        && forall u :: u != t ==> Channel(Incoming().pending, u) == Channel(old(Incoming().pending), u)
    {
      var queue := if orientation == COMMQUEUE_AS_SERVER then second else first;
      m := queue.Receive(t);
    }

    /** `receive_message(channel)`; the process exits when the end has no id. */
    method Receive() returns (m: Option<Message>)
      requires id >= UNDEFINED_ID
      requires id != UNDEFINED_ID ==> id > 0 && Channel(Incoming().pending, id) != []
      modifies Incoming()
      ensures m == None <==> id == UNDEFINED_ID
      ensures m == None ==> Incoming().pending == old(Incoming().pending)
      ensures m.Some? ==>
        && Removed(old(Incoming().pending), id, m.value, Incoming().pending)
        && Channel(old(Incoming().pending), id) == [m.value] + Channel(Incoming().pending, id)
        && forall u :: u != id ==> Channel(Incoming().pending, u) == Channel(old(Incoming().pending), u)
    {
      if id == UNDEFINED_ID {
        return None;
      }
      var message := ReceiveTyped(id);
      m := Some(message);
    }
  }

  /** What one end sends is what the other end receives, in both directions. */
  lemma EndsMeet(server: Channels, client: Channels)
    requires server.first == client.first && server.second == client.second
    requires server.orientation == COMMQUEUE_AS_SERVER && client.orientation == COMMQUEUE_AS_CLIENT
    ensures server.Outgoing() == client.Incoming() && client.Outgoing() == server.Incoming()
  {
  }
}
