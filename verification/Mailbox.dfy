/**
 The seat updates of one host: slots in shared memory that the MOM's seat listeners overwrite
 (src/middleware/mom.cpp) and the clients' threads poll and mark as read
 (src/middleware/client_interface.cpp). Each access holds the semaphore, so it is one step.
 */
module Mailbox {
  import opened Bytes
  import opened Messages

  /** A slot: whether it holds news, and the seats its count announces. */
  datatype Update = Update(flag: int, seats: seq<Seat>)

  const NO_UPDATE: Update := Update(NOT_SUCCESS, [])
  /** Shared memory nobody has written to yet. */
  const ZEROED: Update := Update(0, [])

  // ----- what happens to one slot -----

  /** A listener starts, a listener passes an update on, a client polls. */
  datatype Event = Started | Posted(seats: seq<Seat>) | Polled

  function After(u: Update, e: Event): Update {
    match e
    case Started => NO_UPDATE
    case Posted(seats) => Update(SUCCESS, seats)
    case Polled => u.(flag := NOT_SUCCESS)
  }

  function Handed(u: Update, e: Event): seq<seq<Seat>> {
    if e.Polled? && u.flag == SUCCESS then [u.seats] else []
  }

  /** The slot after all of `es`, oldest first. */
  function Slot(u: Update, es: seq<Event>): Update {
    if es == [] then u else After(Slot(u, es[..|es| - 1]), es[|es| - 1])
  }

  /** What the callback was given during `es`. */
  function Deliveries(u: Update, es: seq<Event>): seq<seq<Seat>> {
    if es == [] then []
    else Deliveries(u, es[..|es| - 1]) + Handed(Slot(u, es[..|es| - 1]), es[|es| - 1])
  }

  // ----- what a client may expect -----

  function Written(es: seq<Event>): seq<seq<Seat>> {
    if es == [] then []
    else Written(es[..|es| - 1]) + if es[|es| - 1].Posted? then [es[|es| - 1].seats] else []
  }

  /** An update was written since the last poll and the last start of a listener. */
  predicate Fresh(es: seq<Event>) {
    es != [] && es[|es| - 1].Posted?
  }

  /** Which of the updates written a poll picks: the newest, if it is news. */
  function Picks(es: seq<Event>): (picks: seq<nat>)
    ensures forall i :: 0 <= i < |picks| ==> picks[i] < |Written(es)|
  {
    if es == [] then []
    else
      var before := es[..|es| - 1];
      Picks(before) + if es[|es| - 1].Polled? && Fresh(before) then [|Written(before)| - 1] else []
  }

  /** Updates are picked in the order they were written, none twice. */
  lemma {:induction false} PicksInOrder(es: seq<Event>)
    ensures forall i, j :: 0 <= i < j < |Picks(es)| ==> Picks(es)[i] < Picks(es)[j]
    ensures Fresh(es) ==> (|Written(es)| - 1) !in Picks(es)
  {
    if es != [] {
      PicksInOrder(es[..|es| - 1]);
    }
  }

  /** A listener has started over an update nobody had picked, and none was written since. */
  predicate Overwritten(es: seq<Event>) {
    es != [] &&
    var before := es[..|es| - 1];
    match es[|es| - 1]
    case Started => Fresh(before) || Overwritten(before)
    case Posted(_) => false
    case Polled => Overwritten(before)
  }

  /** The newest update has been picked or is still there to be, exactly if no listener has started over it. */
  lemma {:induction false} NewestIsKept(es: seq<Event>)
    requires Written(es) != []
    ensures Fresh(es) || (Picks(es) != [] && Picks(es)[|Picks(es)| - 1] == |Written(es)| - 1) <==> !Overwritten(es)
  {
    PicksInOrder(es);
    var before := es[..|es| - 1];
    if !es[|es| - 1].Posted? {
      NewestIsKept(before);
      PicksInOrder(before);
    }
  }

  /**
   A slot without unread news at first: the callback gets the updates picked, in that order, and the
   slot holds unread news just when an update was written since the last poll.
   */
  lemma {:induction false} SlotRefines(u: Update, es: seq<Event>)
    requires u.flag != SUCCESS
    ensures |Deliveries(u, es)| == |Picks(es)|
    ensures forall i :: 0 <= i < |Picks(es)| ==> Deliveries(u, es)[i] == Written(es)[Picks(es)[i]]
    ensures Slot(u, es).flag == SUCCESS <==> Fresh(es)
    ensures Fresh(es) ==> Slot(u, es).seats == Written(es)[|Written(es)| - 1]
  {
    if es != [] {
      var before := es[..|es| - 1];
      SlotRefines(u, before);
    }
  }

  /**
   Whatever was in the slot: something besides is delivered exactly if it is flagged as news and a poll
   comes before the listener's first write.
   */
  lemma {:induction false} FirstPoll(u: Update, es: seq<Event>)
    ensures var stale := if es != [] && es[0].Polled? && u.flag == SUCCESS then [u.seats] else [];
            Deliveries(u, es) == stale + Deliveries(u.(flag := NOT_SUCCESS), es)
    ensures es != [] ==> Slot(u, es) == Slot(u.(flag := NOT_SUCCESS), es)
  {
    if |es| > 1 {
      FirstPoll(u, es[..|es| - 1]);
    } else if |es| == 1 {
      assert es[..0] == [];
    }
  }

  /** Zeroed memory reads as news: a client that polls before the listener has started gets an empty update. */
  lemma EarlyPoll(es: seq<Event>)
    requires es != [] && es[0].Polled?
    ensures Deliveries(ZEROED, es) == [[]] + Deliveries(NO_UPDATE, es)
  {
    FirstPoll(ZEROED, es);
  }

  // ----- the slots of a host -----

  /** An event at the slot of one client. */
  datatype HostEvent = HostEvent(position: nat, event: Event)

  function Only(es: seq<HostEvent>, position: nat): seq<Event> {
    if es == [] then []
    else Only(es[..|es| - 1], position) + if es[|es| - 1].position == position then [es[|es| - 1].event] else []
  }

  function Happened(slots: seq<Update>, position: nat, event: Event): seq<Update>
    requires position < |slots|
  {
    slots[position := After(slots[position], event)]
  }

  function Slots(slots: seq<Update>, es: seq<HostEvent>): (r: seq<Update>)
    requires forall e :: e in es ==> e.position < |slots|
    ensures |r| == |slots|
  {
    if es == [] then slots
    else
      var e := es[|es| - 1];
      Happened(Slots(slots, es[..|es| - 1]), e.position, e.event)
  }

  /** What happens at other slots is no matter to this one. */
  lemma {:induction false} SlotsAreSeparate(slots: seq<Update>, es: seq<HostEvent>, position: nat)
    requires (forall e :: e in es ==> e.position < |slots|) && position < |slots|
    ensures Slots(slots, es)[position] == Slot(slots[position], Only(es, position))
  {
    if es != [] {
      var before, e := es[..|es| - 1], es[|es| - 1];
      SlotsAreSeparate(slots, before, position);
      if e.position == position {
        var mine := Only(es, position);
        assert mine[..|mine| - 1] == Only(before, position) && mine[|mine| - 1] == e.event;
      } else {
        assert Only(es, position) == Only(before, position);
      }
    }
  }

  function SeatsIn(ids: seq<int32>, statuses: seq<byte>): seq<Seat>
    requires |ids| == |statuses|
  {
    seq(|ids|, i requires 0 <= i < |ids| => Seat(ids[i], 0, statuses[i]))
  }

  function PostOf(m: Message): seq<Event>
    requires WellFormed(m)
  {
    if m.choice == CHOICE_SEATS_RESPONSE then [Posted(SeatsIn(m.payload.seatIds, m.payload.statuses))] else []
  }

  /** The updates in what a listener receives. */
  function Posts(messages: seq<Message>): seq<Event>
    requires forall m :: m in messages ==> WellFormed(m)
  {
    if messages == [] then []
    else
      var m := messages[|messages| - 1];
      assert m in messages;
      Posts(messages[..|messages| - 1]) + PostOf(m)
  }

  /** The slot once a listener has started over it and received the messages. */
  function Listened(u: Update, messages: seq<Message>): Update
    requires forall m :: m in messages ==> WellFormed(m)
  {
    Slot(u, [Started] + Posts(messages))
  }

  lemma ListenedFirst(u: Update)
    ensures Listened(u, []) == After(u, Started)
  {
    SlotSnoc(u, [], Started);
    assert [] + [Started] == [Started] + Posts([]);
  }

  /** A listener that has started and received all but the last of the messages receives that one. */
  lemma ReceivesOneMore(u: Update, messages: seq<Message>)
    requires messages != [] && forall m :: m in messages ==> WellFormed(m)
    ensures var m := messages[|messages| - 1];
            Listened(u, messages) ==
            var before := Listened(u, messages[..|messages| - 1]);
            if m.choice == CHOICE_SEATS_RESPONSE then After(before, PostOf(m)[0]) else before
  {
    var m := messages[|messages| - 1];
    var es := [Started] + Posts(messages[..|messages| - 1]);
    assert [Started] + Posts(messages) == es + PostOf(m);
    if m.choice == CHOICE_SEATS_RESPONSE {
      SlotSnoc(u, es, PostOf(m)[0]);
    } else {
      assert es + [] == es;
    }
  }

  lemma SlotSnoc(u: Update, es: seq<Event>, e: Event)
    ensures Slot(u, es + [e]) == After(Slot(u, es), e)
  {
    assert (es + [e])[..|es|] == es;
  }

  /** The seats of a seat map, one by one; their room is not filled in. */
  ghost predicate ShowsMap(seats: seq<Seat>, p: Payload) {
    && p.SeatMap? && |seats| == |p.seatIds| == |p.statuses|
    && forall i :: 0 <= i < |seats| ==>
         seats[i].id == p.seatIds[i] && seats[i].status == p.statuses[i] && seats[i].roomId == 0
  }

  lemma PostShows(m: Message)
    requires WellFormed(m) && m.choice == CHOICE_SEATS_RESPONSE
    ensures After(NO_UPDATE, PostOf(m)[0]).flag == SUCCESS
    ensures forall u :: After(u, PostOf(m)[0]) == After(NO_UPDATE, PostOf(m)[0])
    ensures ShowsMap(After(NO_UPDATE, PostOf(m)[0]).seats, m.payload)
  {
  }

  /** The last seat map among the messages is at index `k`. */
  predicate LastMap(messages: seq<Message>, k: int) {
    && 0 <= k < |messages| && messages[k].choice == CHOICE_SEATS_RESPONSE
    && forall j :: k < j < |messages| ==> messages[j].choice != CHOICE_SEATS_RESPONSE
  }

  lemma {:induction false} NoMapYet(u: Update, messages: seq<Message>)
    requires forall m :: m in messages ==> WellFormed(m) && m.choice != CHOICE_SEATS_RESPONSE
    ensures Listened(u, messages) == NO_UPDATE
  {
    if messages == [] {
      ListenedFirst(u);
    } else {
      hide Listened;
      var n := |messages| - 1;
      assert messages[n] in messages;
      NoMapYet(u, messages[..n]);
      ReceivesOneMore(u, messages);
    }
  }

  lemma {:induction false} ShowsLastMap(u: Update, messages: seq<Message>, k: nat)
    requires forall m :: m in messages ==> WellFormed(m)
    requires LastMap(messages, k)
    ensures var now := Listened(u, messages);
            now.flag == SUCCESS && ShowsMap(now.seats, messages[k].payload)
  {
    hide Listened, ShowsMap, After, PostOf;
    var n := |messages| - 1;
    assert messages[n] in messages;
    ReceivesOneMore(u, messages);
    if k < n {
      ShowsLastMap(u, messages[..n], k);
    } else {
      PostShows(messages[n]);
    }
  }

  /** What a listener leaves in its slot: the last seat map it has received, or no update. */
  ghost predicate LeavesLast(now: Update, messages: seq<Message>) {
    && ((forall m :: m in messages ==> m.choice != CHOICE_SEATS_RESPONSE) ==> now == NO_UPDATE)
    && forall k :: LastMap(messages, k) ==> now.flag == SUCCESS && ShowsMap(now.seats, messages[k].payload)
  }

  lemma ListenerLeaves(u: Update, messages: seq<Message>)
    requires forall m :: m in messages ==> WellFormed(m)
    ensures LeavesLast(Listened(u, messages), messages)
  {
    hide Listened, ShowsMap;
    if forall m :: m in messages ==> m.choice != CHOICE_SEATS_RESPONSE {
      NoMapYet(u, messages);
    }
    forall k: nat | LastMap(messages, k)
      ensures var now := Listened(u, messages);
              now.flag == SUCCESS && ShowsMap(now.seats, messages[k].payload)
    {
      ShowsLastMap(u, messages, k);
    }
  }

  // ----- from the messages of the admin to the callback -----

  /** What happens around a client's slot: its listener starts or receives a message, the client looks. */
  datatype Happening = Begins | Receives(message: Message) | Looks

  predicate Sane(hs: seq<Happening>) {
    forall i :: 0 <= i < |hs| && hs[i].Receives? ==> WellFormed(hs[i].message)
  }

  function EventOf(h: Happening): seq<Event>
    requires h.Receives? ==> WellFormed(h.message)
  {
    match h
    case Begins => [Started]
    case Receives(m) => PostOf(m)
    case Looks => [Polled]
  }

  function EventsOf(hs: seq<Happening>): seq<Event>
    requires Sane(hs)
  {
    if hs == [] then [] else EventsOf(hs[..|hs| - 1]) + EventOf(hs[|hs| - 1])
  }

  predicate IsUpdate(h: Happening) {
    h.Receives? && h.message.choice == CHOICE_SEATS_RESPONSE
  }

  /** The update at `i` is the last one and nothing but idle messages has come since. */
  predicate Unread(hs: seq<Happening>, i: int) {
    && 0 <= i < |hs| && IsUpdate(hs[i])
    && forall j :: i < j < |hs| ==> hs[j].Receives? && !IsUpdate(hs[j])
  }

  lemma HappensNext(u: Update, hs: seq<Happening>)
    requires hs != [] && Sane(hs)
    ensures var before, h := Slot(u, EventsOf(hs[..|hs| - 1])), hs[|hs| - 1];
            Slot(u, EventsOf(hs)) == if EventOf(h) == [] then before else After(before, EventOf(h)[0])
  {
    var es, last := EventsOf(hs[..|hs| - 1]), EventOf(hs[|hs| - 1]);
    if last == [] {
      assert es + last == es;
    } else {
      SlotSnoc(u, es, last[0]);
      assert last == [last[0]];
    }
  }

  lemma {:induction false} SlotShowsLast(u: Update, hs: seq<Happening>, i: nat)
    requires Sane(hs) && Unread(hs, i)
    ensures var now := Slot(u, EventsOf(hs)); now.flag == SUCCESS && ShowsMap(now.seats, hs[i].message.payload)
  {
    hide Slot, EventsOf, ShowsMap, After;
    HappensNext(u, hs);
    if i < |hs| - 1 {
      SlotShowsLast(u, hs[..|hs| - 1], i);
    } else {
      PostShows(hs[i].message);
    }
  }

  lemma UnreadStays(hs: seq<Happening>, i: nat)
    requires hs != [] && Unread(hs[..|hs| - 1], i) && hs[|hs| - 1].Receives? && !IsUpdate(hs[|hs| - 1])
    ensures Unread(hs, i)
  {
    forall j | i < j < |hs| ensures hs[j].Receives? && !IsUpdate(hs[j]) {
      assert j < |hs| - 1 ==> hs[j] == hs[..|hs| - 1][j];
    }
  }

  lemma NewsByUpdate(before: Update, h: Happening)
    requires h.Receives? ==> WellFormed(h.message)
    requires var es := EventOf(h); (if es == [] then before else After(before, es[0])).flag == SUCCESS
    ensures IsUpdate(h) || (h.Receives? && before.flag == SUCCESS)
  {
  }

  lemma {:induction false} FindUnread(u: Update, hs: seq<Happening>) returns (i: nat)
    requires Sane(hs) && u.flag != SUCCESS && Slot(u, EventsOf(hs)).flag == SUCCESS
    ensures Unread(hs, i)
  {
    if hs == [] {
      assert false;
    } else {
      var n := |hs| - 1;
      hide Slot, EventsOf, EventOf, After, WellFormed, Unread;
      HappensNext(u, hs);
      NewsByUpdate(Slot(u, EventsOf(hs[..n])), hs[n]);
      if IsUpdate(hs[n]) {
        i := n;
        LastIsUnread(hs);
      } else {
        i := FindUnread(u, hs[..n]);
        UnreadStays(hs, i);
      }
    }
  }

  lemma LastIsUnread(hs: seq<Happening>)
    requires hs != [] && IsUpdate(hs[|hs| - 1])
    ensures Unread(hs, |hs| - 1)
  {
  }

  /**
   From the admin's message to the client's callback: a look hands over the last update received since the
   last look and the last start of a listener, seat for seat, and nothing if there is none.
   */
  lemma LookHandsLast(u: Update, hs: seq<Happening>)
    requires Sane(hs) && u.flag != SUCCESS
    ensures var handed := Handed(Slot(u, EventsOf(hs)), Polled);
            && ((forall i :: !Unread(hs, i)) ==> handed == [])
            && forall i :: Unread(hs, i) ==> |handed| == 1 && ShowsMap(handed[0], hs[i].message.payload)
  {
    hide Slot, EventsOf, ShowsMap;
    if Slot(u, EventsOf(hs)).flag == SUCCESS {
      var i := FindUnread(u, hs);
    }
    forall i | Unread(hs, i)
      ensures var now := Slot(u, EventsOf(hs)); now.flag == SUCCESS && ShowsMap(now.seats, hs[i].message.payload)
    {
      SlotShowsLast(u, hs, i);
    }
  }

  class SharedMemory {
    const slots: array<Update>

    ghost predicate Valid() {
      slots.Length == MAX_CLIENTS_HOST
    }

    method Write(position: nat, update: Update)
      requires Valid() && position < MAX_CLIENTS_HOST
      modifies slots
      ensures slots[..] == old(slots[..])[position := update]
    {
      slots[position] := update;
    }

    /** The seat listener of a client starts. */
    method StartListener(position: nat)
      requires Valid() && position < MAX_CLIENTS_HOST
      modifies slots
      ensures slots[..] == Happened(old(slots[..]), position, Started)
    {
      Write(position, NO_UPDATE);
    }

    /** One turn of the seat listener's loop. */
    method Listen(position: nat, message: Message) returns (close: bool)
      requires Valid() && position < MAX_CLIENTS_HOST && WellFormed(message)
      modifies slots
      ensures slots[..] == if message.choice == CHOICE_SEATS_RESPONSE
                           then Happened(old(slots[..]), position, PostOf(message)[0])
                           else old(slots[..])
      ensures message.choice == CHOICE_SEATS_RESPONSE ==>
        slots[position].flag == SUCCESS && ShowsMap(slots[position].seats, message.payload)
      ensures close <==> message.choice == CHOICE_EXIT
    {
      close := false;
      if message.choice == CHOICE_SEATS_RESPONSE {
        var p := message.payload;
        var seats: seq<Seat> := [];
        var i := 0;
        while i < |p.seatIds|
          invariant 0 <= i <= |p.seatIds| && seats == SeatsIn(p.seatIds, p.statuses)[..i]
        {
          seats := seats + [Seat(p.seatIds[i], 0, p.statuses[i])];
          i := i + 1;
        }
        assert seats == SeatsIn(p.seatIds, p.statuses);
        Write(position, Update(SUCCESS, seats));
      } else if message.choice == CHOICE_EXIT {
        close := true;
      }
    }

    /**
     The seat listener of a client, from its start until it is closed or has received all of `messages`: it
     passes on the updates before the first EXIT, and receives nothing after that.
     */
    method RunListener(position: nat, messages: seq<Message>) returns (received: nat, closed: bool)
      requires Valid() && position < MAX_CLIENTS_HOST && forall m :: m in messages ==> WellFormed(m)
      modifies slots
      ensures received <= |messages| && (!closed ==> received == |messages|)
      ensures forall k :: 0 <= k < received ==>
                (messages[k].choice == CHOICE_EXIT <==> closed && k == received - 1)
      ensures closed ==> received > 0
      ensures var was := old(slots[position]);
              slots[..] == old(slots[..])[position := Listened(was, messages[..received])]
      ensures LeavesLast(slots[position], messages[..received])
    {
      hide Listened, LeavesLast, After, PostOf;
      ghost var was := slots[position];
      StartListener(position);
      received, closed := 0, false;
      ListenedFirst(was);
      while !closed && received < |messages|
        invariant received <= |messages| && (closed ==> received > 0)
        invariant forall k :: 0 <= k < received ==>
                    (messages[k].choice == CHOICE_EXIT <==> closed && k == received - 1)
        invariant slots[..] == old(slots[..])[position := Listened(was, messages[..received])]
      {
        closed := Listen(position, messages[received]);
        received := received + 1;
        assert messages[..received][..received - 1] == messages[..received - 1];
        ReceivesOneMore(was, messages[..received]);
      }
      ListenerLeaves(was, messages[..received]);
    }

    /** One turn of the client's poll, with what the callback is given; `goOn` is whether it polls again. */
    method Poll(position: nat) returns (handed: seq<seq<Seat>>, goOn: bool)
      requires Valid() && position < MAX_CLIENTS_HOST
      modifies slots
      ensures slots[..] == Happened(old(slots[..]), position, Polled)
      ensures handed == if old(slots[position].flag) == SUCCESS then [old(slots[position].seats)] else []
      ensures slots[position].flag == NOT_SUCCESS && slots[position].seats == old(slots[position].seats)
      ensures goOn <==> old(slots[position]).flag in {SUCCESS, NOT_SUCCESS}
    {
      var update := slots[position];
      slots[position] := update.(flag := NOT_SUCCESS);
      handed := [];
      if update.flag == SUCCESS {
        var seats: seq<Seat> := [];
        for i := 0 to |update.seats|
          invariant seats == update.seats[..i]
        {
          seats := seats + [update.seats[i]];
        }
        assert seats == update.seats;
        handed := [seats];
      }
      goOn := update.flag == SUCCESS || update.flag == NOT_SUCCESS;
    }
  }
}
