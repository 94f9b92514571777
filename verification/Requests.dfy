/**
 The messages behind requests and replies: what a call of src/middleware/client_interface.cpp sends, what the
 switch of src/admin/admin.cpp reads from it, what the admin answers, and what the call makes of the answer.
 */
module Requests {
  import opened Bytes
  import opened Messages
  import opened Codec
  import opened Ledger
  import opened Handlers
  import opened SessionCalls

  predicate Fits(x: int) {
    -0x8000_0000 <= x < 0x8000_0000
  }

  /** The numbers of a call are C integers, and its list fits the message. */
  predicate CallFits(call: Call, list: seq<Place>) {
    && (call.GetSeats? ==> Fits(call.room)) && (call.ReserveSeat? ==> Fits(call.seat.id))
    && |list| <= MAX_LENGTH_STRING && forall i :: 0 <= i < |list| ==> Fits(list[i].room) && Fits(list[i].seat)
  }

  // ----- requests -----

  /** `init_mom`: the request to join, and `login`: the one for a cinema id. */
  function JoinMessage(token: int32): (m: Message)
    ensures WellFormed(m)
  {
    Message(TYPE_CONNECTION_MOM_REQUEST, 0, 0, Identity(token))
  }

  function LoginMessage(token: int32): (m: Message)
    ensures WellFormed(m)
  {
    Message(TYPE_CONNECTION_CINEMA_REQUEST, 0, CHOICE_CONNECTION_REQUEST, Identity(token))
  }

  /** What a call sends; only a payment names its sender. */
  function MessageOf(call: Call, list: seq<Place>, cinemaId: int32): (m: Message)
    requires CallFits(call, list)
    ensures WellFormed(m)
  {
    match call
    case GetRooms => Message(0, 0, CHOICE_ROOMS_REQUEST, NoPayload)
    case GetSeats(room, _) => Message(0, 0, CHOICE_SEATS_REQUEST, RoomChoice(room))
    case ReserveSeat(seat, _) => Message(0, 0, CHOICE_SEAT_SELECT_REQUEST, SeatChoice(seat.id))
    case PaySeats(_) =>
      var reservations := seq(|list|, i requires 0 <= i < |list| => Reservation(list[i].room, list[i].seat));
      Message(0, cinemaId, CHOICE_PAY_RESERVATION_REQUEST, Payment(|list|, reservations))
    case EndMom => Message(0, 0, CHOICE_EXIT, Identity(0))
  }

  /** The switch of `admin_handle_request`. */
  function RequestIn(m: Message): Request
    requires WellFormed(m)
  {
    if m.choice == CHOICE_PAY_RESERVATION_REQUEST then
      var list := m.payload.list;
      Pay(seq(|list|, i requires 0 <= i < |list| => Place(list[i].room, list[i].seatNum)))
    else if m.choice == CHOICE_EXIT then Exit
    else if m.choice == CHOICE_CONNECTION_ACCEPTED then Register
    else if m.choice == CHOICE_ROOMS_REQUEST then Rooms
    else if m.choice == CHOICE_SEATS_REQUEST then ViewSeats(m.payload.roomId)
    else if m.choice == CHOICE_SEAT_SELECT_REQUEST then Select(m.payload.seatId)
    else Unknown
  }

  /**
   Whatever type and sender it is given on its way, and across the wire between any two hosts, the message of
   a call is read by the admin as the request of that call.
   */
  lemma RequestArrives(call: Call, list: seq<Place>, cinemaId: int32, t: int32, sender: Host, frame: seq<byte>,
                       receiver: Host, user: int32)
    requires CallFits(call, list) && Carries(sender, frame, MessageOf(call, list, cinemaId).(messageType := t))
    ensures Readable(receiver, frame)
    ensures var m := Decode(receiver, frame).(clientId := user); WellFormed(m) && RequestIn(m) == RequestOf(call, list)
  {
    hide Carries, Readable, Decode;
    RoundTrip(sender, receiver, MessageOf(call, list, cinemaId).(messageType := t), frame);
    if call.PaySeats? {
      var rs := MessageOf(call, list, cinemaId).payload.list;
      assert seq(|rs|, i requires 0 <= i < |rs| => Place(rs[i].room, rs[i].seatNum)) == list;
    }
  }

  // ----- replies -----

  /** The numbers of a reply are C integers, and its lists fit the message. */
  predicate ReplyFits(reply: Reply) {
    match reply
    case Registered(user) => Fits(user)
    case RoomIds(ids) => |ids| <= MAX_ROOMS && forall i :: 0 <= i < |ids| ==> Fits(ids[i])
    case SeatStatuses(ids, statuses) =>
      |ids| == |statuses| <= MAX_SEATS && forall i :: 0 <= i < |ids| ==> Fits(ids[i])
    case NoReply => false
    case _ => true
  }

  function Number(x: int): int32
    requires Fits(x)
  {
    x
  }

  function Numbers(xs: seq<int>): seq<int32>
    requires forall i :: 0 <= i < |xs| ==> Fits(xs[i])
  {
    seq(|xs|, i requires 0 <= i < |xs| && Fits(xs[i]) => Number(xs[i]))
  }

  /** What the admin answers; `text` is the information it adds for a user to read. */
  function AnswerWith(user: int32, reply: Reply, text: seq<byte>): (m: Message)
    requires ReplyFits(reply) && |text| == MAX_LENGTH_STRING
    ensures WellFormed(m)
  {
    match reply
    case Paid => Message(0, user, CHOICE_PAY_RESERVATION_RESPONSE, Outcome(SUCCESS, text))
    case Registered(id) => Message(0, user, CHOICE_CONNECTION_ACCEPTED, Identity(id))
    case RoomIds(ids) => Message(0, user, CHOICE_ROOMS_RESPONSE, RoomList(|ids|, Numbers(ids)))
    case SeatStatuses(ids, statuses) =>
      Message(0, user, CHOICE_SEATS_RESPONSE, SeatMap(SUCCESS, |ids|, Numbers(ids), statuses, text))
    case Selected(success) =>
      Message(0, user, CHOICE_SEAT_SELECT_RESPONSE, Outcome(if success then SUCCESS else NOT_SUCCESS, text))
    case Invalid => Message(0, user, CHOICE_INVALID_REQUEST, Identity(0))
  }

  /** An answer that grants a call has the choice number after that of the call's request. */
  lemma AnswersFollow(call: Call, list: seq<Place>, cinemaId: int32, user: int32, reply: Reply, text: seq<byte>)
    requires CallFits(call, list) && ReplyFits(reply) && |text| == MAX_LENGTH_STRING && Granted(call, reply)
    ensures AnswerWith(user, reply, text).choice == MessageOf(call, list, cinemaId).choice + 1
  {
  }

  /** What a call tells its caller of the answer. */
  predicate Tells(call: Call, m: Message)
    requires WellFormed(m)
  {
    match call
    case GetSeats(_, _) => m.choice == CHOICE_SEATS_RESPONSE && m.payload.seatsSuccess != NOT_SUCCESS
    case ReserveSeat(_, _) => m.choice == CHOICE_SEAT_SELECT_RESPONSE && m.payload.success == SUCCESS
    case PaySeats(_) => m.choice == CHOICE_PAY_RESERVATION_RESPONSE && m.payload.success != NOT_SUCCESS
    case _ => false
  }

  /**
   Across the wire between any two hosts, whose byte orders change `success`, a call tells of a success if and
   only if the admin has granted it; and rooms, seats and statuses arrive as the admin has read them.
   */
  lemma AnswerArrives(call: Call, reply: Reply, user: int32, text: seq<byte>, t: int32, sender: Host,
                      frame: seq<byte>, receiver: Host)
    requires ReplyFits(reply) && |text| == MAX_LENGTH_STRING
    requires Carries(sender, frame, AnswerWith(user, reply, text).(messageType := t))
    ensures Readable(receiver, frame)
    ensures var m := Decode(receiver, frame);
            && WellFormed(m) && (Tells(call, m) <==> Granted(call, reply))
            && (reply.RoomIds? ==> m.payload.RoomList? && m.payload.ids == reply.ids)
            && (reply.SeatStatuses? ==>
                  m.payload.SeatMap? && m.payload.seatIds == reply.seatIds && m.payload.statuses == reply.statuses)
  {
    hide Carries, Readable, Decode, AnswerWith, Tells, Granted, ReplyFits;
    var m := AnswerWith(user, reply, text).(messageType := t);
    RoundTrip(sender, receiver, m, frame);
    AnswerDelivered(call, reply, user, text, t, sender, receiver);
  }

  lemma AnswerDelivered(call: Call, reply: Reply, user: int32, text: seq<byte>, t: int32, sender: Host, receiver: Host)
    requires ReplyFits(reply) && |text| == MAX_LENGTH_STRING
    ensures var m := Delivered(sender, receiver, AnswerWith(user, reply, text).(messageType := t));
            && WellFormed(m) && (Tells(call, m) <==> Granted(call, reply))
            && (reply.RoomIds? ==> m.payload.RoomList? && m.payload.ids == reply.ids)
            && (reply.SeatStatuses? ==>
                  m.payload.SeatMap? && m.payload.seatIds == reply.seatIds && m.payload.statuses == reply.statuses)
  {
    hide SuccessRead;
    match reply
    case Selected(_) => OneStaysNotZero(sender);
    case Paid => OneStaysNotZero(sender);
    case RoomIds(ids) =>
    case SeatStatuses(ids, _) =>
    case _ =>
  }

  lemma OneStaysNotZero(sender: Host)
    ensures SuccessRead(sender, SUCCESS) == SUCCESS && SuccessRead(sender, NOT_SUCCESS) != SUCCESS
  {
    SwapSmall();
    hide Swap;
  }

  lemma SwapSmall()
    ensures Swap(0) == 0 && Swap(1) == 0x100_0000
  {
    hide Split, Swap;
    SwapJoin(0, 0, 0, 0);
    SwapJoin(0, 0, 0, 1);
    assert Join(0, 0, 0, 0) == 0 && Join(0, 0, 0, 1) == 1 && Join(1, 0, 0, 0) == 0x100_0000;
  }
}
