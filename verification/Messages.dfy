/**
 The message of include/messages/message.h: a routing type, a client id, a choice number
 and the member of the union that the choice number selects. Of an array in the union a
 message keeps the entries its count announces.
 */
module Messages {
  import opened Bytes

  const MAX_LENGTH_STRING: nat := 500
  const MAX_ROOMS: nat := 20
  const MAX_SEATS: nat := 50

  const SEAT_STATUS_FREE: byte := 0
  const SEAT_STATUS_OCCUPIED: byte := 1

  /** The update slots of a host. */
  const MAX_CLIENTS_HOST: nat := 50

  /** A queue end without an id. */
  const UNDEFINED_ID: int := -1

  const SUCCESS: int := 0
  const NOT_SUCCESS: int := 1

  // Values of message_type reserved for the two connection requests, and for the admin.
  const TYPE_CONNECTION_CINEMA_REQUEST: int32 := 1
  const TYPE_CONNECTION_MOM_REQUEST: int32 := 2
  const ADMIN_REQUEST: int32 := 1

  const CHOICE_CONNECTION_REQUEST: uint32 := 1
  const CHOICE_CONNECTION_ACCEPTED: uint32 := 2
  const CHOICE_ROOMS_REQUEST: uint32 := 3
  const CHOICE_ROOMS_RESPONSE: uint32 := 4
  const CHOICE_SEATS_REQUEST: uint32 := 5
  const CHOICE_SEATS_RESPONSE: uint32 := 6
  const CHOICE_SEAT_SELECT_REQUEST: uint32 := 7
  const CHOICE_SEAT_SELECT_RESPONSE: uint32 := 8
  const CHOICE_EXIT: uint32 := 9
  const CHOICE_INVALID_REQUEST: uint32 := 10
  const CHOICE_PAY_RESERVATION_REQUEST: uint32 := 11
  const CHOICE_PAY_RESERVATION_RESPONSE: uint32 := 12

  datatype Reservation = Reservation(room: int32, seatNum: int32)

  /** include/constants.h: a seat as the client sees it. */
  datatype Seat = Seat(id: int, roomId: int, status: byte)

  datatype Payload =
    | NoPayload
    | Identity(id: int32)
    | RoomList(roomCount: int32, ids: seq<int32>)
    | RoomChoice(roomId: int32)
    | SeatMap(seatsSuccess: int16, seatCount: int32, seatIds: seq<int32>, statuses: seq<byte>,
              seatsInformation: seq<byte>)
    | SeatChoice(seatId: int32)
    | Outcome(success: int32, information: seq<byte>)
    | Payment(paymentCount: int32, list: seq<Reservation>)

  datatype Message = Message(messageType: int32, clientId: int32, choice: uint32, payload: Payload)

  /** How many times a loop `for (i = 0; i < count; i++)` runs. */
  function Iterations(count: int): nat {
    if count < 0 then 0 else count
  }

  /** The payload is the union member the choice number selects, with its count in bounds. */
  predicate Matches(choice: uint32, p: Payload) {
    if choice == CHOICE_ROOMS_REQUEST then p.NoPayload?
    else if choice == CHOICE_ROOMS_RESPONSE then
      p.RoomList? && p.roomCount <= MAX_ROOMS && |p.ids| == Iterations(p.roomCount)
    else if choice == CHOICE_SEATS_REQUEST then p.RoomChoice?
    else if choice == CHOICE_SEATS_RESPONSE then
      && p.SeatMap? && p.seatCount <= MAX_SEATS
      && |p.seatIds| == |p.statuses| == Iterations(p.seatCount)
      && |p.seatsInformation| == MAX_LENGTH_STRING
    else if choice == CHOICE_SEAT_SELECT_REQUEST then p.SeatChoice?
    else if choice == CHOICE_SEAT_SELECT_RESPONSE || choice == CHOICE_PAY_RESERVATION_RESPONSE then
      p.Outcome? && |p.information| == MAX_LENGTH_STRING
    else if choice == CHOICE_PAY_RESERVATION_REQUEST then
      p.Payment? && p.paymentCount <= MAX_LENGTH_STRING && |p.list| == Iterations(p.paymentCount)
    else p.Identity?
  }

  predicate WellFormed(m: Message) {
    Matches(m.choice, m.payload)
  }
}
