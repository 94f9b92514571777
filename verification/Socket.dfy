/**
 src/network/socket.cpp itself: a message structure whose arrays are filled in place, cursors
 that advance over a byte buffer, and the partial-send and partial-receive loops around them.
 */
module Socket {
  import opened Bytes
  import opened Messages
  import opened Codec
  import opened WireFormat

  /** `q_message`. The members of the union are kept side by side. */
  class QMessage {
    var messageType: int32
    var clientId: int32
    var choice: uint32
    var m1ClientId: int32
    var m2Count: int32
    const m2Ids: array<int32>
    var m3RoomId: int32
    var m4Count: int32
    var m4Success: int16
    const m4Information: array<byte>
    const m4SeatIds: array<int32>
    const m4Statuses: array<byte>
    var m5SeatId: int32
    var m6Success: int32
    const m6Information: array<byte>
    var m7Count: int32
    const m7List: array<Reservation>

    /** The arrays have their declared lengths and do not overlap. */
    ghost predicate Valid() {
      && m2Ids.Length == MAX_ROOMS && m7List.Length == MAX_LENGTH_STRING
      && m4SeatIds.Length == m4Statuses.Length == MAX_SEATS
      && m4Information.Length == m6Information.Length == MAX_LENGTH_STRING
      && m2Ids != m4SeatIds && m4Information != m4Statuses
    }

    ghost function Footprint(): set<object> {
      {this, m2Ids, m4Information, m4SeatIds, m4Statuses, m6Information, m7List}
    }

    /** The count of the union member in use is at most the length of its array. */
    predicate CountsInRange()
      reads this
    {
      && (choice == CHOICE_ROOMS_RESPONSE ==> m2Count <= MAX_ROOMS)
      && (choice == CHOICE_SEATS_RESPONSE ==> m4Count <= MAX_SEATS)
      && (choice == CHOICE_PAY_RESERVATION_REQUEST ==> m7Count <= MAX_LENGTH_STRING)
    }

    /** The part of the union that the choice number selects. */
    ghost function Payload(): Payload
      requires Valid() && CountsInRange()
      reads this, Footprint()
    {
      if choice == CHOICE_ROOMS_REQUEST then NoPayload
      else if choice == CHOICE_ROOMS_RESPONSE then RoomList(m2Count, m2Ids[..Iterations(m2Count)])
      else if choice == CHOICE_SEATS_REQUEST then RoomChoice(m3RoomId)
      else if choice == CHOICE_SEATS_RESPONSE then
        SeatMap(m4Success, m4Count, m4SeatIds[..Iterations(m4Count)], m4Statuses[..Iterations(m4Count)],
                m4Information[..])
      else if choice == CHOICE_SEAT_SELECT_REQUEST then SeatChoice(m5SeatId)
      else if choice == CHOICE_SEAT_SELECT_RESPONSE || choice == CHOICE_PAY_RESERVATION_RESPONSE then
        Outcome(m6Success, m6Information[..])
      else if choice == CHOICE_PAY_RESERVATION_REQUEST then
        Payment(m7Count, m7List[..Iterations(m7Count)])
      else Identity(m1ClientId)
    }

    /** The member of the union in use stands in the frame, `success` apart. */
    ghost predicate UnionStands(s: seq<byte>)
      requires Valid() && CountsInRange()
      reads this, Footprint()
    {
      if choice == CHOICE_ROOMS_REQUEST then true
      else if choice == CHOICE_ROOMS_RESPONSE then
        Stands(s, 12, m2Count) && IntsStand(s, 16, m2Ids[..Iterations(m2Count)])
      else if choice == CHOICE_SEATS_REQUEST then Stands(s, 12, m3RoomId)
      else if choice == CHOICE_SEATS_RESPONSE then
        var n := Iterations(m4Count);
        && Stands(s, 16, m4Count) && IntsStand(s, 20, m4SeatIds[..n])
        && CharsStand(s, 20 + 4 * n, m4Statuses[..n]) && CharsStand(s, 20 + 5 * n, m4Information[..])
      else if choice == CHOICE_SEAT_SELECT_REQUEST then Stands(s, 12, m5SeatId)
      else if choice == CHOICE_SEAT_SELECT_RESPONSE || choice == CHOICE_PAY_RESERVATION_RESPONSE then
        CharsStand(s, 16, m6Information[..])
      else if choice == CHOICE_PAY_RESERVATION_REQUEST then
        Stands(s, 12, m7Count) && ReservationsStand(s, 16, m7List[..Iterations(m7Count)])
      else Stands(s, 12, m1ClientId)
    }

    lemma StandsAsUnion(s: seq<byte>)
      requires Valid() && CountsInRange() && FieldsStand(s, Payload())
      ensures UnionStands(s)
    {
      hide Stands, IntsStand, CharsStand, ReservationsStand;
    }

    ghost function View(): (m: Message)
      requires Valid() && CountsInRange()
      reads this, Footprint()
      ensures WellFormed(m)
    {
      Message(messageType, clientId, choice, Payload())
    }
  }

  // ----- serialising -----

  /** `*cursor = u; cursor++` for an `int` cursor. */
  method PutWord(host: Host, buf: array<byte>, at: nat, u: uint32) returns (next: nat)
    requires at + 4 <= buf.Length
    modifies buf
    ensures next == at + 4
    ensures buf[..next] == old(buf[..at]) + Store(host, u)
    ensures forall k :: next <= k < buf.Length ==> buf[k] == old(buf[k])
  {
    var s := Store(host, u);
    buf[at], buf[at + 1], buf[at + 2], buf[at + 3] := s[0], s[1], s[2], s[3];
    next := at + 4;
    assert buf[..at] == old(buf[..at]);
    assert buf[at..next] == s;
    assert buf[..next] == buf[..at] + buf[at..next];
  }

  /** `*cursor = htonl(x); cursor++`. */
  method PutInt(host: Host, buf: array<byte>, at: nat, x: int32) returns (next: nat)
    requires at + 4 <= buf.Length
    modifies buf
    ensures next == at + 4
    ensures buf[..next] == old(buf[..at]) + IntBytes(x)
    ensures forall k :: next <= k < buf.Length ==> buf[k] == old(buf[k])
  {
    next := PutWord(host, buf, at, Htonl(host, Unsigned(x)));
    StoreHtonl(host, Unsigned(x));
  }

  method SerializeInts(host: Host, buf: array<byte>, at: nat, data: array<int32>, size: int32)
    returns (next: nat)
    requires Iterations(size) <= data.Length && at + 4 * Iterations(size) <= buf.Length
    modifies buf
    ensures next == at + 4 * Iterations(size)
    ensures buf[..next] == old(buf[..at]) + IntsBytes(data[..Iterations(size)])
    ensures forall k :: next <= k < buf.Length ==> buf[k] == old(buf[k])
  {
    next := at;
    var i := 0;
    while i < size
      invariant 0 <= i <= Iterations(size) && next == at + 4 * i
      invariant buf[..next] == old(buf[..at]) + IntsBytes(data[..i])
      invariant forall k :: next <= k < buf.Length ==> buf[k] == old(buf[k])
    {
      assert data[..i + 1][..i] == data[..i];
      next := PutInt(host, buf, next, data[i]);
      i := i + 1;
    }
  }

  lemma NoReservations()
    ensures ReservationsBytes([]) == []
  {
  }

  lemma ReservationsSnoc(rs: seq<Reservation>, r: Reservation)
    ensures ReservationsBytes(rs + [r]) == ReservationsBytes(rs) + IntBytes(r.room) + IntBytes(r.seatNum)
  {
    hide IntBytes;
    assert (rs + [r])[..|rs|] == rs;
  }

  method SerializeReservations(host: Host, buf: array<byte>, at: nat, data: array<Reservation>,
                               count: int32)
    returns (next: nat)
    requires Iterations(count) <= data.Length && at + 8 * Iterations(count) <= buf.Length
    modifies buf
    ensures next == at + 8 * Iterations(count)
    ensures buf[..next] == old(buf[..at]) + ReservationsBytes(data[..Iterations(count)])
    ensures forall k :: next <= k < buf.Length ==> buf[k] == old(buf[k])
  {
    hide IntBytes, ReservationsBytes;
    assert data[..0] == [] && ReservationsBytes([]) == [] by { NoReservations(); }
    next := at;
    var i := 0;
    while i < count
      invariant 0 <= i <= Iterations(count) && next == at + 8 * i
      invariant buf[..next] == old(buf[..at]) + ReservationsBytes(data[..i])
      invariant forall k :: next <= k < buf.Length ==> buf[k] == old(buf[k])
    {
      ghost var done := ReservationsBytes(data[..i]);
      next := PutInt(host, buf, next, data[i].room);
      assert buf[..next] == old(buf[..at]) + (done + IntBytes(data[i].room));
      next := PutInt(host, buf, next, data[i].seatNum);
      ReservationsSnoc(data[..i], data[i]);
      assert data[..i + 1] == data[..i] + [data[i]];
      i := i + 1;
    }
  }

  method SerializeChars(buf: array<byte>, at: nat, data: array<byte>, size: int) returns (next: nat)
    requires buf != data
    requires Iterations(size) <= data.Length && at + Iterations(size) <= buf.Length
    modifies buf
    ensures next == at + Iterations(size)
    ensures buf[..next] == old(buf[..at]) + data[..Iterations(size)]
    ensures forall k :: next <= k < buf.Length ==> buf[k] == old(buf[k])
  {
    next := at;
    var i := 0;
    while i < size
      invariant 0 <= i <= Iterations(size) && next == at + i
      invariant buf[..next] == old(buf[..at]) + data[..i]
      invariant forall k :: next <= k < buf.Length ==> buf[k] == old(buf[k])
    {
      buf[next] := data[i];
      next := next + 1;
      i := i + 1;
    }
  }

  method SerializeHeader(host: Host, msg: QMessage, buf: array<byte>) returns (at: nat)
    requires msg.Valid() && msg.CountsInRange() && buf.Length == FRAME_SIZE
    requires buf !in msg.Footprint()
    modifies buf
    ensures at == HEADER_SIZE && buf[..at] == Header(msg.View())
    ensures forall k :: at <= k < buf.Length ==> buf[k] == old(buf[k])
  {
    hide IntBytes, Store, Split;
    at := PutInt(host, buf, 0, msg.messageType);
    assert buf[..at] == IntBytes(msg.messageType);
    at := PutInt(host, buf, at, msg.clientId);
    assert buf[..at] == IntBytes(msg.messageType) + IntBytes(msg.clientId);
    at := PutWord(host, buf, at, Htonl(host, msg.choice));
    StoreHtonl(host, msg.choice);
  }

  method SerializeSeats(host: Host, msg: QMessage, buf: array<byte>, start: nat) returns (at: nat)
    requires msg.Valid() && msg.CountsInRange() && msg.choice == CHOICE_SEATS_RESPONSE
    requires buf.Length == FRAME_SIZE && buf !in msg.Footprint() && start == HEADER_SIZE
    modifies buf
    ensures at == start + |Body(host, msg.Payload())|
    ensures buf[..at] == old(buf[..start]) + Body(host, msg.Payload())
    ensures forall k :: at <= k < buf.Length ==> buf[k] == old(buf[k])
  {
    hide IntBytes, IntsBytes;
    ghost var n := Iterations(msg.m4Count);
    at := PutInt(host, buf, start, msg.m4Success);
    at := PutInt(host, buf, at, msg.m4Count);
    ghost var fixed := IntBytes(msg.m4Success) + IntBytes(msg.m4Count);
    assert buf[..at] == old(buf[..start]) + fixed;
    at := SerializeInts(host, buf, at, msg.m4SeatIds, msg.m4Count);
    ghost var ids := fixed + IntsBytes(msg.m4SeatIds[..n]);
    assert buf[..at] == old(buf[..start]) + ids;
    at := SerializeChars(buf, at, msg.m4Statuses, msg.m4Count);
    ghost var statuses := ids + msg.m4Statuses[..n];
    assert buf[..at] == old(buf[..start]) + statuses;
    at := SerializeChars(buf, at, msg.m4Information, MAX_LENGTH_STRING);
    assert msg.m4Information[..] == msg.m4Information[..MAX_LENGTH_STRING];
    assert buf[..at] == old(buf[..start]) + (statuses + msg.m4Information[..]);
  }

  method SerializeOutcome(host: Host, msg: QMessage, buf: array<byte>, start: nat) returns (at: nat)
    requires msg.Valid() && buf !in msg.Footprint() && buf.Length == FRAME_SIZE && start == HEADER_SIZE
    modifies buf
    ensures at == start + 4 + MAX_LENGTH_STRING
    ensures buf[..at] == old(buf[..start]) + (Store(host, Unsigned(msg.m6Success)) + msg.m6Information[..])
    ensures forall k :: at <= k < buf.Length ==> buf[k] == old(buf[k])
  {
    hide Store;
    // The one field that is not converted to network order.
    at := PutWord(host, buf, start, Unsigned(msg.m6Success));
    at := SerializeChars(buf, at, msg.m6Information, MAX_LENGTH_STRING);
    assert msg.m6Information[..] == msg.m6Information[..MAX_LENGTH_STRING];
  }

  /** The switch of `serialize_message`. */
  method SerializeBody(host: Host, msg: QMessage, buf: array<byte>, start: nat) returns (at: nat)
    requires msg.Valid() && msg.CountsInRange() && buf.Length == FRAME_SIZE
    requires buf !in msg.Footprint() && start == HEADER_SIZE
    modifies buf
    ensures at == start + |Body(host, msg.Payload())|
    ensures buf[..at] == old(buf[..start]) + Body(host, msg.Payload())
    ensures FieldsStand(buf[..], msg.Payload()) && SuccessIsWritten(host, buf[..], msg.Payload())
    ensures forall k :: at <= k < buf.Length ==> buf[k] == old(buf[k])
  {
    hide IntBytes, IntsBytes, ReservationsBytes, Store, FieldsStand, SuccessIsWritten;
    ghost var before := buf[..start];
    at := start;
    if msg.choice == CHOICE_ROOMS_REQUEST {
    } else if msg.choice == CHOICE_ROOMS_RESPONSE {
      at := PutInt(host, buf, at, msg.m2Count);
      at := SerializeInts(host, buf, at, msg.m2Ids, msg.m2Count);
    } else if msg.choice == CHOICE_SEATS_REQUEST {
      at := PutInt(host, buf, at, msg.m3RoomId);
    } else if msg.choice == CHOICE_SEATS_RESPONSE {
      at := SerializeSeats(host, msg, buf, at);
    } else if msg.choice == CHOICE_SEAT_SELECT_REQUEST {
      at := PutInt(host, buf, at, msg.m5SeatId);
    } else if msg.choice == CHOICE_SEAT_SELECT_RESPONSE || msg.choice == CHOICE_PAY_RESERVATION_RESPONSE {
      at := SerializeOutcome(host, msg, buf, at);
    } else if msg.choice == CHOICE_PAY_RESERVATION_REQUEST {
      at := PutInt(host, buf, at, msg.m7Count);
      at := SerializeReservations(host, buf, at, msg.m7List, msg.m7Count);
    } else {
      at := PutInt(host, buf, at, msg.m1ClientId);
    }
    assert buf[..at] == before + Body(host, msg.Payload());
    BodyWritten(host, buf[..], before, msg.Payload());
  }

  lemma BodyWritten(host: Host, s: seq<byte>, before: seq<byte>, p: Payload)
    requires |s| == FRAME_SIZE && |before| == HEADER_SIZE && before + Body(host, p) <= s
    ensures FieldsStand(s, p) && SuccessIsWritten(host, s, p)
  {
    hide Body, FieldsStand, SuccessIsWritten;
    HoldsBody(host, s, p);
  }

  /** `serialize_message`: the encoding at the start of the buffer, the rest of it untouched. */
  method SerializeMessage(host: Host, msg: QMessage, buf: array<byte>)
    requires msg.Valid() && msg.CountsInRange() && buf.Length == FRAME_SIZE
    requires buf !in msg.Footprint()
    modifies buf
    ensures Carries(host, buf[..], msg.View())
    ensures HeaderStands(buf[..], msg.View()) && FieldsStand(buf[..], msg.Payload()) && msg.UnionStands(buf[..])
    ensures SuccessIsWritten(host, buf[..], msg.Payload())
    ensures forall k :: |Encode(host, msg.View())| <= k < FRAME_SIZE ==> buf[k] == old(buf[k])
  {
    hide Header, Body, HeaderStands, FieldsStand, SuccessIsWritten;
    var at := SerializeHeader(host, msg, buf);
    at := SerializeBody(host, msg, buf, at);
    EncodingFits(host, msg.View());
    assert buf[..at] == Encode(host, msg.View());
    assert buf[..at] <= buf[..];
    CarriesIff(host, buf[..], msg.View());
    msg.StandsAsUnion(buf[..]);
  }

  // ----- deserialising -----

  /** `ntohl(*cursor)`. */
  method GetInt(host: Host, buf: array<byte>, at: nat) returns (x: int32)
    requires at + 4 <= buf.Length
    ensures x == ReadInt(host, buf[..], at)
  {
    assert buf[at..at + 4] == buf[..][at..at + 4];
    x := Signed(Htonl(host, Load(host, buf[at..at + 4])));
  }

  method DeserializeInts(host: Host, buf: array<byte>, at: nat, destination: array<int32>, count: int32)
    returns (next: nat)
    requires Iterations(count) <= destination.Length && at + 4 * Iterations(count) <= buf.Length
    modifies destination
    ensures destination[..Iterations(count)] == ReadInts(host, buf[..], at, Iterations(count))
    ensures next == at + 4 * Iterations(count)
  {
    hide ReadInt;
    next := at;
    var i := 0;
    while i < count
      invariant 0 <= i <= Iterations(count) && next == at + 4 * i
      invariant forall k :: 0 <= k < i ==> destination[k] == ReadInt(host, buf[..], at + 4 * k)
    {
      destination[i] := GetInt(host, buf, next);
      next := next + 4;
      i := i + 1;
    }
  }

  method DeserializeReservations(host: Host, buf: array<byte>, at: nat, list: array<Reservation>, count: int32)
    returns (next: nat)
    requires Iterations(count) <= list.Length && at + 8 * Iterations(count) <= buf.Length
    modifies list
    ensures list[..Iterations(count)] == ReadReservations(host, buf[..], at, Iterations(count))
    ensures next == at + 8 * Iterations(count)
  {
    hide ReadInt;
    next := at;
    var i := 0;
    while i < count
      invariant 0 <= i <= Iterations(count) && next == at + 8 * i
      invariant forall k :: 0 <= k < i ==>
        list[k] == Reservation(ReadInt(host, buf[..], at + 8 * k), ReadInt(host, buf[..], at + 8 * k + 4))
    {
      var room := GetInt(host, buf, next);
      next := next + 4;
      var seatNum := GetInt(host, buf, next);
      next := next + 4;
      list[i] := Reservation(room, seatNum);
      i := i + 1;
    }
  }

  method DeserializeChars(buf: array<byte>, at: nat, destination: array<byte>, count: int)
    returns (next: nat)
    requires buf != destination
    requires Iterations(count) <= destination.Length && at + Iterations(count) <= buf.Length
    modifies destination
    ensures destination[..Iterations(count)] == buf[at..at + Iterations(count)]
    ensures next == at + Iterations(count)
  {
    next := at;
    var i := 0;
    while i < count
      invariant 0 <= i <= Iterations(count) && next == at + i
      invariant destination[..i] == buf[at..at + i]
    {
      destination[i] := buf[next];
      next := next + 1;
      i := i + 1;
    }
  }

  method DeserializeSeats(host: Host, msg: QMessage, buf: array<byte>)
    requires msg.Valid() && buf !in msg.Footprint() && msg.choice == CHOICE_SEATS_RESPONSE
    requires buf.Length == FRAME_SIZE && ReadInt(host, buf[..], 16) <= MAX_SEATS
    modifies msg`m4Success, msg`m4Count, msg.m4SeatIds, msg.m4Statuses, msg.m4Information
    ensures msg.CountsInRange() && msg.Payload() == DecodeSeats(host, buf[..])
  {
    hide ReadInt, ReadInts, ReadShort;
    ghost var s := buf[..];
    assert buf[12..16] == s[12..16];
    msg.m4Success := ShortAt(host, buf, 12);
    msg.m4Count := GetInt(host, buf, 16);
    var at := DeserializeInts(host, buf, 20, msg.m4SeatIds, msg.m4Count);
    at := DeserializeChars(buf, at, msg.m4Statuses, msg.m4Count);
    at := DeserializeChars(buf, at, msg.m4Information, MAX_LENGTH_STRING);
    assert msg.m4Information[..] == msg.m4Information[..MAX_LENGTH_STRING];
  }

  /** `(short) ntohs(*cursor)`. */
  method ShortAt(host: Host, buf: array<byte>, at: nat) returns (x: int16)
    requires at + 4 <= buf.Length
    ensures x == ReadShort(host, buf[..], at)
  {
    assert buf[at..at + 4] == buf[..][at..at + 4];
    x := Signed16(Ntohs(host, Low16(Load(host, buf[at..at + 4]))));
  }

  /** The switch of `deserialize_message`. */
  method DeserializeBody(host: Host, msg: QMessage, buf: array<byte>)
    requires msg.Valid() && buf !in msg.Footprint()
    requires Readable(host, buf[..]) && msg.choice == ChoiceOf(host, buf[..])
    modifies msg.Footprint()
    ensures msg.messageType == old(msg.messageType) && msg.clientId == old(msg.clientId)
    ensures msg.choice == old(msg.choice)
    ensures msg.CountsInRange() && msg.Payload() == DecodePayload(host, buf[..])
    ensures FieldsStand(buf[..], msg.Payload()) && SuccessIsRead(host, buf[..], msg.Payload())
  {
    hide ReadInt, ReadInts, ReadReservations, DecodeSeats, ChoiceOf, FieldsStand, SuccessIsRead, Matches;
    ghost var s := buf[..];
    if msg.choice == CHOICE_ROOMS_REQUEST {
    } else if msg.choice == CHOICE_ROOMS_RESPONSE {
      msg.m2Count := GetInt(host, buf, 12);
      var _ := DeserializeInts(host, buf, 16, msg.m2Ids, msg.m2Count);
    } else if msg.choice == CHOICE_SEATS_REQUEST {
      msg.m3RoomId := GetInt(host, buf, 12);
    } else if msg.choice == CHOICE_SEATS_RESPONSE {
      DeserializeSeats(host, msg, buf);
    } else if msg.choice == CHOICE_SEAT_SELECT_REQUEST {
      msg.m5SeatId := GetInt(host, buf, 12);
    } else if msg.choice == CHOICE_SEAT_SELECT_RESPONSE || msg.choice == CHOICE_PAY_RESERVATION_RESPONSE {
      msg.m6Success := GetInt(host, buf, 12);
      var _ := DeserializeChars(buf, 16, msg.m6Information, MAX_LENGTH_STRING);
      assert msg.m6Information[..] == msg.m6Information[..MAX_LENGTH_STRING];
      assert buf[16..16 + MAX_LENGTH_STRING] == s[16..16 + MAX_LENGTH_STRING];
    } else if msg.choice == CHOICE_PAY_RESERVATION_REQUEST {
      msg.m7Count := GetInt(host, buf, 12);
      var _ := DeserializeReservations(host, buf, 16, msg.m7List, msg.m7Count);
    } else {
      msg.m1ClientId := GetInt(host, buf, 12);
    }
    assert buf[..] == s;
    PayloadRead(host, s);
  }

  /** `deserialize_message`: the structure is filled with what the frame says. */
  method DeserializeMessage(host: Host, msg: QMessage, buf: array<byte>)
    requires msg.Valid() && buf !in msg.Footprint() && Readable(host, buf[..])
    modifies msg.Footprint()
    ensures msg.CountsInRange() && msg.View() == Decode(host, buf[..])
    ensures HeaderStands(buf[..], msg.View()) && FieldsStand(buf[..], msg.Payload()) && msg.UnionStands(buf[..])
    ensures SuccessIsRead(host, buf[..], msg.Payload())
  {
    hide ReadInt, DecodePayload, Readable, HeaderStands, FieldsStand, SuccessIsRead;
    HeaderRead(host, buf[..]);
    assert |buf[..]| == FRAME_SIZE by { ReadableLength(host, buf[..]); }
    msg.messageType := GetInt(host, buf, 0);
    msg.clientId := GetInt(host, buf, 4);
    assert buf[8..12] == buf[..][8..12];
    msg.choice := Htonl(host, Load(host, buf[8..12]));
    DeserializeBody(host, msg, buf);
    msg.StandsAsUnion(buf[..]);
  }

  // ----- the byte stream -----

  /** A connected socket seen from its two ends: the bytes sent and not yet received. */
  class Connection {
    var stream: seq<byte>

    /** `send`: the kernel takes some of the bytes offered, at least one. */
    method Send(buf: array<byte>, at: nat, n: nat) returns (taken: nat)
      requires 0 < n && at + n <= buf.Length
      modifies this
      ensures 1 <= taken <= n && stream == old(stream) + buf[at..at + taken]
    {
      taken :| 1 <= taken <= n;
      stream := stream + buf[at..at + taken];
    }
  }

  /**
   A connected socket seen from its receiving end: the bytes that have arrived, and those the peer has
   yet to send or that are on their way.
   */
  class Inbound {
    var arrived: seq<byte>
    var coming: seq<byte>

    ghost function Stream(): seq<byte>
      reads this
    {
      arrived + coming
    }

    /** `recv`: blocks until something has arrived, then hands over some of it, at least one byte. */
    method Receive(buf: array<byte>, at: nat, n: nat) returns (taken: nat)
      requires 0 < n && at + n <= buf.Length && Stream() != []
      modifies this, buf
      ensures 1 <= taken <= n && taken <= |old(Stream())|
      ensures Stream() == old(Stream())[taken..]
      ensures buf[..at + taken] == old(buf[..at]) + old(Stream())[..taken]
      ensures forall k :: at + taken <= k < buf.Length ==> buf[k] == old(buf[k])
    {
      var more :| 0 <= more <= |coming| && (arrived == [] ==> more > 0);
      arrived, coming := arrived + coming[..more], coming[more..];
      assert Stream() == old(Stream());
      taken :| 1 <= taken <= n && taken <= |arrived|;
      for i := 0 to taken
        modifies buf
        invariant buf[..at + i] == old(buf[..at]) + arrived[..i]
        invariant forall k :: at + i <= k < buf.Length ==> buf[k] == old(buf[k])
      {
        buf[at + i] := arrived[i];
      }
      assert arrived[..taken] == old(Stream())[..taken];
      arrived := arrived[taken..];
    }
  }

  /** `send_packet`: one whole frame that carries the message is added to the stream. */
  method SendPacket(host: Host, connection: Connection, msg: QMessage) returns (r: int)
    requires msg.Valid() && msg.CountsInRange()
    modifies connection
    ensures |connection.stream| == |old(connection.stream)| + FRAME_SIZE
    ensures old(connection.stream) <= connection.stream
    ensures Carries(host, connection.stream[|old(connection.stream)|..], old(msg.View()))
    ensures r == 1
  {
    hide Carries, QMessage.View;
    var msgSize := FRAME_SIZE;
    var buffer := new byte[msgSize];
    SerializeMessage(host, msg, buffer);
    ghost var frame := buffer[..];
    var sentBytes := 0;
    var cursor := 0;
    while sentBytes < msgSize
      invariant 0 <= sentBytes <= msgSize && cursor == sentBytes && buffer[..] == frame
      invariant connection.stream == old(connection.stream) + frame[..sentBytes]
    {
      var taken := connection.Send(buffer, cursor, msgSize - sentBytes);
      assert frame[..sentBytes + taken] == frame[..sentBytes] + frame[cursor..cursor + taken];
      sentBytes := sentBytes + taken;
      cursor := cursor + taken;
    }
    cursor := cursor - msgSize;
    // What is freed is the start of the buffer.
    assert cursor == 0;
    assert frame[..sentBytes] == frame;
    r := 1;
  }

  /** `receive_packet`: once the peer has sent a frame, it leaves the stream and the structure says what it said. */
  method ReceivePacket(host: Host, connection: Inbound, msg: QMessage) returns (r: int)
    requires msg.Valid() && connection !in msg.Footprint()
    requires |connection.Stream()| >= FRAME_SIZE && Readable(host, connection.Stream()[..FRAME_SIZE])
    modifies connection, msg.Footprint()
    ensures connection.Stream() == old(connection.Stream())[FRAME_SIZE..]
    ensures msg.CountsInRange() && msg.View() == Decode(host, old(connection.Stream())[..FRAME_SIZE])
    ensures r == 1
  {
    hide Readable, Decode, QMessage.View;
    var msgSize := FRAME_SIZE;
    var buffer := new byte[msgSize];
    ghost var arrived := connection.Stream();
    var recBytes := 0;
    while recBytes < msgSize
      modifies connection, buffer
      invariant 0 <= recBytes <= msgSize
      invariant connection.Stream() == arrived[recBytes..]
      invariant buffer[..recBytes] == arrived[..recBytes]
    {
      ghost var before := recBytes;
      var taken := connection.Receive(buffer, recBytes, msgSize - recBytes);
      recBytes := recBytes + taken;
      assert arrived[..recBytes] == arrived[..before] + arrived[before..][..taken];
    }
    assert buffer[..] == buffer[..msgSize];
    DeserializeMessage(host, msg, buffer);
    r := 1;
  }
}
