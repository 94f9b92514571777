/**
 The wire format of src/network/socket.cpp, as functions on values: what a frame holds for
 a message, and what a host reads from a frame. Both depend on the byte order of the host,
 because the code converts some fields on one side only.
 */
module Codec {
  import opened Bytes
  import opened Messages

  const HEADER_SIZE: nat := 12

  /** sizeof(q_message) + 2 * sizeof(int); the payments are the largest member of the union. */
  const FRAME_SIZE: nat := HEADER_SIZE + 4 + 8 * MAX_LENGTH_STRING + 8

  function IntBytes(x: int32): (s: seq<byte>)
    ensures |s| == 4
  {
    Split(Unsigned(x))
  }

  function IntsBytes(xs: seq<int32>): (s: seq<byte>)
    ensures |s| == 4 * |xs|
  {
    if xs == [] then [] else IntsBytes(xs[..|xs| - 1]) + IntBytes(xs[|xs| - 1])
  }

  function ReservationsBytes(rs: seq<Reservation>): (s: seq<byte>)
    ensures |s| == 8 * |rs|
  {
    if rs == [] then []
    else
      var r := rs[|rs| - 1];
      ReservationsBytes(rs[..|rs| - 1]) + (IntBytes(r.room) + IntBytes(r.seatNum))
  }

  function Header(m: Message): (s: seq<byte>)
    ensures |s| == HEADER_SIZE
  {
    IntBytes(m.messageType) + IntBytes(m.clientId) + Split(m.choice)
  }

  function Body(host: Host, p: Payload): seq<byte> {
    match p
    case NoPayload => []
    case Identity(id) => IntBytes(id)
    case RoomList(count, ids) => IntBytes(count) + IntsBytes(ids)
    case RoomChoice(room) => IntBytes(room)
    case SeatMap(success, count, ids, statuses, information) =>
      IntBytes(success) + IntBytes(count) + IntsBytes(ids) + statuses + information
    case SeatChoice(seat) => IntBytes(seat)
    case Outcome(success, information) => Store(host, Unsigned(success)) + information
    case Payment(count, list) => IntBytes(count) + ReservationsBytes(list)
  }

  /** The bytes that say what `m` is; the rest of its frame is whatever the buffer held. */
  function Encode(host: Host, m: Message): seq<byte> {
    Header(m) + Body(host, m.payload)
  }

  /** A frame that carries `m`. */
  predicate Carries(host: Host, frame: seq<byte>, m: Message) {
    |frame| == FRAME_SIZE && Encode(host, m) <= frame
  }

  /** No in-range message outgrows the frame: the last eight bytes are never needed. */
  lemma EncodingFits(host: Host, m: Message)
    requires WellFormed(m)
    ensures |Encode(host, m)| <= FRAME_SIZE - 8
  {
  }

  // ----- reading -----

  /** `ntohl(*data)` for a cursor at `at`. */
  function ReadWord(host: Host, s: seq<byte>, at: nat): uint32
    requires at + 4 <= |s|
  {
    Htonl(host, Load(host, s[at..at + 4]))
  }

  function ReadInt(host: Host, s: seq<byte>, at: nat): int32
    requires at + 4 <= |s|
  {
    Signed(ReadWord(host, s, at))
  }

  /** `(short) ntohs(*data)`. */
  function ReadShort(host: Host, s: seq<byte>, at: nat): int16
    requires at + 4 <= |s|
  {
    Signed16(Ntohs(host, Low16(Load(host, s[at..at + 4]))))
  }

  function ReadInts(host: Host, s: seq<byte>, at: nat, n: nat): seq<int32>
    requires at + 4 * n <= |s|
  {
    seq(n, i requires 0 <= i < n => ReadInt(host, s, at + 4 * i))
  }

  function ReadReservations(host: Host, s: seq<byte>, at: nat, n: nat): seq<Reservation>
    requires at + 8 * n <= |s|
  {
    seq(n, i requires 0 <= i < n =>
      Reservation(ReadInt(host, s, at + 8 * i), ReadInt(host, s, at + 8 * i + 4)))
  }

  function ChoiceOf(host: Host, s: seq<byte>): uint32
    requires |s| == FRAME_SIZE
  {
    ReadWord(host, s, 8)
  }

  /** The count in the frame, if its choice number has one, does not exceed the array it fills. */
  predicate Readable(host: Host, s: seq<byte>) {
    && |s| == FRAME_SIZE
    && var choice := ChoiceOf(host, s);
    && (choice == CHOICE_ROOMS_RESPONSE ==> ReadInt(host, s, 12) <= MAX_ROOMS)
    && (choice == CHOICE_SEATS_RESPONSE ==> ReadInt(host, s, 16) <= MAX_SEATS)
    && (choice == CHOICE_PAY_RESERVATION_REQUEST ==> ReadInt(host, s, 12) <= MAX_LENGTH_STRING)
  }

  lemma ReadableLength(host: Host, s: seq<byte>)
    requires Readable(host, s)
    ensures |s| == FRAME_SIZE
  {
  }

  function DecodeSeats(host: Host, s: seq<byte>): Payload
    requires |s| == FRAME_SIZE && ReadInt(host, s, 16) <= MAX_SEATS
  {
    var count := ReadInt(host, s, 16);
    var n := Iterations(count);
    SeatMap(ReadShort(host, s, 12), count, ReadInts(host, s, 20, n),
            s[20 + 4 * n..20 + 5 * n], s[20 + 5 * n..20 + 5 * n + MAX_LENGTH_STRING])
  }

  function DecodePayload(host: Host, s: seq<byte>): Payload
    requires Readable(host, s)
  {
    var choice := ChoiceOf(host, s);
    if choice == CHOICE_ROOMS_REQUEST then NoPayload
    else if choice == CHOICE_ROOMS_RESPONSE then
      RoomList(ReadInt(host, s, 12), ReadInts(host, s, 16, Iterations(ReadInt(host, s, 12))))
    else if choice == CHOICE_SEATS_REQUEST then RoomChoice(ReadInt(host, s, 12))
    else if choice == CHOICE_SEATS_RESPONSE then DecodeSeats(host, s)
    else if choice == CHOICE_SEAT_SELECT_REQUEST then SeatChoice(ReadInt(host, s, 12))
    else if choice == CHOICE_SEAT_SELECT_RESPONSE || choice == CHOICE_PAY_RESERVATION_RESPONSE then
      Outcome(ReadInt(host, s, 12), s[16..16 + MAX_LENGTH_STRING])
    else if choice == CHOICE_PAY_RESERVATION_REQUEST then
      Payment(ReadInt(host, s, 12), ReadReservations(host, s, 16, Iterations(ReadInt(host, s, 12))))
    else Identity(ReadInt(host, s, 12))
  }

  function Decode(host: Host, s: seq<byte>): Message
    requires Readable(host, s)
  {
    Message(ReadInt(host, s, 0), ReadInt(host, s, 4), ChoiceOf(host, s), DecodePayload(host, s))
  }

  // ----- what survives the trip -----

  /** The `success` of a seat map, written as an int and read back as a short. */
  function SeatsSuccessRead(receiver: Host, success: int16): int16 {
    if receiver.BigEndian? then success else if success < 0 then -1 else 0
  }

  /** The `success` of an outcome, written in the order of the sender and read in network order. */
  function SuccessRead(sender: Host, success: int32): int32 {
    if sender.BigEndian? then success else Signed(Swap(Unsigned(success)))
  }

  /** The message that arrives when `m` is sent: everything but `success` is kept. */
  function Delivered(sender: Host, receiver: Host, m: Message): Message {
    match m.payload
    case SeatMap(success, _, _, _, _) =>
      m.(payload := m.payload.(seatsSuccess := SeatsSuccessRead(receiver, success)))
    case Outcome(success, _) =>
      m.(payload := m.payload.(success := SuccessRead(sender, success)))
    case _ => m
  }

  lemma SliceOfSlice<T>(s: seq<T>, a: nat, b: nat, i: nat, j: nat)
    requires a <= b <= |s| && i <= j <= b - a
    ensures s[a..b][i..j] == s[a + i..a + j]
  {
    forall k | 0 <= k < j - i ensures s[a..b][i..j][k] == s[a + i..a + j][k] {
    }
  }

  /** A stretch of `s` that holds `x + y` holds `x` and then `y`. */
  lemma Pieces<T>(s: seq<T>, at: nat, x: seq<T>, y: seq<T>)
    requires at + |x| + |y| <= |s| && s[at..at + |x| + |y|] == x + y
    ensures s[at..at + |x|] == x && s[at + |x|..at + |x| + |y|] == y
  {
    SliceOfSlice(s, at, at + |x| + |y|, 0, |x|);
    SliceOfSlice(s, at, at + |x| + |y|, |x|, |x| + |y|);
  }

  lemma ReadIntAt(host: Host, s: seq<byte>, at: nat, x: int32)
    requires at + 4 <= |s| && s[at..at + 4] == IntBytes(x)
    ensures ReadInt(host, s, at) == x
  {
    NtohlLoad(host, s[at..at + 4]);
  }

  /** The `i`-th int of the encoding of `xs` is the encoding of `xs[i]`. */
  lemma {:induction false} IntsBytesAt(xs: seq<int32>, i: nat)
    requires i < |xs|
    ensures IntsBytes(xs)[4 * i..4 * i + 4] == IntBytes(xs[i])
  {
    var n := |xs| - 1;
    var front := IntsBytes(xs[..n]);
    assert IntsBytes(xs) == front + IntBytes(xs[n]);
    if i < n {
      IntsBytesAt(xs[..n], i);
      assert IntsBytes(xs)[4 * i..4 * i + 4] == front[4 * i..4 * i + 4];
    }
  }

  lemma {:induction false} ReservationsBytesAt(rs: seq<Reservation>, i: nat)
    requires i < |rs|
    ensures ReservationsBytes(rs)[8 * i..8 * i + 4] == IntBytes(rs[i].room)
    ensures ReservationsBytes(rs)[8 * i + 4..8 * i + 8] == IntBytes(rs[i].seatNum)
  {
    hide IntBytes;
    var n := |rs| - 1;
    var front := ReservationsBytes(rs[..n]);
    var last := IntBytes(rs[n].room) + IntBytes(rs[n].seatNum);
    assert ReservationsBytes(rs) == front + last;
    if i < n {
      ReservationsBytesAt(rs[..n], i);
      assert ReservationsBytes(rs)[8 * i..8 * i + 4] == front[8 * i..8 * i + 4];
      assert ReservationsBytes(rs)[8 * i + 4..8 * i + 8] == front[8 * i + 4..8 * i + 8];
    } else {
      assert ReservationsBytes(rs)[8 * i..8 * i + 4] == last[..4];
      assert ReservationsBytes(rs)[8 * i + 4..8 * i + 8] == last[4..];
    }
  }

  lemma ReadOneOfInts(host: Host, s: seq<byte>, at: nat, xs: seq<int32>, i: nat)
    requires at + 4 * |xs| <= |s| && s[at..at + 4 * |xs|] == IntsBytes(xs) && i < |xs|
    ensures ReadInt(host, s, at + 4 * i) == xs[i]
  {
    hide ReadInt, IntBytes, IntsBytes;
    IntsBytesAt(xs, i);
    SliceOfSlice(s, at, at + 4 * |xs|, 4 * i, 4 * i + 4);
    ReadIntAt(host, s, at + 4 * i, xs[i]);
  }

  lemma ReadIntsAt(host: Host, s: seq<byte>, at: nat, xs: seq<int32>)
    requires at + 4 * |xs| <= |s| && s[at..at + 4 * |xs|] == IntsBytes(xs)
    ensures ReadInts(host, s, at, |xs|) == xs
  {
    hide ReadInt, IntBytes, IntsBytes;
    forall i | 0 <= i < |xs| ensures ReadInts(host, s, at, |xs|)[i] == xs[i] {
      ReadOneOfInts(host, s, at, xs, i);
    }
  }

  lemma ReadOneOfReservations(host: Host, s: seq<byte>, at: nat, rs: seq<Reservation>, i: nat)
    requires at + 8 * |rs| <= |s| && s[at..at + 8 * |rs|] == ReservationsBytes(rs) && i < |rs|
    ensures ReadInt(host, s, at + 8 * i) == rs[i].room
    ensures ReadInt(host, s, at + 8 * i + 4) == rs[i].seatNum
  {
    hide ReadInt, IntBytes, ReservationsBytes;
    ReservationsBytesAt(rs, i);
    SliceOfSlice(s, at, at + 8 * |rs|, 8 * i, 8 * i + 4);
    SliceOfSlice(s, at, at + 8 * |rs|, 8 * i + 4, 8 * i + 8);
    ReadIntAt(host, s, at + 8 * i, rs[i].room);
    ReadIntAt(host, s, at + 8 * i + 4, rs[i].seatNum);
  }

  lemma ReadReservationsAt(host: Host, s: seq<byte>, at: nat, rs: seq<Reservation>)
    requires at + 8 * |rs| <= |s| && s[at..at + 8 * |rs|] == ReservationsBytes(rs)
    ensures ReadReservations(host, s, at, |rs|) == rs
  {
    hide ReadInt, IntBytes, ReservationsBytes;
    forall i | 0 <= i < |rs| ensures ReadReservations(host, s, at, |rs|)[i] == rs[i] {
      ReadOneOfReservations(host, s, at, rs, i);
    }
  }

  /** What `ntohs` makes of the int written by `htonl`: on a little-endian host, its upper half. */
  lemma ReadShortAt(host: Host, s: seq<byte>, at: nat, x: int16)
    requires at + 4 <= |s| && s[at..at + 4] == IntBytes(x)
    ensures ReadShort(host, s, at) == SeatsSuccessRead(host, x)
  {
    ShortThroughInt(host, x);
  }

  lemma ReadSwappedAt(sender: Host, receiver: Host, s: seq<byte>, at: nat, x: int32)
    requires at + 4 <= |s| && s[at..at + 4] == Store(sender, Unsigned(x))
    ensures ReadInt(receiver, s, at) == SuccessRead(sender, x)
  {
    NtohlLoad(receiver, s[at..at + 4]);
  }

  lemma ReadHeader(sender: Host, receiver: Host, m: Message, s: seq<byte>)
    requires Carries(sender, s, m)
    ensures ReadInt(receiver, s, 0) == m.messageType && ReadInt(receiver, s, 4) == m.clientId
    ensures ChoiceOf(receiver, s) == m.choice
  {
    assert s[0..|Encode(sender, m)|] == Encode(sender, m);
    Pieces(s, 0, Header(m), Body(sender, m.payload));
    Pieces(s, 0, IntBytes(m.messageType) + IntBytes(m.clientId), Split(m.choice));
    Pieces(s, 0, IntBytes(m.messageType), IntBytes(m.clientId));
    ReadIntAt(receiver, s, 0, m.messageType);
    ReadIntAt(receiver, s, 4, m.clientId);
    NtohlLoad(receiver, s[8..12]);
  }

  lemma ReadSeats(receiver: Host, s: seq<byte>, p: Payload)
    requires Matches(CHOICE_SEATS_RESPONSE, p) && |s| == FRAME_SIZE
    requires s[12..12 + 8 + 5 * |p.seatIds| + MAX_LENGTH_STRING]
          == IntBytes(p.seatsSuccess) + IntBytes(p.seatCount) + IntsBytes(p.seatIds) + p.statuses
             + p.seatsInformation
    ensures ReadInt(receiver, s, 16) == p.seatCount
    ensures DecodeSeats(receiver, s)
         == p.(seatsSuccess := SeatsSuccessRead(receiver, p.seatsSuccess))
  {
    hide ReadInt, IntBytes, IntsBytes, ReadShort, SeatsSuccessRead;
    var head := IntBytes(p.seatsSuccess) + IntBytes(p.seatCount);
    Pieces(s, 12, head + IntsBytes(p.seatIds) + p.statuses, p.seatsInformation);
    Pieces(s, 12, head + IntsBytes(p.seatIds), p.statuses);
    Pieces(s, 12, head, IntsBytes(p.seatIds));
    Pieces(s, 12, IntBytes(p.seatsSuccess), IntBytes(p.seatCount));
    ReadShortAt(receiver, s, 12, p.seatsSuccess);
    ReadIntAt(receiver, s, 16, p.seatCount);
    ReadIntsAt(receiver, s, 20, p.seatIds);
  }

  lemma ReadBody(sender: Host, receiver: Host, m: Message, s: seq<byte>)
    requires WellFormed(m) && |s| == FRAME_SIZE && ChoiceOf(receiver, s) == m.choice
    requires var b := Body(sender, m.payload); 12 + |b| <= |s| && s[12..12 + |b|] == b
    ensures Readable(receiver, s)
    ensures DecodePayload(receiver, s) == Delivered(sender, receiver, m).payload
  {
    hide ReadInt, IntBytes, IntsBytes, ReservationsBytes, DecodeSeats, Store, SuccessRead, ChoiceOf;
    match m.payload
    case NoPayload =>
    case Identity(id) => ReadIntAt(receiver, s, 12, id);
    case RoomChoice(room) => ReadIntAt(receiver, s, 12, room);
    case SeatChoice(seat) => ReadIntAt(receiver, s, 12, seat);
    case RoomList(count, ids) =>
      Pieces(s, 12, IntBytes(count), IntsBytes(ids));
      ReadIntAt(receiver, s, 12, count);
      ReadIntsAt(receiver, s, 16, ids);
    case Payment(count, list) =>
      Pieces(s, 12, IntBytes(count), ReservationsBytes(list));
      ReadIntAt(receiver, s, 12, count);
      ReadReservationsAt(receiver, s, 16, list);
    case Outcome(success, information) =>
      Pieces(s, 12, Store(sender, Unsigned(success)), information);
      ReadSwappedAt(sender, receiver, s, 12, success);
    case SeatMap(_, _, _, _, _) =>
      ReadSeats(receiver, s, m.payload);
  }

  /** Reading a frame gives back the message it carries, whatever fills the rest of the frame. */
  lemma RoundTrip(sender: Host, receiver: Host, m: Message, s: seq<byte>)
    requires WellFormed(m) && Carries(sender, s, m)
    ensures Readable(receiver, s) && Decode(receiver, s) == Delivered(sender, receiver, m)
  {
    ReadHeader(sender, receiver, m, s);
    var b := Body(sender, m.payload);
    assert s[0..12 + |b|] == Encode(sender, m);
    Pieces(s, 0, Header(m), b);
    ReadBody(sender, receiver, m, s);
  }

  /** The four bytes of `u` read the same from either end. */
  predicate Palindrome(u: uint32) {
    var s := Split(u);
    s[0] == s[3] && s[1] == s[2]
  }

  /** The condition under which nothing is lost: only `success` is ever at risk. */
  predicate Faithful(sender: Host, receiver: Host, m: Message) {
    match m.payload
    case SeatMap(success, _, _, _, _) => receiver.BigEndian? || success == 0 || success == -1
    case Outcome(success, _) => sender.BigEndian? || Palindrome(Unsigned(success))
    case _ => true
  }

  lemma SwapFixes(u: uint32)
    ensures Swap(u) == u <==> Palindrome(u)
  {
    var s := Split(u);
    SplitJoin(s[3], s[2], s[1], s[0]);
    SplitJoin(s[0], s[1], s[2], s[3]);
  }

  /** The round trip is the identity exactly on the faithful messages. */
  lemma RoundTripIdentity(sender: Host, receiver: Host, m: Message, s: seq<byte>)
    requires WellFormed(m) && Carries(sender, s, m)
    ensures Readable(receiver, s)
    ensures Decode(receiver, s) == m <==> Faithful(sender, receiver, m)
  {
    RoundTrip(sender, receiver, m, s);
    if m.payload.Outcome? {
      var x := m.payload.success;
      SwapFixes(Unsigned(x));
      SignedUnsigned(x);
      assert Signed(Swap(Unsigned(x))) == x <==> Swap(Unsigned(x)) == Unsigned(x);
    }
  }

  /** An outcome that is zero, and only such an outcome, arrives as zero. */
  lemma SuccessKeepsZero(sender: Host, receiver: Host, m: Message, s: seq<byte>)
    requires WellFormed(m) && Carries(sender, s, m) && m.payload.Outcome?
    ensures Readable(receiver, s) && Decode(receiver, s).payload.Outcome?
    ensures Decode(receiver, s).payload.success == 0 <==> m.payload.success == 0
  {
    RoundTrip(sender, receiver, m, s);
    SwapTwice(Unsigned(m.payload.success));
  }

  /** A seat map that says NOT_SUCCESS arrives at a little-endian host saying SUCCESS. */
  lemma FailedSeatMapArrivesAsSuccess(sender: Host, m: Message, s: seq<byte>)
    requires WellFormed(m) && Carries(sender, s, m)
    requires m.payload.SeatMap? && m.payload.seatsSuccess == NOT_SUCCESS
    ensures Readable(LittleEndian, s) && Decode(LittleEndian, s).payload.SeatMap?
    ensures Decode(LittleEndian, s).payload.seatsSuccess == SUCCESS
  {
    RoundTrip(sender, LittleEndian, m, s);
  }
}
