/**
 What stands where in a frame of src/network/socket.cpp, told by the bytes alone: the frames that carry a
 message are exactly those with its fields at their offsets, and what is read from a frame is what stands
 there. Numbers stand most significant byte first, but for the one field a sender does not convert, and
 the one a receiver converts by half.
 */
module WireFormat {
  import opened Bytes
  import opened Messages
  import opened Codec

  /** The number of four bytes, the first being the most significant. */
  function Number(a: int, b: int, c: int, d: int): int {
    a * 0x100_0000 + b * 0x1_0000 + c * 0x100 + d
  }

  /** The number in two's complement that stands at `at`, most significant byte first. */
  predicate Stands(s: seq<byte>, at: nat, x: int) {
    && at + 4 <= |s|
    && Number(s[at], s[at + 1], s[at + 2], s[at + 3]) == if x < 0 then x + 0x1_0000_0000 else x
  }

  /** The same, least significant byte first. */
  predicate StandsReversed(s: seq<byte>, at: nat, x: int) {
    && at + 4 <= |s|
    && Number(s[at + 3], s[at + 2], s[at + 1], s[at]) == if x < 0 then x + 0x1_0000_0000 else x
  }

  predicate IntsStand(s: seq<byte>, at: nat, xs: seq<int32>) {
    at + 4 * |xs| <= |s| && forall i :: 0 <= i < |xs| ==> Stands(s, at + 4 * i, xs[i])
  }

  predicate ReservationsStand(s: seq<byte>, at: nat, rs: seq<Reservation>) {
    && at + 8 * |rs| <= |s|
    && forall i :: 0 <= i < |rs| ==> Stands(s, at + 8 * i, rs[i].room) && Stands(s, at + 8 * i + 4, rs[i].seatNum)
  }

  predicate CharsStand(s: seq<byte>, at: nat, cs: seq<byte>) {
    at + |cs| <= |s| && forall i :: 0 <= i < |cs| ==> s[at + i] == cs[i]
  }

  /** The header: type, client id and choice number. */
  predicate HeaderStands(s: seq<byte>, m: Message) {
    && 12 <= |s| && Stands(s, 0, m.messageType) && Stands(s, 4, m.clientId)
    && Number(s[8], s[9], s[10], s[11]) == m.choice
  }

  /** Everything of a payload but `success`, which stands at 12 if there is one. */
  predicate FieldsStand(s: seq<byte>, p: Payload) {
    match p
    case NoPayload => true
    case Identity(id) => Stands(s, 12, id)
    case RoomList(count, ids) => Stands(s, 12, count) && IntsStand(s, 16, ids)
    case RoomChoice(room) => Stands(s, 12, room)
    case SeatMap(_, count, ids, statuses, information) =>
      && Stands(s, 16, count) && IntsStand(s, 20, ids) && CharsStand(s, 20 + 4 * |ids|, statuses)
      && CharsStand(s, 20 + 4 * |ids| + |statuses|, information)
    case SeatChoice(seat) => Stands(s, 12, seat)
    case Outcome(_, information) => CharsStand(s, 16, information)
    case Payment(count, list) => Stands(s, 12, count) && ReservationsStand(s, 16, list)
  }

  /** How a sender writes `success`: that of a seat map converted, that of an outcome as the host keeps it. */
  predicate SuccessIsWritten(sender: Host, s: seq<byte>, p: Payload) {
    && (p.SeatMap? ==> Stands(s, 12, p.seatsSuccess))
    && (p.Outcome? ==> if sender.BigEndian? then Stands(s, 12, p.success) else StandsReversed(s, 12, p.success))
  }

  /** How a receiver reads it: that of an outcome converted, that of a seat map from half of its bytes. */
  predicate SuccessIsRead(receiver: Host, s: seq<byte>, p: Payload) {
    && (p.SeatMap? ==>
          && 16 <= |s|
          && (if receiver.BigEndian? then Number(0, 0, s[14], s[15]) else Number(0, 0, s[12], s[13]))
             == if p.seatsSuccess < 0 then p.seatsSuccess + 0x1_0000 else p.seatsSuccess)
    && (p.Outcome? ==> Stands(s, 12, p.success))
  }

  // ----- stretches of a frame -----

  predicate Holds(s: seq<byte>, at: nat, x: seq<byte>) {
    at + |x| <= |s| && s[at..at + |x|] == x
  }

  lemma HoldsBoth(s: seq<byte>, at: nat, x: seq<byte>, y: seq<byte>)
    ensures Holds(s, at, x + y) <==> Holds(s, at, x) && Holds(s, at + |x|, y)
  {
    if at + |x| + |y| <= |s| {
      var whole, front, back := s[at..at + |x| + |y|], s[at..at + |x|], s[at + |x|..at + |x| + |y|];
      assert whole == front + back;
      if whole == x + y {
        assert front == (x + y)[..|x|] && back == (x + y)[|x|..];
      }
    }
  }

  lemma HoldsNothing(s: seq<byte>, at: nat)
    requires at <= |s|
    ensures Holds(s, at, [])
  {
  }

  lemma HoldsNoInts(s: seq<byte>, at: nat)
    requires at <= |s|
    ensures Holds(s, at, IntsBytes([])) && IntsStand(s, at, [])
    ensures Holds(s, at, ReservationsBytes([])) && ReservationsStand(s, at, [])
  {
  }

  lemma FourBytes(a: byte, b: byte, c: byte, d: byte, u: uint32)
    ensures [a, b, c, d] == Split(u) <==> Number(a, b, c, d) == u
  {
    SplitJoin(a, b, c, d);
  }

  lemma HoldsFour(s: seq<byte>, at: nat, u: uint32)
    ensures Holds(s, at, Split(u)) <==>
              at + 4 <= |s| && Number(s[at], s[at + 1], s[at + 2], s[at + 3]) == u
  {
    if at + 4 <= |s| {
      assert s[at..at + 4] == [s[at], s[at + 1], s[at + 2], s[at + 3]];
      FourBytes(s[at], s[at + 1], s[at + 2], s[at + 3], u);
    }
  }

  lemma HoldsInt(s: seq<byte>, at: nat, x: int32)
    ensures Holds(s, at, IntBytes(x)) <==> Stands(s, at, x)
  {
    HoldsFour(s, at, Unsigned(x));
  }

  lemma HoldsReversed(s: seq<byte>, at: nat, x: int32)
    ensures Holds(s, at, Store(LittleEndian, Unsigned(x))) <==> StandsReversed(s, at, x)
  {
    var w := Split(Unsigned(x));
    assert Store(LittleEndian, Unsigned(x)) == [w[3], w[2], w[1], w[0]];
    if at + 4 <= |s| {
      assert s[at..at + 4] == [s[at], s[at + 1], s[at + 2], s[at + 3]];
      FourBytes(s[at + 3], s[at + 2], s[at + 1], s[at], Unsigned(x));
    }
  }

  lemma IntsStandSnoc(s: seq<byte>, at: nat, xs: seq<int32>, x: int32)
    ensures IntsStand(s, at, xs + [x]) <==> IntsStand(s, at, xs) && Stands(s, at + 4 * |xs|, x)
  {
    assert (xs + [x])[|xs|] == x;
    assert forall i :: 0 <= i < |xs| ==> (xs + [x])[i] == xs[i];
  }

  lemma IntsBytesSnoc(xs: seq<int32>)
    requires xs != []
    ensures var n := |xs| - 1; IntsBytes(xs) == IntsBytes(xs[..n]) + IntBytes(xs[n])
  {
  }

  lemma {:induction false} HoldsInts(s: seq<byte>, at: nat, xs: seq<int32>)
    requires at <= |s|
    ensures Holds(s, at, IntsBytes(xs)) <==> IntsStand(s, at, xs)
  {
    hide Holds, Stands, IntBytes, IntsBytes, IntsStand;
    if xs == [] {
      HoldsNoInts(s, at);
    } else {
      var n := |xs| - 1;
      HoldsInts(s, at, xs[..n]);
      IntsBytesSnoc(xs);
      HoldsBoth(s, at, IntsBytes(xs[..n]), IntBytes(xs[n]));
      HoldsInt(s, at + 4 * n, xs[n]);
      IntsStandSnoc(s, at, xs[..n], xs[n]);
      assert xs == xs[..n] + [xs[n]];
    }
  }

  lemma ReservationsStandSnoc(s: seq<byte>, at: nat, rs: seq<Reservation>, r: Reservation)
    ensures ReservationsStand(s, at, rs + [r]) <==>
              ReservationsStand(s, at, rs) && Stands(s, at + 8 * |rs|, r.room)
              && Stands(s, at + 8 * |rs| + 4, r.seatNum)
  {
    assert (rs + [r])[|rs|] == r;
    assert forall i :: 0 <= i < |rs| ==> (rs + [r])[i] == rs[i];
  }

  lemma ReservationsBytesSnoc(rs: seq<Reservation>)
    requires rs != []
    ensures var n := |rs| - 1;
            ReservationsBytes(rs) == ReservationsBytes(rs[..n]) + (IntBytes(rs[n].room) + IntBytes(rs[n].seatNum))
  {
    hide IntBytes;
  }

  lemma {:induction false} HoldsReservations(s: seq<byte>, at: nat, rs: seq<Reservation>)
    requires at <= |s|
    ensures Holds(s, at, ReservationsBytes(rs)) <==> ReservationsStand(s, at, rs)
  {
    hide Holds, Stands, IntBytes, ReservationsBytes, ReservationsStand;
    if rs == [] {
      HoldsNoInts(s, at);
    } else {
      var n := |rs| - 1;
      HoldsReservations(s, at, rs[..n]);
      ReservationsBytesSnoc(rs);
      HoldsBoth(s, at, ReservationsBytes(rs[..n]), IntBytes(rs[n].room) + IntBytes(rs[n].seatNum));
      HoldsBoth(s, at + 8 * n, IntBytes(rs[n].room), IntBytes(rs[n].seatNum));
      HoldsInt(s, at + 8 * n, rs[n].room);
      HoldsInt(s, at + 8 * n + 4, rs[n].seatNum);
      ReservationsStandSnoc(s, at, rs[..n], rs[n]);
      assert rs == rs[..n] + [rs[n]];
    }
  }

  lemma HoldsChars(s: seq<byte>, at: nat, cs: seq<byte>)
    ensures Holds(s, at, cs) <==> CharsStand(s, at, cs)
  {
    if at + |cs| <= |s| {
      var stretch := s[at..at + |cs|];
      if CharsStand(s, at, cs) {
        assert forall i :: 0 <= i < |cs| ==> stretch[i] == cs[i];
      } else {
        var i :| 0 <= i < |cs| && s[at + i] != cs[i];
        assert stretch[i] != cs[i];
      }
    }
  }

  // ----- what is written -----

  lemma HoldsHeader(s: seq<byte>, m: Message)
    ensures Holds(s, 0, Header(m)) <==> HeaderStands(s, m)
  {
    hide Holds, IntBytes, Stands, Split, Number;
    HoldsBoth(s, 0, IntBytes(m.messageType) + IntBytes(m.clientId), Split(m.choice));
    HoldsBoth(s, 0, IntBytes(m.messageType), IntBytes(m.clientId));
    HoldsInt(s, 0, m.messageType);
    HoldsInt(s, 4, m.clientId);
    HoldsFour(s, 8, m.choice);
  }

  lemma HoldsSeats(sender: Host, s: seq<byte>, p: Payload)
    requires p.SeatMap? && |s| >= 20
    ensures Holds(s, 12, Body(sender, p)) <==> FieldsStand(s, p) && Stands(s, 12, p.seatsSuccess)
  {
    hide Holds, IntBytes, IntsBytes, Stands, IntsStand, CharsStand;
    var success, count, ids := IntBytes(p.seatsSuccess), IntBytes(p.seatCount), IntsBytes(p.seatIds);
    HoldsBoth(s, 12, success + count + ids + p.statuses, p.seatsInformation);
    HoldsBoth(s, 12, success + count + ids, p.statuses);
    HoldsBoth(s, 12, success + count, ids);
    HoldsBoth(s, 12, success, count);
    HoldsInt(s, 12, p.seatsSuccess);
    HoldsInt(s, 16, p.seatCount);
    HoldsInts(s, 20, p.seatIds);
    HoldsChars(s, 20 + 4 * |p.seatIds|, p.statuses);
    HoldsChars(s, 20 + 4 * |p.seatIds| + |p.statuses|, p.seatsInformation);
  }

  lemma HoldsOutcome(sender: Host, s: seq<byte>, p: Payload)
    requires p.Outcome?
    ensures Holds(s, 12, Body(sender, p)) <==> FieldsStand(s, p) && SuccessIsWritten(sender, s, p)
  {
    var success := Store(sender, Unsigned(p.success));
    assert sender.BigEndian? ==> success == IntBytes(p.success);
    hide Holds, IntBytes, Store, CharsStand, Stands, StandsReversed;
    HoldsBoth(s, 12, success, p.information);
    HoldsInt(s, 12, p.success);
    HoldsReversed(s, 12, p.success);
    HoldsChars(s, 16, p.information);
  }

  /** The encoding of a payload is behind the header exactly if its fields stand at their offsets. */
  lemma HoldsBody(sender: Host, s: seq<byte>, p: Payload)
    requires |s| >= 20
    ensures Holds(s, 12, Body(sender, p)) <==> FieldsStand(s, p) && SuccessIsWritten(sender, s, p)
  {
    hide Holds, IntBytes, IntsBytes, ReservationsBytes, Store, Stands, StandsReversed, IntsStand, ReservationsStand,
         CharsStand;
    match p
    case NoPayload => HoldsNothing(s, 12);
    case Outcome(_, _) => HoldsOutcome(sender, s, p);
    case SeatMap(_, _, _, _, _) => HoldsSeats(sender, s, p);
    case Identity(id) => HoldsInt(s, 12, id);
    case RoomChoice(room) => HoldsInt(s, 12, room);
    case SeatChoice(seat) => HoldsInt(s, 12, seat);
    case RoomList(count, ids) =>
      HoldsBoth(s, 12, IntBytes(count), IntsBytes(ids));
      HoldsInt(s, 12, count);
      HoldsInts(s, 16, ids);
    case Payment(count, list) =>
      HoldsBoth(s, 12, IntBytes(count), ReservationsBytes(list));
      HoldsInt(s, 12, count);
      HoldsReservations(s, 16, list);
  }

  /** A frame carries a message exactly if every field of the message stands at its offset. */
  lemma CarriesIff(sender: Host, s: seq<byte>, m: Message)
    ensures Carries(sender, s, m) <==>
              |s| == 4024 && HeaderStands(s, m) && FieldsStand(s, m.payload) && SuccessIsWritten(sender, s, m.payload)
  {
    assert |s| == FRAME_SIZE ==> (Carries(sender, s, m) <==> Holds(s, 0, Encode(sender, m)));
    hide Holds, Header, Body, HeaderStands, FieldsStand, SuccessIsWritten;
    HoldsBoth(s, 0, Header(m), Body(sender, m.payload));
    HoldsHeader(s, m);
    if |s| == FRAME_SIZE {
      HoldsBody(sender, s, m.payload);
    }
  }

  // ----- what is read -----

  lemma StandsRead(host: Host, s: seq<byte>, at: nat)
    requires at + 4 <= |s|
    ensures Stands(s, at, ReadInt(host, s, at))
  {
    assert s[at..at + 4] == [s[at], s[at + 1], s[at + 2], s[at + 3]];
    NtohlLoad(host, s[at..at + 4]);
  }

  lemma IntsRead(host: Host, s: seq<byte>, at: nat, n: nat)
    requires at + 4 * n <= |s|
    ensures IntsStand(s, at, ReadInts(host, s, at, n))
  {
    forall i | 0 <= i < n ensures Stands(s, at + 4 * i, ReadInts(host, s, at, n)[i]) {
      StandsRead(host, s, at + 4 * i);
    }
  }

  lemma ReservationsRead(host: Host, s: seq<byte>, at: nat, n: nat)
    requires at + 8 * n <= |s|
    ensures ReservationsStand(s, at, ReadReservations(host, s, at, n))
  {
    var rs := ReadReservations(host, s, at, n);
    forall i | 0 <= i < n ensures Stands(s, at + 8 * i, rs[i].room) && Stands(s, at + 8 * i + 4, rs[i].seatNum) {
      StandsRead(host, s, at + 8 * i);
      StandsRead(host, s, at + 8 * i + 4);
    }
  }

  lemma HalvesSwapped(host: Host, high: byte, low: byte, v: uint16)
    requires host.LittleEndian? && v == Number(0, 0, high, low)
    ensures Ntohs(host, v) == Number(0, 0, low, high)
  {
    assert v / 0x100 == high && v % 0x100 == low;
  }

  lemma ShortRead(host: Host, s: seq<byte>, at: nat)
    requires at + 4 <= |s|
    ensures var x := ReadShort(host, s, at);
            (if host.BigEndian? then Number(0, 0, s[at + 2], s[at + 3]) else Number(0, 0, s[at], s[at + 1]))
            == if x < 0 then x + 0x1_0000 else x
  {
    var w := s[at..at + 4];
    assert w == [s[at], s[at + 1], s[at + 2], s[at + 3]];
    var v := Low16(Load(host, w));
    if host.BigEndian? {
      Low16Join(w[0], w[1], w[2], w[3]);
      assert v == Number(0, 0, w[2], w[3]);
    } else {
      Low16Join(w[3], w[2], w[1], w[0]);
      assert v == Number(0, 0, w[1], w[0]);
      HalvesSwapped(host, w[1], w[0], v);
    }
    hide Load, Low16, Number;
  }

  lemma HeaderRead(receiver: Host, s: seq<byte>)
    requires Readable(receiver, s)
    ensures HeaderStands(s, Decode(receiver, s))
  {
    StandsRead(receiver, s, 0);
    StandsRead(receiver, s, 4);
    assert s[8..12] == [s[8], s[9], s[10], s[11]];
    NtohlLoad(receiver, s[8..12]);
    hide DecodePayload, Stands;
  }

  lemma SeatsRead(receiver: Host, s: seq<byte>)
    requires |s| == FRAME_SIZE && ReadInt(receiver, s, 16) <= MAX_SEATS
    ensures var p := DecodeSeats(receiver, s);
            Matches(CHOICE_SEATS_RESPONSE, p) && FieldsStand(s, p) && SuccessIsRead(receiver, s, p)
  {
    hide ReadInt, ReadShort, Stands;
    var n := Iterations(ReadInt(receiver, s, 16));
    StandsRead(receiver, s, 16);
    IntsRead(receiver, s, 20, n);
    ShortRead(receiver, s, 12);
  }

  lemma PayloadRead(receiver: Host, s: seq<byte>)
    requires Readable(receiver, s)
    ensures var p := DecodePayload(receiver, s);
            Matches(ChoiceOf(receiver, s), p) && FieldsStand(s, p) && SuccessIsRead(receiver, s, p)
  {
    hide ReadInt, DecodeSeats, Stands, IntsStand, ReservationsStand;
    var choice := ChoiceOf(receiver, s);
    StandsRead(receiver, s, 12);
    if choice == CHOICE_ROOMS_RESPONSE {
      IntsRead(receiver, s, 16, Iterations(ReadInt(receiver, s, 12)));
    } else if choice == CHOICE_SEATS_RESPONSE {
      SeatsRead(receiver, s);
    } else if choice == CHOICE_PAY_RESERVATION_REQUEST {
      ReservationsRead(receiver, s, 16, Iterations(ReadInt(receiver, s, 12)));
    }
  }

  /** What a receiver makes of a frame is what stands there, and it is the payload the choice number selects. */
  lemma DecodedStands(receiver: Host, s: seq<byte>)
    requires Readable(receiver, s)
    ensures var m := Decode(receiver, s);
            WellFormed(m) && HeaderStands(s, m) && FieldsStand(s, m.payload) && SuccessIsRead(receiver, s, m.payload)
  {
    HeaderRead(receiver, s);
    PayloadRead(receiver, s);
  }
}
