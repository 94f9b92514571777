/**
 Machine integers as the socket layer sees them: fixed-width values, the bytes a host
 keeps them in, and the byte-order conversions of <arpa/inet.h>.
 */
module Bytes {

  type byte = b: int | 0 <= b < 0x100
  type int16 = x: int | -0x8000 <= x < 0x8000
  type uint16 = x: int | 0 <= x < 0x1_0000
  type int32 = x: int | -0x8000_0000 <= x < 0x8000_0000
  type uint32 = x: int | 0 <= x < 0x1_0000_0000

  /** Which end of an integer the host keeps at the lower address. */
  datatype Host = LittleEndian | BigEndian

  /** The conversion of a signed 32-bit value to an unsigned one, modulo 2^32. */
  function Unsigned(x: int32): uint32 {
    if x < 0 then x + 0x1_0000_0000 else x
  }

  /** The two's complement reading of an unsigned 32-bit value. */
  function Signed(u: uint32): int32 {
    if u < 0x8000_0000 then u else u - 0x1_0000_0000
  }

  /** The value of four bytes, most significant byte first. */
  function Join(a: byte, b: byte, c: byte, d: byte): uint32 {
    a * 0x100_0000 + b * 0x1_0000 + c * 0x100 + d
  }

  /** The bytes of `u`, most significant byte first. */
  function Split(u: uint32): (s: seq<byte>)
    ensures |s| == 4 && Join(s[0], s[1], s[2], s[3]) == u
  {
    var q := u / 0x100;
    var r := q / 0x100;
    [r / 0x100, r % 0x100, q % 0x100, u % 0x100]
  }

  /** The bytes at which `host` keeps `u`, lowest address first. */
  function Store(host: Host, u: uint32): (s: seq<byte>)
    ensures |s| == 4
  {
    var s := Split(u);
    if host.BigEndian? then s else [s[3], s[2], s[1], s[0]]
  }

  /** The value `host` reads from four bytes. */
  function Load(host: Host, s: seq<byte>): uint32
    requires |s| == 4
  {
    if host.BigEndian? then Join(s[0], s[1], s[2], s[3]) else Join(s[3], s[2], s[1], s[0])
  }

  /** `htonl` and `ntohl`: the same reversal, or nothing on a big-endian host. */
  function Htonl(host: Host, u: uint32): uint32 {
    if host.BigEndian? then u else Swap(u)
  }

  function Swap(u: uint32): uint32 {
    var s := Split(u);
    Join(s[3], s[2], s[1], s[0])
  }

  /** `ntohs`. */
  function Ntohs(host: Host, v: uint16): uint16 {
    if host.BigEndian? then v else v % 0x100 * 0x100 + v / 0x100
  }

  /** What an `int` becomes as the argument of `ntohs`. */
  function Low16(u: uint32): uint16 {
    u % 0x1_0000
  }

  /** The two's complement reading of sixteen bits. */
  function Signed16(v: uint16): int16 {
    if v < 0x8000 then v else v - 0x1_0000
  }

  /** Four bytes determine, and are determined by, the value they join to. */
  lemma SplitJoin(a: byte, b: byte, c: byte, d: byte)
    ensures Split(Join(a, b, c, d)) == [a, b, c, d]
  {
    var r := a * 0x100 + b;
    var q := r * 0x100 + c;
    assert Join(a, b, c, d) / 0x100 == q && q / 0x100 == r && r / 0x100 == a;
  }

  lemma SwapJoin(a: byte, b: byte, c: byte, d: byte)
    ensures Swap(Join(a, b, c, d)) == Join(d, c, b, a)
  {
    SplitJoin(a, b, c, d);
  }

  lemma SwapTwice(u: uint32)
    ensures Swap(Swap(u)) == u
  {
    var s := Split(u);
    SplitJoin(s[3], s[2], s[1], s[0]);
  }

  /** Storing what `htonl` returns always leaves the bytes in network order. */
  lemma StoreHtonl(host: Host, u: uint32)
    ensures Store(host, Htonl(host, u)) == Split(u)
  {
    if host.LittleEndian? {
      var s := Split(u);
      SplitJoin(s[3], s[2], s[1], s[0]);
    }
  }

  /** `ntohl` of what any host loads reads the bytes in network order. */
  lemma NtohlLoad(host: Host, s: seq<byte>)
    requires |s| == 4
    ensures Htonl(host, Load(host, s)) == Join(s[0], s[1], s[2], s[3])
  {
    SplitJoin(s[3], s[2], s[1], s[0]);
  }

  lemma Low16Join(a: byte, b: byte, c: byte, d: byte)
    ensures Low16(Join(a, b, c, d)) as int == c as int * 0x100 + d
  {
    var high: int, low: int := a, c;
    var q, r := high * 0x100 + b, low * 0x100 + d;
    assert Join(a, b, c, d) == q * 0x1_0000 + r;
  }

  lemma SignExtension(x: int16)
    ensures var s := Split(Unsigned(x)); s[0] == s[1] == if x < 0 then 0xFF else 0
  {
    var u: int := Unsigned(x);
    var q := u / 0x100;
    assert q / 0x100 == if x < 0 then 0xFFFF else 0;
  }

  lemma SignLow16(x: int16)
    ensures Signed16(Low16(Unsigned(x))) == x
  {
    if x < 0 {
      assert (x as int + 0x1_0000_0000) % 0x1_0000 == x + 0x1_0000;
    }
  }

  /** A short widened to an int, stored with `htonl` and read back with `ntohs`. */
  lemma ShortThroughInt(host: Host, x: int16)
    ensures var v := Signed16(Ntohs(host, Low16(Load(host, Split(Unsigned(x))))));
            v == if host.BigEndian? then x else if x < 0 then -1 else 0
  {
    hide Split, Join, Low16, Unsigned;
    var s := Split(Unsigned(x));
    if host.LittleEndian? {
      SignExtension(x);
      Low16Join(s[3], s[2], s[1], s[0]);
    } else {
      SignLow16(x);
    }
  }

  lemma SignedUnsigned(x: int32)
    ensures Signed(Unsigned(x)) == x
  {
  }
}
