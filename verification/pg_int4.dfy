/**
 * PostgreSQL's binary wire format for `int4`: four bytes, big-endian two's complement.
 * An `int4` value of any other length is rejected by the receiving side.
 */
module PgInt4 {
  import opened Wrappers

  newtype byte = x: int | 0 <= x < 256

  const Two32: int := 0x1_0000_0000

  /** The unsigned 32-bit pattern of a signed value. */
  function Unsigned(x: i32): (u: int)
    ensures 0 <= u < Two32
    ensures u % Two32 == x as int % Two32
  {
    if x < 0 then x as int + Two32 else x as int
  }

  /** The signed value of a 32-bit pattern. */
  function Signed(u: int): (x: i32)
    requires 0 <= u < Two32
    ensures Unsigned(x) == u
  {
    if u >= 0x8000_0000 then (u - Two32) as i32 else u as i32
  }

  /** The four bytes of `x`, most significant first. */
  function Int4ToWire(x: i32): (b: seq<byte>)
    ensures |b| == 4
  {
    var u := Unsigned(x);
    [(u / 0x100_0000) as byte, (u / 0x1_0000 % 0x100) as byte, (u / 0x100 % 0x100) as byte, (u % 0x100) as byte]
  }

  /** Reading an `int4` value: exactly four bytes, or an error. */
  function Int4FromWire(b: seq<byte>): (r: Option<i32>)
    ensures r.Some? <==> |b| == 4
  {
    if |b| != 4 then None
    else Some(Signed(b[0] as int * 0x100_0000 + b[1] as int * 0x1_0000 + b[2] as int * 0x100 + b[3] as int))
  }

  /** Splitting a 32-bit pattern into bytes and joining them gives the pattern back. */
  lemma BytesRecompose(u: int)
    requires 0 <= u < Two32
    ensures (u / 0x100_0000) * 0x100_0000 + (u / 0x1_0000 % 0x100) * 0x1_0000
            + (u / 0x100 % 0x100) * 0x100 + u % 0x100 == u
  {
    var a := u / 0x100;
    assert u == a * 0x100 + u % 0x100;
    var c := a / 0x100;
    assert a == c * 0x100 + a % 0x100;
    assert a % 0x100 == u / 0x100 % 0x100;
    assert c == u / 0x1_0000;
    assert c == (c / 0x100) * 0x100 + c % 0x100;
    assert c / 0x100 == u / 0x100_0000;
  }

  /** Every `int4` value survives the wire. */
  lemma Int4RoundTrip(x: i32)
    ensures Int4FromWire(Int4ToWire(x)) == Some(x)
  {
    BytesRecompose(Unsigned(x));
  }
}
