/** Network byte order for the 32-bit header fields.
    The header stores `sequence_number` and `ack_number` through `htonl`
    and reads them back through `ntohl`: the most significant byte goes first. */
module Wire {

  type byte = b: int | 0 <= b < 0x100

  type u32 = x: int | 0 <= x < 0x1_0000_0000

  /** The value of big-endian digits in base 256. */
  function Value(b: seq<byte>): (x: nat)
  {
    if b == [] then 0 else Value(b[..|b| - 1]) * 0x100 + b[|b| - 1] as int
  }

  /** The four bytes of `x`, most significant first (`htonl`). */
  function Htonl(x: u32): (b: seq<byte>)
    ensures |b| == 4
    ensures Value(b) == x
  {
    var b := [x / 0x100 / 0x100 / 0x100, x / 0x100 / 0x100 % 0x100, x / 0x100 % 0x100, x % 0x100];
    assert Value(b[..1]) == x / 0x100 / 0x100 / 0x100;
    assert b[..2][..1] == b[..1];
    assert Value(b[..2]) == x / 0x100 / 0x100;
    assert b[..3][..2] == b[..2];
    assert Value(b[..3]) == x / 0x100;
    assert b[..4] == b;
    b
  }

  /** The host value of four bytes in network order (`ntohl`). */
  function Ntohl(b: seq<byte>): (x: u32)
    requires |b| == 4
    ensures x == Value(b)
    ensures x % 0x100 == b[3]
  {
    assert Value(b[..1]) == b[0] as int;
    assert b[..2][..1] == b[..1];
    assert Value(b[..2]) == b[0] as int * 0x100 + b[1] as int;
    assert b[..3][..2] == b[..2];
    assert Value(b[..3]) < 0x100_0000;
    assert b[..4] == b;
    Value(b)
  }

  /** Reading back a field written in network order gives the value written. */
  lemma NtohlHtonl(x: u32)
    ensures Ntohl(Htonl(x)) == x
  {
  }

  /** Every four-byte field is the network form of the value read from it. */
  lemma HtonlNtohl(b: seq<byte>)
    requires |b| == 4
    ensures Htonl(Ntohl(b)) == b
  {
    var x := Ntohl(b);
    var hi := b[0] as int * 0x100 + b[1] as int;
    var mid := hi * 0x100 + b[2] as int;
    assert Value(b[..1]) == b[0] as int;
    assert b[..2][..1] == b[..1];
    assert Value(b[..2]) == hi;
    assert b[..3][..2] == b[..2];
    assert Value(b[..3]) == mid;
    assert b[..4] == b;
    assert x == mid * 0x100 + b[3] as int;
    assert x / 0x100 == mid && x % 0x100 == b[3] as int;
    assert mid / 0x100 == hi && mid % 0x100 == b[2] as int;
    assert hi / 0x100 == b[0] as int && hi % 0x100 == b[1] as int;
  }
}
