/** Go's encoding/binary big-endian order for 32-bit values, and Go's int-to-uint32 conversion. */
module Wire {
  import opened Prelude

  /** binary.BigEndian.Uint32: the first four bytes, most significant first (extra bytes are ignored). */
  function Uint32(b: seq<byte>): uint32
    requires |b| >= 4
  {
    (b[0] as int) * 0x100_0000 + (b[1] as int) * 0x1_0000 + (b[2] as int) * 0x100 + b[3] as int
  }

  /** binary.BigEndian.PutUint32 into a four-byte buffer. */
  function PutUint32(n: uint32): seq<byte>
  {
    [n / 0x100_0000, (n / 0x1_0000) % 0x100, (n / 0x100) % 0x100, n % 0x100]
  }

  /** Go's conversion uint32(n) of a 64-bit int: the low 32 bits of its two's-complement form. */
  function ToUint32(n: int): (r: uint32)
    ensures 0 <= n < 0x1_0000_0000 ==> r == n
    ensures (r - n) % 0x1_0000_0000 == 0
  {
    n % 0x1_0000_0000
  }

  /** Reading back what PutUint32 wrote gives the value written. */
  lemma ReadWritten(n: uint32)
    ensures |PutUint32(n)| == 4
    ensures Uint32(PutUint32(n)) == n
  {
    var b := PutUint32(n);
    var q1, q2, q3 := n / 0x100, n / 0x1_0000, n / 0x100_0000;
    assert n == q1 * 0x100 + b[3];
    assert q1 == q2 * 0x100 + b[2];
    assert q2 == q3 * 0x100 + b[1];
    assert b[0] == q3;
  }

  /** Writing what Uint32 read gives back the four bytes read: the two are inverse bijections. */
  lemma WriteRead(b: seq<byte>)
    requires |b| == 4
    ensures PutUint32(Uint32(b)) == b
  {
    var n := Uint32(b);
    assert n / 0x100 == (b[0] as int) * 0x1_0000 + (b[1] as int) * 0x100 + b[2] as int;
    assert n / 0x1_0000 == (b[0] as int) * 0x100 + b[1] as int;
    assert n / 0x100_0000 == b[0];
  }
}
