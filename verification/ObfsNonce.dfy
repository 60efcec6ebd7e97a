/** The counter-to-nonce map of the RTP-like packet wrapper (go_client/obfs.go).
    Sequence number and timestamp are computed in 16-bit and 32-bit wrap-around arithmetic. */
module ObfsNonce {
  import opened Base

  const TWO16: int := 0x1_0000
  const TWO32: int := 0x1_0000_0000
  const TWO48: int := 0x1_0000_0000_0000

  type uint16 = x: int | 0 <= x < 0x1_0000
  type uint32 = x: int | 0 <= x < 0x1_0000_0000
  type uint64 = x: int | 0 <= x < 0x1_0000_0000_0000_0000

  /** RTP sequence number of the packet with counter `c`. */
  function SeqOf(initSeq: uint16, c: uint64): (seq16: uint16) {
    (initSeq + c % TWO16) % TWO16
  }

  /** RTP timestamp of the packet with counter `c`: 960 ticks a packet, one extra per 2^16 packets. */
  function TsOf(initTs: uint32, c: uint64): (ts: uint32) {
    (initTs + (c % TWO32 * 960) % TWO32 + (c / TWO16) % TWO32) % TWO32
  }

  function PutUint16(v: uint16): (bytes: seq<byte>)
    ensures |bytes| == 2
  {
    [v / 256, v % 256]
  }

  function PutUint32(v: uint32): (bytes: seq<byte>)
    ensures |bytes| == 4
  {
    PutUint16(v / TWO16) + PutUint16(v % TWO16)
  }

  function Uint16(bytes: seq<byte>): (v: uint16)
    requires |bytes| == 2
  {
    (bytes[0] as int) * 256 + bytes[1]
  }

  function Uint32(bytes: seq<byte>): (v: uint32)
    requires |bytes| == 4
  {
    Uint16(bytes[..2]) * TWO16 + Uint16(bytes[2..])
  }

  /** Reading back a big-endian 32-bit field yields the value written. */
  lemma Uint32RoundTrip(v: uint32)
    ensures Uint32(PutUint32(v)) == v
  {
    var b := PutUint32(v);
    assert b[..2] == PutUint16(v / TWO16);
    assert b[2..] == PutUint16(v % TWO16);
  }

  /** The 12-byte AEAD nonce: SSRC, sequence number, two zero bytes, timestamp. */
  function Nonce(ssrc: uint32, seq16: uint16, ts: uint32): (n: seq<byte>)
    ensures |n| == 12
  {
    PutUint32(ssrc) + PutUint16(seq16) + [0, 0] + PutUint32(ts)
  }

  function PacketNonce(ssrc: uint32, initSeq: uint16, initTs: uint32, c: uint64): (n: seq<byte>) {
    Nonce(ssrc, SeqOf(initSeq, c), TsOf(initTs, c))
  }

  lemma NonceInjective(ssrc1: uint32, seq1: uint16, ts1: uint32, ssrc2: uint32, seq2: uint16, ts2: uint32)
    requires Nonce(ssrc1, seq1, ts1) == Nonce(ssrc2, seq2, ts2)
    ensures ssrc1 == ssrc2 && seq1 == seq2 && ts1 == ts2
  {
    var n1, n2 := Nonce(ssrc1, seq1, ts1), Nonce(ssrc2, seq2, ts2);
    assert n1[0..4] == PutUint32(ssrc1) && n2[0..4] == PutUint32(ssrc2);
    assert n1[4..6] == PutUint16(seq1) && n2[4..6] == PutUint16(seq2);
    assert n1[8..12] == PutUint32(ts1) && n2[8..12] == PutUint32(ts2);
    Uint32RoundTrip(ssrc1); Uint32RoundTrip(ssrc2);
    Uint32RoundTrip(ts1); Uint32RoundTrip(ts2);
    assert Uint16(PutUint16(seq1)) == seq1 && Uint16(PutUint16(seq2)) == seq2;
  }

  /** Two timestamps agree exactly when 960*low + high does, modulo 2^32. */
  lemma TsDifference(initTs: uint32, c1: uint64, c2: uint64)
    ensures TsOf(initTs, c1) == TsOf(initTs, c2)
       <==> (960 * (c1 - c2) + (c1 / TWO16 - c2 / TWO16)) % TWO32 == 0
  {
    var p1, q1 := c1 % TWO32 * 960, c1 / TWO16;
    var p2, q2 := c2 % TWO32 * 960, c2 / TWO16;
    var s1 := initTs + p1 % TWO32 + q1 % TWO32;
    var s2 := initTs + p2 % TWO32 + q2 % TWO32;
    assert s1 % TWO32 == s2 % TWO32 <==> (s1 - s2) % TWO32 == 0 by { SameResidue(s1, s2, TWO32); }
    var d := 960 * (c1 - c2) + (q1 - q2);
    var k := (s1 - s2) - d;
    var m := -960 * (c1 / TWO32) - p1 / TWO32 - q1 / TWO32
             + 960 * (c2 / TWO32) + p2 / TWO32 + q2 / TWO32;
    assert s1 - s2 == d + m * TWO32;
    AddMultiple(d, m, TWO32);
  }

  lemma SameResidue(a: int, b: int, m: int)
    requires m > 0
    ensures a % m == b % m <==> (a - b) % m == 0
  {
    var qa, qb := a / m, b / m;
    assert a == qa * m + a % m && b == qb * m + b % m;
    var r := a % m - b % m;
    assert a - b == (qa - qb) * m + r;
    if r >= 0 {
      RemainderUnique(a - b, qa - qb, r, m);
    } else {
      assert a - b == (qa - qb - 1) * m + (r + m);
      RemainderUnique(a - b, qa - qb - 1, r + m, m);
    }
  }

  lemma AddMultiple(x: int, q: int, m: int)
    requires m > 0
    ensures (x + q * m) % m == x % m
  {
    assert x + q * m == (x / m + q) * m + x % m;
    RemainderUnique(x + q * m, x / m + q, x % m, m);
  }

  /** 960*2^16 + 1 = 1 + 15*2^22 is a unit modulo 2^32: its inverse is 1 - 15*2^22. */
  lemma StrideIsInvertible(d: int)
    ensures ((960 * TWO16 + 1) * d) % TWO32 == 0 <==> d % TWO32 == 0
  {
    var a := 960 * TWO16 + 1;
    var inverse := 1 - 15 * 0x40_0000;
    var e := a * d;
    if e % TWO32 == 0 {
      var q := e / TWO32;
      assert a * inverse == 1 - 225 * 0x1000 * TWO32;
      assert inverse * e == (a * inverse) * d;
      assert inverse * e == d - (225 * 0x1000 * d) * TWO32;
      assert d == (inverse * q + 225 * 0x1000 * d) * TWO32;
      RemainderUnique(d, inverse * q + 225 * 0x1000 * d, 0, TWO32);
    }
    if d % TWO32 == 0 {
      var q := d / TWO32;
      assert e == (a * q) * TWO32;
      RemainderUnique(e, a * q, 0, TWO32);
    }
  }

  /** From the initial values the sequence number goes up by one a packet, and the timestamp by 960, with one more each
      time the low 16 bits of the counter start over. */
  lemma CountsUp(initSeq: uint16, initTs: uint32, c: uint64)
    requires c + 1 < 0x1_0000_0000_0000_0000
    ensures SeqOf(initSeq, 0) == initSeq && TsOf(initTs, 0) == initTs
    ensures SeqOf(initSeq, c + 1) == (SeqOf(initSeq, c) + 1) % 0x1_0000
    ensures TsOf(initTs, c + 1) == (TsOf(initTs, c) + 960 + (if (c + 1) % 0x1_0000 == 0 then 1 else 0)) % 0x1_0000_0000
  {
    SeqCountsUp(initSeq, c);
    TsCountsUp(initTs, c);
  }

  lemma SeqCountsUp(initSeq: uint16, c: uint64)
    requires c + 1 < 0x1_0000_0000_0000_0000
    ensures SeqOf(initSeq, 0) == initSeq && SeqOf(initSeq, c + 1) == (SeqOf(initSeq, c) + 1) % 0x1_0000
  {
    var x, y := initSeq + (c + 1) % TWO16, SeqOf(initSeq, c) + 1;
    RemainderUnique(initSeq, 0, initSeq, TWO16);
    var qx, q1, q := (c + 1) / TWO16, c / TWO16, (initSeq + c % TWO16) / TWO16;
    assert x - y == (q1 - qx + q) * TWO16;
    AddMultiple(y, q1 - qx + q, TWO16);
  }

  lemma TsCountsUp(initTs: uint32, c: uint64)
    requires c + 1 < 0x1_0000_0000_0000_0000
    ensures TsOf(initTs, 0) == initTs
    ensures TsOf(initTs, c + 1) == (TsOf(initTs, c) + 960 + (if (c + 1) % 0x1_0000 == 0 then 1 else 0)) % 0x1_0000_0000
  {
    var step := if (c + 1) % TWO16 == 0 then 1 else 0;
    RemainderUnique(initTs, 0, initTs, TWO32);
    HighCountsUp(c);
    TsUnwrapped(initTs, c);
    TsUnwrapped(initTs, c + 1);
    var full := initTs + 960 * c + c / TWO16;
    assert initTs + 960 * (c + 1) + (c + 1) / TWO16 == full + 960 + step;
    SameResidue(full + 960 + step, TsOf(initTs, c) + 960 + step, TWO32);
    var q := full / TWO32;
    assert full - TsOf(initTs, c) == q * TWO32;
    RemainderUnique(q * TWO32, q, 0, TWO32);
  }

  lemma HighCountsUp(c: uint64)
    requires c + 1 < 0x1_0000_0000_0000_0000
    ensures (c + 1) / TWO16 == c / TWO16 + if (c + 1) % TWO16 == 0 then 1 else 0
  {
  }

  /** The timestamp without the intermediate wrap-arounds. */
  lemma TsUnwrapped(initTs: uint32, c: uint64)
    ensures TsOf(initTs, c) == (initTs + 960 * c + c / TWO16) % TWO32
  {
    var low, high := c % TWO32 * 960, c / TWO16;
    var q := 960 * (c / TWO32) + low / TWO32 + high / TWO32;
    assert initTs + 960 * c + high == (initTs + low % TWO32 + high % TWO32) + q * TWO32;
    AddMultiple(initTs + low % TWO32 + high % TWO32, q, TWO32);
  }

  lemma SeqAgrees(initSeq: uint16, c1: uint64, c2: uint64)
    ensures SeqOf(initSeq, c1) == SeqOf(initSeq, c2) <==> c1 % TWO16 == c2 % TWO16
  {
    var r1, r2 := c1 % TWO16, c2 % TWO16;
    SameResidue(initSeq + r1, initSeq + r2, TWO16);
    SameResidue(r1, r2, TWO16);
    RemainderUnique(r1, 0, r1, TWO16);
    RemainderUnique(r2, 0, r2, TWO16);
  }

  /** With equal low halves, timestamps agree exactly when the high parts differ by a multiple of 2^32. */
  lemma TsAgrees(initTs: uint32, c1: uint64, c2: uint64)
    requires c1 % TWO16 == c2 % TWO16
    ensures TsOf(initTs, c1) == TsOf(initTs, c2) <==> c1 % TWO48 == c2 % TWO48
  {
    var h := c1 / TWO16 - c2 / TWO16;
    assert c1 - c2 == TWO16 * h;
    assert 960 * (c1 - c2) + h == (960 * TWO16 + 1) * h;
    TsDifference(initTs, c1, c2);
    StrideIsInvertible(h);
    ScaleResidue(h);
    SameResidue(c1, c2, TWO48);
  }

  lemma LowHalfOf48(c: uint64)
    ensures (c % TWO48) % TWO16 == c % TWO16
  {
    var q := c / TWO48;
    assert c % TWO48 == c + (-q * TWO32) * TWO16;
    AddMultiple(c, -q * TWO32, TWO16);
  }

  /** For every initial sequence number and timestamp, two counters produce the same nonce
      exactly when they agree modulo 2^48, although seq wraps every 2^16 and ts every 2^32. */
  lemma NonceRepeatsExactlyEvery2To48(ssrc: uint32, initSeq: uint16, initTs: uint32, c1: uint64, c2: uint64)
    ensures PacketNonce(ssrc, initSeq, initTs, c1) == PacketNonce(ssrc, initSeq, initTs, c2)
       <==> c1 % TWO48 == c2 % TWO48
  {
    SeqAgrees(initSeq, c1, c2);
    LowHalfOf48(c1);
    LowHalfOf48(c2);
    if c1 % TWO16 == c2 % TWO16 {
      TsAgrees(initTs, c1, c2);
    }
    if PacketNonce(ssrc, initSeq, initTs, c1) == PacketNonce(ssrc, initSeq, initTs, c2) {
      NonceInjective(ssrc, SeqOf(initSeq, c1), TsOf(initTs, c1), ssrc, SeqOf(initSeq, c2), TsOf(initTs, c2));
    }
  }

  lemma ScaleResidue(h: int)
    ensures h % TWO32 == 0 <==> (TWO16 * h) % TWO48 == 0
  {
    var q, r := h / TWO32, h % TWO32;
    assert TWO16 * h == q * TWO48 + TWO16 * r;
    RemainderUnique(TWO16 * h, q, TWO16 * r, TWO48);
  }

  /** Below 2^48 packets, no nonce is used twice under one key and SSRC. */
  lemma NoncesDistinctBelow2To48(ssrc: uint32, initSeq: uint16, initTs: uint32, c1: uint64, c2: uint64)
    requires c1 < TWO48 && c2 < TWO48 && c1 != c2
    ensures PacketNonce(ssrc, initSeq, initTs, c1) != PacketNonce(ssrc, initSeq, initTs, c2)
  {
    RemainderUnique(c1, 0, c1, TWO48);
    RemainderUnique(c2, 0, c2, TWO48);
    NonceRepeatsExactlyEvery2To48(ssrc, initSeq, initTs, c1, c2);
  }
}
