/** RTP-like packet wrapping (go_client/obfs.go):
    12-byte header of section 5.1 of RFC 3550, AEAD ciphertext, random padding, padding length.
    The AEAD is a parameter; `AeadLaw` is all that is assumed of it. */
module ObfsPacket {
  import opened Base
  import opened ObfsNonce

  const KEY_LEN: nat := 32
  const HEADER_LEN: nat := 12
  const OVERHEAD: nat := 16
  const TWO64: int := 0x1_0000_0000_0000_0000

  datatype Error =
    | BadKey | EmptyPayload | TooShort | NotRtp | BadPadding | NoPayload | DstTooSmall | AuthFailed

  datatype Result<+T> = Ok(value: T) | Err(error: Error)

  datatype Config = Config(ssrc: uint32, payloadType: byte, paddingMax: int)

  /** seal and open take key, nonce, text and associated data. */
  datatype Aead = Aead(
    seal: (seq<byte>, seq<byte>, seq<byte>, seq<byte>) -> seq<byte>,
    open: (seq<byte>, seq<byte>, seq<byte>, seq<byte>) -> Option<seq<byte>>)

  /** Seal adds 16 bytes, Open inverts Seal, and whatever Open accepts is 16 bytes shorter. */
  ghost predicate AeadLaw(a: Aead) {
    && (forall k, n, p, ad :: |a.seal(k, n, p, ad)| == |p| + OVERHEAD)
    && (forall k, n, p, ad :: a.open(k, n, a.seal(k, n, p, ad), ad) == Some(p))
    && (forall k, n, c, ad :: a.open(k, n, c, ad).Some? ==> |a.open(k, n, c, ad).value| + OVERHEAD == |c|)
  }

  /** Number of random padding bytes drawn; `rnd` is the random byte. */
  function PadRand(cfg: Config, rnd: byte): (p: nat)
    ensures p < 256
    ensures 0 < cfg.paddingMax <= 255 ==> p < 255
  {
    if cfg.paddingMax > 0 then rnd % cfg.paddingMax else 0
  }

  function Header(cfg: Config, seq16: uint16, ts: uint32): (h: seq<byte>)
    ensures |h| == HEADER_LEN
  {
    [0xA0, cfg.payloadType % 128] + PutUint16(seq16) + PutUint32(ts) + PutUint32(cfg.ssrc)
  }

  /** The bytes on the wire for packet number `c`. The length byte keeps only the low 8 bits. */
  function WireBytes(a: Aead, key: seq<byte>, payload: seq<byte>, cfg: Config, initSeq: uint16, initTs: uint32,
                     c: uint64, padding: seq<byte>): (w: seq<byte>)
  {
    var h := Header(cfg, SeqOf(initSeq, c), TsOf(initTs, c));
    h + a.seal(key, PacketNonce(cfg.ssrc, initSeq, initTs, c), payload, h)
      + padding + [(|padding| + 1) % 256]
  }

  predicate IsRtpPacket(wire: seq<byte>) {
    |wire| >= 13 && wire[0] / 64 == 2 && (wire[1] % 128 == 111 || wire[1] % 128 == 96)
  }

  /** End of the ciphertext: the padding bit of byte 0 decides whether the last byte counts padding. */
  function PayloadEnd(wire: seq<byte>): (r: Result<nat>)
    requires |wire| >= 13
    ensures r.Ok? ==> HEADER_LEN <= r.value <= |wire|
  {
    if (wire[0] / 32) % 2 == 1 then
      var padLen := wire[|wire| - 1];
      if padLen == 0 || padLen > |wire| - HEADER_LEN then Err(BadPadding) else Ok(|wire| - padLen)
    else Ok(|wire|)
  }

  function WireNonce(wire: seq<byte>): (n: seq<byte>)
    requires |wire| >= HEADER_LEN
  {
    Nonce(Uint32(wire[8..12]), Uint16(wire[2..4]), Uint32(wire[4..8]))
  }

  function Unwrapped(a: Aead, key: seq<byte>, wire: seq<byte>, dstLen: nat): (r: Result<seq<byte>>) {
    if |key| != KEY_LEN then Err(BadKey)
    else if |wire| < 13 then Err(TooShort)
    else if wire[0] / 64 != 2 then Err(NotRtp)
    else
      var end := PayloadEnd(wire);
      if end.Err? then Err(end.error)
      else if end.value - HEADER_LEN <= OVERHEAD then Err(NoPayload)
      else if end.value - HEADER_LEN - OVERHEAD > dstLen then Err(DstTooSmall)
      else match a.open(key, WireNonce(wire), wire[HEADER_LEN..end.value], wire[..HEADER_LEN])
           case None => Err(AuthFailed)
           case Some(plain) => Ok(plain)
  }

  /** The number with digits `high` and `low` to the base. */
  function BigEndian(high: int, low: int, base: int): (n: int) { high * base + low }

  /** Section 5.1 of RFC 3550: version 2 with the padding bit, the payload type, and sequence number, timestamp and SSRC
      in network order. */
  lemma HeaderLayout(cfg: Config, seq16: uint16, ts: uint32)
    ensures var h := Header(cfg, seq16, ts);
            && h[0] == 128 + 32 && h[1] == cfg.payloadType % 128
            && BigEndian(h[2], h[3], 256) == seq16
            && BigEndian(BigEndian(h[4], h[5], 256), BigEndian(h[6], h[7], 256), 0x1_0000) == ts
            && BigEndian(BigEndian(h[8], h[9], 256), BigEndian(h[10], h[11], 256), 0x1_0000) == cfg.ssrc
  {
  }

  /** The nonce of 12 bytes: SSRC, sequence number, two zeros, timestamp. */
  lemma NonceLayout(ssrc: uint32, seq16: uint16, ts: uint32)
    ensures var n := Nonce(ssrc, seq16, ts);
            && BigEndian(BigEndian(n[0], n[1], 256), BigEndian(n[2], n[3], 256), 0x1_0000) == ssrc
            && BigEndian(n[4], n[5], 256) == seq16 && n[6] == 0 && n[7] == 0
            && BigEndian(BigEndian(n[8], n[9], 256), BigEndian(n[10], n[11], 256), 0x1_0000) == ts
  {
  }

  /** What passes for RTP: 13 bytes, version 2, payload type 111 or 96 under either marker bit. */
  lemma RtpExactly(wire: seq<byte>)
    ensures IsRtpPacket(wire) <==> |wire| >= 13 && 128 <= wire[0] < 192 && wire[1] in {96, 111, 224, 239}
  {
  }

  /** Where the ciphertext ends: at the end of the packet without the padding bit; with it, as many bytes earlier as the
      last byte says, and nowhere if that is none or more than there are. */
  lemma PayloadEndExactly(wire: seq<byte>)
    requires |wire| >= 13
    ensures var padded := wire[0] % 64 >= 32; var p := wire[|wire| - 1];
            && (!padded ==> PayloadEnd(wire) == Ok(|wire|))
            && (padded && 1 <= p <= |wire| - 12 ==> PayloadEnd(wire) == Ok(|wire| - p))
            && (padded && !(1 <= p <= |wire| - 12) ==> PayloadEnd(wire) == Err(BadPadding))
  {
  }

  /** Why a packet is turned away, in this order. */
  lemma RefusedExactly(a: Aead, key: seq<byte>, wire: seq<byte>, dstLen: nat)
    ensures var r := Unwrapped(a, key, wire, dstLen);
            && (r == Err(BadKey) <==> |key| != 32)
            && (r == Err(TooShort) <==> |key| == 32 && |wire| < 13)
            && (r == Err(NotRtp) <==> |key| == 32 && |wire| >= 13 && !(128 <= wire[0] < 192))
            && (r == Err(BadPadding) <==>
                  |key| == 32 && |wire| >= 13 && 128 <= wire[0] < 192 && PayloadEnd(wire).Err?)
            && (|key| == 32 && |wire| >= 13 && 128 <= wire[0] < 192 && PayloadEnd(wire).Ok? ==>
                  var n := PayloadEnd(wire).value - 28;
                  && (r == Err(NoPayload) <==> n <= 0)
                  && (r == Err(DstTooSmall) <==> n > 0 && n > dstLen)
                  && (0 < n <= dstLen ==>
                        var plain := a.open(key, WireNonce(wire), wire[12..n + 28], wire[..12]);
                        r == if plain.None? then Err(AuthFailed) else Ok(plain.value)))
  {
  }

  predicate IsRemainder(x: int, q: int, m: int, r: int) { x == q * m + r }

  lemma QuotientAndRemainder(x: nat, m: nat)
    requires m > 0
    ensures IsRemainder(x, x / m, m, x % m)
  {
  }

  /** The padding drawn is the random byte's remainder, and none without a positive limit. */
  lemma PadRandExactly(cfg: Config, rnd: byte)
    ensures cfg.paddingMax <= 0 ==> PadRand(cfg, rnd) == 0
    ensures cfg.paddingMax > 0 ==>
              PadRand(cfg, rnd) < cfg.paddingMax && exists q :: IsRemainder(rnd, q, cfg.paddingMax, PadRand(cfg, rnd))
  {
    if cfg.paddingMax > 0 { QuotientAndRemainder(rnd, cfg.paddingMax); }
  }

  /** The header fields the receiver reads back rebuild the sender's nonce. */
  lemma HeaderRoundTrip(cfg: Config, seq16: uint16, ts: uint32, rest: seq<byte>)
    ensures WireNonce(Header(cfg, seq16, ts) + rest) == Nonce(cfg.ssrc, seq16, ts)
  {
    var w := Header(cfg, seq16, ts) + rest;
    assert w[2..4] == PutUint16(seq16);
    assert w[4..8] == PutUint32(ts);
    assert w[8..12] == PutUint32(cfg.ssrc);
    Uint32RoundTrip(ts);
    Uint32RoundTrip(cfg.ssrc);
    assert Uint16(PutUint16(seq16)) == seq16;
  }

  /** Exact round-trip law: a wrapped packet unwraps to its payload if and only if fewer than
      255 padding bytes were drawn; with 255 the length byte overflows to 0 and the packet is lost. */
  lemma RoundTrip(a: Aead, key: seq<byte>, payload: seq<byte>, cfg: Config, initSeq: uint16, initTs: uint32,
                  c: uint64, padding: seq<byte>, dstLen: nat)
    requires AeadLaw(a) && |key| == KEY_LEN && |payload| > 0 && |padding| < 256 && dstLen >= |payload|
    ensures var r := Unwrapped(a, key, WireBytes(a, key, payload, cfg, initSeq, initTs, c, padding), dstLen);
            if |padding| < 255 then r == Ok(payload) else r == Err(BadPadding)
  {
    var seq16, ts := SeqOf(initSeq, c), TsOf(initTs, c);
    var h := Header(cfg, seq16, ts);
    var nonce := PacketNonce(cfg.ssrc, initSeq, initTs, c);
    var ct := a.seal(key, nonce, payload, h);
    var tail := padding + [(|padding| + 1) % 256];
    var w := WireBytes(a, key, payload, cfg, initSeq, initTs, c, padding);
    assert w == h + (ct + tail);
    assert w[0] == 0xA0 && w[|w| - 1] == (|padding| + 1) % 256;
    if |padding| < 255 {
      assert PayloadEnd(w) == Ok(HEADER_LEN + |ct|);
      HeaderRoundTrip(cfg, seq16, ts, ct + tail);
      assert w[..HEADER_LEN] == h;
      assert w[HEADER_LEN..HEADER_LEN + |ct|] == ct;
    }
  }

  /** With the shipped settings (payload type 111 or 96, PaddingMax at most 255) every packet is
      recognised as RTP and unwraps to exactly its payload, whatever was drawn. */
  lemma ShippedRoundTrip(a: Aead, key: seq<byte>, payload: seq<byte>, cfg: Config, initSeq: uint16, initTs: uint32,
                         c: uint64, rnd: byte, padding: seq<byte>, dstLen: nat)
    requires AeadLaw(a) && |key| == KEY_LEN && |payload| > 0 && dstLen >= |payload|
    requires cfg.payloadType == 111 || cfg.payloadType == 96
    requires cfg.paddingMax <= 255 && |padding| == PadRand(cfg, rnd)
    ensures var w := WireBytes(a, key, payload, cfg, initSeq, initTs, c, padding);
            IsRtpPacket(w) && Unwrapped(a, key, w, dstLen) == Ok(payload)
  {
    RoundTrip(a, key, payload, cfg, initSeq, initTs, c, padding, dstLen);
    var w := WireBytes(a, key, payload, cfg, initSeq, initTs, c, padding);
    var h := Header(cfg, SeqOf(initSeq, c), TsOf(initTs, c));
    assert w[0] == h[0] && w[1] == h[1];
  }

  /** The packet with this padding comes back as its payload. */
  ghost predicate Survives(a: Aead, key: seq<byte>, payload: seq<byte>, cfg: Config, initSeq: uint16, initTs: uint32,
                           c: uint64, padding: seq<byte>, dstLen: nat)
  {
    Unwrapped(a, key, WireBytes(a, key, payload, cfg, initSeq, initTs, c, padding), dstLen) == Ok(payload)
  }

  /** What a caller can know beforehand: every draw survives if and only if PaddingMax is at most 255. From 256 on the
      random byte 255 draws the padding that loses the packet. */
  lemma EveryDrawSurvivesExactlyIf(a: Aead, key: seq<byte>, payload: seq<byte>, cfg: Config, initSeq: uint16, initTs: uint32,
                                   c: uint64, dstLen: nat)
    requires AeadLaw(a) && |key| == KEY_LEN && |payload| > 0 && dstLen >= |payload|
    ensures (forall rnd: byte, padding: seq<byte> :: |padding| == PadRand(cfg, rnd) ==>
               Survives(a, key, payload, cfg, initSeq, initTs, c, padding, dstLen))
       <==> cfg.paddingMax <= 255
  {
    forall rnd: byte, padding: seq<byte> | |padding| == PadRand(cfg, rnd)
      ensures Survives(a, key, payload, cfg, initSeq, initTs, c, padding, dstLen) <==> |padding| < 255
    {
      RoundTrip(a, key, payload, cfg, initSeq, initTs, c, padding, dstLen);
    }
    if cfg.paddingMax > 255 {
      var rnd: byte := 255;
      RemainderUnique(rnd, 0, rnd, cfg.paddingMax);
      var padding: seq<byte> := seq(255, _ => 0);
      assert |padding| == PadRand(cfg, rnd) && !Survives(a, key, payload, cfg, initSeq, initTs, c, padding, dstLen);
    }
  }

  /** Arbitrary wire bytes: unwrapping fails, or yields between 1 and `dstLen` bytes that the AEAD
      accepted under the header as associated data. */
  lemma UnwrapBounds(a: Aead, key: seq<byte>, wire: seq<byte>, dstLen: nat)
    requires AeadLaw(a) && Unwrapped(a, key, wire, dstLen).Ok?
    ensures 1 <= |Unwrapped(a, key, wire, dstLen).value| <= dstLen
    ensures |wire| >= HEADER_LEN + OVERHEAD + 1
    ensures exists end :: HEADER_LEN <= end <= |wire|
              && a.open(key, WireNonce(wire), wire[HEADER_LEN..end], wire[..HEADER_LEN])
                 == Some(Unwrapped(a, key, wire, dstLen).value)
  {
    var end := PayloadEnd(wire).value;
    assert a.open(key, WireNonce(wire), wire[HEADER_LEN..end], wire[..HEADER_LEN])
           == Some(Unwrapped(a, key, wire, dstLen).value);
    assert |wire[HEADER_LEN..end]| == end - HEADER_LEN;
  }

  /** The packet counter after `n` further packets (64-bit wrap-around). */
  function Later(c: uint64, n: nat): (r: uint64) { (c + n) % TWO64 }

  /** From any starting counter, even across the 64-bit wrap, any window of 2^48 consecutive
      packets uses pairwise distinct nonces. */
  lemma WindowUsesDistinctNonces(ssrc: uint32, initSeq: uint16, initTs: uint32, c: uint64, i: nat, j: nat)
    requires i < j < i + TWO48
    ensures PacketNonce(ssrc, initSeq, initTs, Later(c, i)) != PacketNonce(ssrc, initSeq, initTs, Later(c, j))
  {
    var x, y := c + i, c + j;
    NonceRepeatsExactlyEvery2To48(ssrc, initSeq, initTs, Later(c, i), Later(c, j));
    Wrap64Keeps48(x);
    Wrap64Keeps48(y);
    SameResidue(y, x, TWO48);
    RemainderUnique(j - i, 0, j - i, TWO48);
  }

  lemma Wrap64Keeps48(x: int)
    ensures (x % TWO64) % TWO48 == x % TWO48
  {
    var q := x / TWO64;
    assert x % TWO64 == x + (-q * TWO16) * TWO48;
    AddMultiple(x, -q * TWO16, TWO48);
  }

  /** Writes `bytes` into `buf` from position `at`, leaving the rest alone. */
  method Put(buf: array<byte>, at: nat, bytes: seq<byte>)
    requires at + |bytes| <= buf.Length
    modifies buf
    ensures buf[..] == old(buf[..at]) + bytes + old(buf[at + |bytes|..])
  {
    for i := 0 to |bytes|
      invariant forall j :: 0 <= j < buf.Length ==>
                  buf[j] == if at <= j < at + i then bytes[j - at] else old(buf[j])
    {
      buf[at + i] := bytes[i];
    }
  }

  /** Lays the packet out in place: header, ciphertext, padding, padding length. */
  method FillWire(buf: array<byte>, h: seq<byte>, sealed: seq<byte>, padding: seq<byte>)
    requires |h| + |sealed| + |padding| + 1 <= buf.Length
    modifies buf
    ensures buf[..|h| + |sealed| + |padding| + 1] == h + sealed + padding + [(|padding| + 1) % 256]
  {
    Put(buf, 0, h);
    Put(buf, |h|, sealed);
    assert buf[..|h| + |sealed|] == h + sealed;
    Put(buf, |h| + |sealed|, padding);
    assert buf[..|h| + |sealed| + |padding|] == h + sealed + padding;
    buf[|h| + |sealed| + |padding|] := (|padding| + 1) % 256;
  }

  /** Per-direction sender state. The wire buffer is reused and only ever grows. */
  class ObfsState {
    const initSeq: uint16
    const initTs: uint32
    var count: uint64
    var aeadKey: Option<seq<byte>>
    var wire: array<byte>

    constructor (initSeq: uint16, initTs: uint32)
      ensures this.initSeq == initSeq && this.initTs == initTs && count == 0 && aeadKey == None
      ensures fresh(wire) && wire.Length == 0
    {
      this.initSeq, this.initTs, count, aeadKey := initSeq, initTs, 0, None;
      wire := new byte[0];
    }

    /** `rnd` and `padding` are the random draws. The AEAD instance is created from the first key used. */
    method Wrap(a: Aead, key: seq<byte>, payload: seq<byte>, cfg: Config, rnd: byte, padding: seq<byte>)
      returns (r: Result<nat>)
      requires AeadLaw(a)
      requires |padding| == PadRand(cfg, rnd)
      modifies this, wire
      ensures |key| != KEY_LEN ==> r == Err(BadKey) && unchanged(this) && unchanged(old(wire))
      ensures |key| == KEY_LEN && payload == [] ==> r == Err(EmptyPayload) && unchanged(this) && unchanged(old(wire))
      ensures |key| == KEY_LEN && payload != [] ==>
                && r.Ok? && r.value <= wire.Length
                && count == Later(old(count), 1)
                && aeadKey == (if old(aeadKey).Some? then old(aeadKey) else Some(key))
                && wire[..r.value] == WireBytes(a, aeadKey.value, payload, cfg, initSeq, initTs, old(count), padding)
                && (if r.value <= old(wire.Length) then wire == old(wire) else fresh(wire))
    {
      if |key| != KEY_LEN { return Err(BadKey); }
      if payload == [] { return Err(EmptyPayload); }
      var c := count;
      count := (count + 1) % TWO64;
      var seq16, ts := SeqOf(initSeq, c), TsOf(initTs, c);
      var padTotal := |padding| + 1;
      var outLen := HEADER_LEN + |payload| + OVERHEAD + padTotal;
      if wire.Length < outLen {
        wire := new byte[outLen];
      }
      var h := Header(cfg, seq16, ts);
      if aeadKey == None { aeadKey := Some(key); }
      var sealed := a.seal(aeadKey.value, Nonce(cfg.ssrc, seq16, ts), payload, h);
      FillWire(wire, h, sealed, padding);
      return Ok(outLen);
    }
  }

  /** Decrypts the first `n` bytes of `wire` into the front of `dst`. */
  method Unwrap(a: Aead, key: seq<byte>, wire: array<byte>, n: nat, dst: array<byte>) returns (r: Result<nat>)
    requires AeadLaw(a) && n <= wire.Length && wire != dst
    modifies dst
    ensures r.Ok? <==> Unwrapped(a, key, wire[..n], dst.Length).Ok?
    ensures r.Err? ==> Unwrapped(a, key, wire[..n], dst.Length) == Err(r.error)
    ensures r.Ok? ==>
              && 1 <= r.value <= dst.Length
              && dst[..r.value] == Unwrapped(a, key, wire[..n], dst.Length).value
              && dst[r.value..] == old(dst[r.value..])
  {
    if |key| != KEY_LEN { return Err(BadKey); }
    if n < 13 { return Err(TooShort); }
    if wire[0] / 64 != 2 { return Err(NotRtp); }
    var end := n;
    if (wire[0] / 32) % 2 == 1 {
      var padLen := wire[n - 1];
      if padLen == 0 || padLen > end - HEADER_LEN { return Err(BadPadding); }
      end := end - padLen;
    }
    var w := wire[..n];
    assert PayloadEnd(w) == Ok(end);
    var ciphertextLen := end - HEADER_LEN;
    if ciphertextLen <= OVERHEAD { return Err(NoPayload); }
    if ciphertextLen - OVERHEAD > dst.Length { return Err(DstTooSmall); }
    var nonce := Nonce(Uint32(w[8..12]), Uint16(w[2..4]), Uint32(w[4..8]));
    var plain := a.open(key, nonce, w[HEADER_LEN..end], w[..HEADER_LEN]);
    if plain == None { return Err(AuthFailed); }
    UnwrapBounds(a, key, w, dst.Length);
    Put(dst, 0, plain.value);
    return Ok(|plain.value|);
  }
}
