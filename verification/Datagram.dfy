/** The 22-byte header in front of every RaptorQ symbol: appended to a caller's buffer when a
    symbol is framed, and read back field by field through an advancing cursor. */
module Datagram {
  import opened Base
  import opened Geometry

  datatype SymbolHeader = SymbolHeader(streamId: nat, blockId: nat, actualK: nat, esi: nat, flags: byte)

  /** Every field is one its Rust type can hold; flags come from the two known bits. */
  ghost predicate Representable(h: SymbolHeader) {
    h.streamId < Words(8) && h.blockId < Words(8) && h.actualK < Words(2) && h.esi < Words(4) && h.flags < 4
  }

  /** The header as it leaves the wire: the symbol index has kept its low 24 bits. */
  function OnWire(h: SymbolHeader): SymbolHeader {
    h.(esi := h.esi % 0x100_0000)
  }

  function HeaderBytes(h: SymbolHeader): bytes {
    BE(h.streamId, 8) + BE(h.blockId, 8) + BE(h.actualK, 2) + BE(h.esi, 3) + [h.flags]
  }

  /** The 22 bytes: stream, block, K, symbol index and flags, each most significant byte first. */
  lemma HeaderLayout(h: SymbolHeader)
    ensures var d := HeaderBytes(h);
      |d| == 22 && d[0..8] == BE(h.streamId, 8) && d[8..16] == BE(h.blockId, 8) && d[16..18] == BE(h.actualK, 2)
      && d[18..21] == BE(h.esi, 3) && d[21] == h.flags
  {}

  /** `bytes::Buf` over a received datagram: each getter takes its bytes off the front. */
  class Cursor {
    var data: bytes

    constructor (datagram: bytes)
      ensures data == datagram
    {
      data := datagram;
    }

    method Get(width: nat) returns (n: nat)
      requires width <= |data|
      modifies this
      ensures n == FromBE(old(data)[..width]) && data == old(data)[width..]
    {
      n, data := FromBE(data[..width]), data[width..];
    }
  }

  /** Appends the header to `buf`, the symbol index as three separate bytes. */
  method EncodeHeader(h: SymbolHeader, buf: bytes) returns (out: bytes)
    requires Representable(h)
    ensures out == buf + HeaderBytes(h) && |out| == |buf| + SYMBOL_HEADER_LEN
  {
    WordSizes();
    out := buf + BE(h.streamId, 8) + BE(h.blockId, 8) + BE(h.actualK, 2);
    TwoShifts(h.esi);
    out := out + [h.esi / 0x1_0000 % 0x100] + [h.esi / 0x100 % 0x100] + [h.esi % 0x100] + [h.flags];
    ThreeBytes(h.esi);
  }

  lemma ThreeBytes(n: nat)
    ensures BE(n, 3) == [n / 0x100 / 0x100 % 0x100] + [n / 0x100 % 0x100] + [n % 0x100]
  {
    var a, b := n / 0x100, n / 0x100 / 0x100;
    assert BE(b, 1) == [b % 0x100] && BE(a, 2) == BE(b, 1) + [a % 0x100] && BE(n, 3) == BE(a, 2) + [n % 0x100];
  }

  lemma TwoShifts(n: nat)
    ensures n / 0x1_0000 == n / 0x100 / 0x100
  {}

  /** Three stored bytes read back as the value's low 24 bits. */
  lemma ThreeBytesValue(n: nat)
    ensures FromBE(BE(n, 3)) == n % 0x100_0000
  {
    var a, b := n / 0x100, n / 0x100 / 0x100;
    var x, y, z := n % 0x100, a % 0x100, b % 0x100;
    ThreeBytes(n);
    var s := BE(n, 3);
    assert s == [z, y, x];
    ReadThree(z, y, x);
    One(x);
    One(y);
    One(z);
    LowWord(n, b / 0x100, z * 0x1_0000 + y * 0x100 + x);
  }

  lemma One(b: byte)
    ensures FromBE([b]) == b
  {
    assert [b][..0] == [];
  }

  lemma LowWord(n: nat, q: nat, r: nat)
    requires n == q * 0x100_0000 + r && r < 0x100_0000
    ensures n % 0x100_0000 == r
  {}

  /** A three-byte word read one byte at a time. */
  lemma ReadThree(a: byte, b: byte, c: byte)
    ensures FromBE([a, b, c]) == FromBE([a]) * 0x1_0000 + FromBE([b]) * 0x100 + FromBE([c])
  {
    assert [a, b, c][..2] == [a, b] && [a, b][..1] == [a];
    assert FromBE([a, b, c]) == FromBE([a, b]) * 256 + c;
    assert FromBE([a, b]) == FromBE([a]) * 256 + b;
    One(b);
    One(c);
  }

  /** The header a datagram of at least 22 bytes carries; unknown flag bits are dropped. */
  function HeaderOf(d: bytes): SymbolHeader
    requires |d| >= SYMBOL_HEADER_LEN
  {
    SymbolHeader(FromBE(d[..8]), FromBE(d[8..16]), FromBE(d[16..18]), FromBE(d[18..21]), d[21] % 4)
  }

  /** Splits a datagram into its header and the symbol behind it; `None` is `WireError::Truncated`. */
  method Parse(datagram: bytes) returns (r: Option<(SymbolHeader, bytes)>)
    ensures r.None? <==> |datagram| < SYMBOL_HEADER_LEN
    ensures r.Some? ==> r.value == (HeaderOf(datagram), datagram[SYMBOL_HEADER_LEN..])
  {
    var cur := new Cursor(datagram);
    if |cur.data| < SYMBOL_HEADER_LEN {
      return None;
    }
    ghost var d := datagram;
    var streamId := cur.Get(8);
    var blockId := cur.Get(8);
    assert cur.data == d[16..] && blockId == FromBE(d[8..16]) by { assert d[8..][..8] == d[8..16]; }
    var actualK := cur.Get(2);
    assert cur.data == d[18..] && actualK == FromBE(d[16..18]) by { assert d[16..][..2] == d[16..18]; }
    var hi := cur.Get(1);
    assert cur.data == d[19..] && hi == FromBE([d[18]]) by { assert d[18..][..1] == [d[18]]; }
    var mid := cur.Get(1);
    assert cur.data == d[20..] && mid == FromBE([d[19]]) by { assert d[19..][..1] == [d[19]]; }
    var lo := cur.Get(1);
    assert cur.data == d[21..] && lo == FromBE([d[20]]) by { assert d[20..][..1] == [d[20]]; }
    var flags := cur.Get(1);
    assert cur.data == d[22..] && flags == d[21] by { assert d[21..][..1] == [d[21]]; One(d[21]); }
    assert d[18..21] == [d[18], d[19], d[20]];
    ReadThree(d[18], d[19], d[20]);
    r := Some((SymbolHeader(streamId, blockId, actualK, hi * 0x1_0000 + mid * 0x100 + lo, flags % 4), cur.data));
  }

  /** What `EncodeHeader` wrote in front of a payload, `Parse` reads back, but for the symbol index,
      of which 24 bits survive. */
  lemma HeaderRoundTrip(h: SymbolHeader, payload: bytes)
    requires Representable(h)
    ensures var d := HeaderBytes(h) + payload;
      |d| >= SYMBOL_HEADER_LEN && HeaderOf(d) == OnWire(h) && d[SYMBOL_HEADER_LEN..] == payload
  {
    FieldsOf(h, payload);
  }

  lemma FieldsOf(h: SymbolHeader, payload: bytes)
    requires Representable(h)
    ensures var d := HeaderBytes(h) + payload;
      && |d| >= 22 && d[22..] == payload && d[21] == h.flags
      && FromBE(d[..8]) == h.streamId && FromBE(d[8..16]) == h.blockId && FromBE(d[16..18]) == h.actualK
      && FromBE(d[18..21]) == h.esi % 0x100_0000
  {
    var d := HeaderBytes(h) + payload;
    assert d[..8] == BE(h.streamId, 8) && d[8..16] == BE(h.blockId, 8) && d[16..18] == BE(h.actualK, 2);
    BERoundTrip(h.streamId, 8);
    BERoundTrip(h.blockId, 8);
    BERoundTrip(h.actualK, 2);
    assert d[18..21] == BE(h.esi, 3);
    ThreeBytesValue(h.esi);
  }

  /** Two symbols of one block keep distinct headers on the wire exactly when their indices differ
      modulo 2^24; below 2^24 that is whenever the indices differ. */
  lemma EsiKeptApart(a: SymbolHeader, b: SymbolHeader)
    requires a == b.(esi := a.esi)
    ensures HeaderBytes(a) == HeaderBytes(b) <==> a.esi % 0x100_0000 == b.esi % 0x100_0000
    ensures a.esi < 0x100_0000 && b.esi < 0x100_0000 && a != b ==> HeaderBytes(a) != HeaderBytes(b)
  {
    ThreeBytesValue(a.esi);
    ThreeBytesValue(b.esi);
    BEInverse(BE(a.esi, 3));
    BEInverse(BE(b.esi, 3));
    if HeaderBytes(a) == HeaderBytes(b) {
      assert HeaderBytes(a)[18..21] == BE(a.esi, 3) && HeaderBytes(b)[18..21] == BE(b.esi, 3);
    }
  }
}
