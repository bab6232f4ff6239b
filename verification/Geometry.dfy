/** Block geometry: how many source symbols a payload needs, how it is padded into a RaptorQ
    source block and recovered from it, and how the negotiated parameters bound both. */
module Geometry {
  import opened Base
  import opened Signals

  const LEN_PREFIX: nat := 4
  const SYMBOL_HEADER_LEN: nat := 22
  const SAFE_MAX_SYMBOL_SIZE: nat := 1098
  const MAX_BLOCK_SIZE: nat := 256
  const U16_MAX: nat := 0xFFFF

  /** Bytes in a source block of `k` symbols. */
  function BlockLen(symbolSize: nat, k: nat): nat { symbolSize * k }

  /** Application bytes one block can carry; the source subtracts, so the block must hold a prefix. */
  function MaxPayload(symbolSize: nat, k: nat): nat
    requires BlockLen(symbolSize, k) >= LEN_PREFIX
  {
    BlockLen(symbolSize, k) - LEN_PREFIX
  }

  function DivCeil(n: nat, d: nat): nat
    requires d > 0
  {
    (n + d - 1) / d
  }

  /** The source-block size chosen for a payload of `len` bytes, with the cast to `u32`. */
  function ActualK(len: nat, symbolSize: nat, maxK: nat): nat
    requires symbolSize > 0
  {
    if len == 0 then 1
    else Max(Min(Max(DivCeil(len + LEN_PREFIX, symbolSize), 1) % Words(4), maxK), 1)
  }

  function PadBlock(payload: bytes, blockLen: nat): (r: bytes)
    ensures |r| == blockLen
  {
    var buf := BE(|payload|, 4) + payload;
    if |buf| <= blockLen then buf + seq(blockLen - |buf|, _ => 0) else buf[..blockLen]
  }

  function UnpadBlock(block: bytes): Option<bytes> {
    if |block| < LEN_PREFIX then None
    else
      var end := LEN_PREFIX + FromBE(block[..4]);
      if end > |block| then None else Some(block[LEN_PREFIX..end])
  }

  /** `slice::chunks`. */
  function Chunks(data: bytes, cap: nat): (r: seq<bytes>)
    requires cap > 0
    decreases |data|
  {
    if data == [] then []
    else if |data| <= cap then [data]
    else [data[..cap]] + Chunks(data[cap..], cap)
  }

  // ---------------------------------------------------------------- padding

  /** Unpadding undoes padding exactly when the block has room for the prefix and the payload, and
      the payload's length fits the 32-bit prefix. */
  lemma PadUnpad(payload: bytes, blockLen: nat)
    ensures UnpadBlock(PadBlock(payload, blockLen)) == Some(payload)
      <==> |payload| + LEN_PREFIX <= blockLen && |payload| < Words(4)
  {
    var buf, block := BE(|payload|, 4) + payload, PadBlock(payload, blockLen);
    if blockLen >= 4 {
      assert block[..4] == BE(|payload|, 4);
      FromBEBound(block[..4]);
      if |payload| < Words(4) {
        BERoundTrip(|payload|, 4);
        if |buf| <= blockLen {
          assert block[4..4 + |payload|] == payload;
        }
      }
    }
  }

  lemma MulMono(a: nat, b: nat, c: nat)
    requires b <= c
    ensures a * b <= a * c
  {
    assert a * c == a * b + a * (c - b);
  }

  lemma QuotientBounds(n: nat, d: nat, q: nat)
    requires d > 0
    ensures n <= q * d ==> n / d <= q
    ensures q * d <= n ==> n / d >= q
  {
    assert n == n / d * d + n % d;
    if n / d > q {
      MulMono(d, q + 1, n / d);
      assert d * (q + 1) == q * d + d;
    } else if n / d < q {
      MulMono(d, n / d + 1, q);
      assert (n / d + 1) * d == n / d * d + d;
    }
  }

  lemma DivCeilLeast(n: nat, d: nat, j: nat)
    requires d > 0
    ensures n <= d * DivCeil(n, d)
    ensures n <= d * j ==> DivCeil(n, d) <= j
  {
    var q := (n + d - 1) / d;
    assert n + d - 1 == d * q + (n + d - 1) % d;
    assert d * (j + 1) == d * j + d;
    if j < q {
      MulMono(d, j + 1, q);
    }
  }

  /** A nonempty payload that fits the full geometry is given the least block that holds it. */
  lemma ActualKLeast(len: nat, symbolSize: nat, maxK: nat)
    requires symbolSize > 0 && len > 0 && maxK < Words(4)
    requires len + LEN_PREFIX <= BlockLen(symbolSize, maxK)
    ensures var k := ActualK(len, symbolSize, maxK);
      1 <= k <= maxK && len + LEN_PREFIX <= BlockLen(symbolSize, k)
      && forall j: nat :: len + LEN_PREFIX <= BlockLen(symbolSize, j) ==> k <= j
  {
    var q := DivCeil(len + LEN_PREFIX, symbolSize);
    forall j: nat | len + LEN_PREFIX <= BlockLen(symbolSize, j)
      ensures q <= j
    {
      DivCeilLeast(len + LEN_PREFIX, symbolSize, j);
    }
    DivCeilLeast(len + LEN_PREFIX, symbolSize, maxK);
    assert q > 0;
  }

  /** A block starts with the payload's length, most significant byte first, then the payload, then zeros. */
  lemma BlockLayout(payload: bytes, blockLen: nat)
    requires |payload| + 4 <= blockLen && |payload| < Words(4)
    ensures var block := PadBlock(payload, blockLen);
      && |block| == blockLen && FromBE(block[..4]) == |payload| && block[4..4 + |payload|] == payload
      && forall i :: 4 + |payload| <= i < blockLen ==> block[i] == 0
  {
    BERoundTrip(|payload|, 4);
    assert PadBlock(payload, blockLen)[..4] == BE(|payload|, 4);
  }

  /** The capacity of a block is the most it gives back. */
  lemma CapacityIsGreatest(payload: bytes, symbolSize: nat, k: nat)
    requires BlockLen(symbolSize, k) >= LEN_PREFIX && |payload| < Words(4)
    ensures UnpadBlock(PadBlock(payload, BlockLen(symbolSize, k))) == Some(payload) <==> |payload| <= MaxPayload(symbolSize, k)
  {
    PadUnpad(payload, BlockLen(symbolSize, k));
  }

  // ---------------------------------------------------------------- chunking

  lemma {:induction false} ChunksCover(data: bytes, cap: nat)
    requires cap > 0
    ensures Concat(Chunks(data, cap)) == data
    decreases |data|
  {
    if data == [] {
    } else if |data| <= cap {
      ConcatOne(data);
    } else {
      ChunksCover(data[cap..], cap);
      ConcatAppend([data[..cap]], Chunks(data[cap..], cap));
      ConcatOne(data[..cap]);
      assert data[..cap] + data[cap..] == data;
    }
  }

  lemma ConcatOne(part: bytes)
    ensures Concat([part]) == part
  {
    ConcatSnoc([], part);
  }

  lemma {:induction false} ChunkSizes(data: bytes, cap: nat)
    requires cap > 0
    ensures forall c :: c in Chunks(data, cap) ==> 0 < |c| <= cap
    ensures forall i :: 0 <= i < |Chunks(data, cap)| - 1 ==> |Chunks(data, cap)[i]| == cap
    decreases |data|
  {
    if |data| > cap {
      ChunkSizes(data[cap..], cap);
    }
  }

  /** The payloads the receiver recovers from the padded blocks of `chunks`, one block each. */
  function Recovered(chunks: seq<bytes>, symbolSize: nat, k: nat): (r: seq<Option<bytes>>)
    requires symbolSize > 0
    ensures |r| == |chunks|
  {
    if chunks == [] then []
    else
      var c := chunks[|chunks| - 1];
      Recovered(chunks[..|chunks| - 1], symbolSize, k)
      + [UnpadBlock(PadBlock(c, BlockLen(symbolSize, ActualK(|c|, symbolSize, k))))]
  }

  lemma {:induction false} RecoveredAll(chunks: seq<bytes>, symbolSize: nat, k: nat)
    requires symbolSize > 0 && k < Words(4) && BlockLen(symbolSize, k) >= LEN_PREFIX
    requires forall c :: c in chunks ==> 0 < |c| <= MaxPayload(symbolSize, k) && |c| < Words(4)
    ensures forall i :: 0 <= i < |chunks| ==> Recovered(chunks, symbolSize, k)[i] == Some(chunks[i])
  {
    if chunks != [] {
      var c := chunks[|chunks| - 1];
      RecoveredAll(chunks[..|chunks| - 1], symbolSize, k);
      ActualKLeast(|c|, symbolSize, k);
      PadUnpad(c, BlockLen(symbolSize, ActualK(|c|, symbolSize, k)));
    }
  }

  // ---------------------------------------------------------------- negotiation

  datatype FecParams = FecParams(symbolSize: nat, blockSize: nat, repairPpm: nat)

  function ClampFec(requested: FecParams, serverSymbolSize: nat, maxPpm: nat): FecParams {
    FecParams(Min(serverSymbolSize, SAFE_MAX_SYMBOL_SIZE),
              Min(requested.blockSize, MAX_BLOCK_SIZE),
              Min(requested.repairPpm, maxPpm))
  }

  function ResolveK(p: FecParams): nat {
    if p.blockSize == 0 then 16 else p.blockSize
  }

  function ClampSymbolToDatagramCap(negotiated: nat, datagramCap: nat): nat {
    var maxSymbol := Min(Monus(datagramCap, SYMBOL_HEADER_LEN), U16_MAX);
    if negotiated > maxSymbol then Max(maxSymbol, 1) else Max(negotiated, 1)
  }

  /** A symbol the server offers, that is safe on any path, and whose frame the datagram cap admits. */
  predicate SymbolFits(n: nat, serverSymbolSize: nat, cap: nat) { n <= serverSymbolSize && n <= 1098 && n + 22 <= cap }

  /** What is negotiated, whatever is asked for: the greatest symbol the server, the safe limit and the
      datagram cap allow, or one byte if the cap allows none; the block size asked for, up to 256, or 16 if
      none is; and the repair asked for, up to the server's limit. */
  lemma NegotiatedGreatest(requested: FecParams, serverSymbolSize: nat, maxPpm: nat, cap: nat)
    ensures var p := ClampFec(requested, serverSymbolSize, maxPpm);
      var sym := ClampSymbolToDatagramCap(p.symbolSize, cap);
      && (forall n: nat :: SymbolFits(n, serverSymbolSize, cap) ==> n <= sym)
      && (SymbolFits(sym, serverSymbolSize, cap) || sym == 1)
      && ResolveK(p) == (if requested.blockSize == 0 then 16 else if requested.blockSize > 256 then 256 else requested.blockSize)
      && p.repairPpm <= maxPpm && p.repairPpm <= requested.repairPpm
      && (p.repairPpm == maxPpm || p.repairPpm == requested.repairPpm)
  {}

  lemma NegotiatedBounds(requested: FecParams, serverSymbolSize: nat, maxPpm: nat, cap: nat)
    ensures var p := ClampFec(requested, serverSymbolSize, maxPpm);
      var sym, k := ClampSymbolToDatagramCap(p.symbolSize, cap), ResolveK(p);
      && 1 <= sym <= SAFE_MAX_SYMBOL_SIZE && 1 <= k <= MAX_BLOCK_SIZE
      && BlockLen(sym, k) <= 281_088
      && (SYMBOL_HEADER_LEN + sym <= cap <==> cap > SYMBOL_HEADER_LEN)
      && p.repairPpm <= maxPpm
  {
    var p := ClampFec(requested, serverSymbolSize, maxPpm);
    var sym, k := ClampSymbolToDatagramCap(p.symbolSize, cap), ResolveK(p);
    MulMono(sym, k, MAX_BLOCK_SIZE);
  }

  /** The whole chain for one direction of a tunnel. For whatever the peer asks for, a block has room
      for data exactly when the geometry holds five bytes; then any byte stream is cut into nonempty
      chunks whose blocks unpad to those chunks, which concatenate to the stream, and every chunk
      travels in a reliable frame the peer's decoder accepts. */
  lemma GeometryChain(requested: FecParams, serverSymbolSize: nat, maxPpm: nat, cap: nat, data: bytes)
    ensures var p := ClampFec(requested, serverSymbolSize, maxPpm);
      var sym, k := ClampSymbolToDatagramCap(p.symbolSize, cap), ResolveK(p);
      BlockLen(sym, k) >= 5 ==>
        var chunks := Chunks(data, MaxPayload(sym, k));
        && Concat(chunks) == data
        && (forall i :: 0 <= i < |chunks| ==> Recovered(chunks, sym, k)[i] == Some(chunks[i]))
        && forall c, b: nat :: c in chunks && b < Words(8) ==>
             0 < |c| && Representable(ReliableData(b, c)) && Acceptable(ReliableData(b, c))
  {
    NegotiatedBounds(requested, serverSymbolSize, maxPpm, cap);
    WordSizes();
    var p := ClampFec(requested, serverSymbolSize, maxPpm);
    var sym, k := ClampSymbolToDatagramCap(p.symbolSize, cap), ResolveK(p);
    if BlockLen(sym, k) >= 5 {
      ChunksCover(data, MaxPayload(sym, k));
      ChunkSizes(data, MaxPayload(sym, k));
      RecoveredAll(Chunks(data, MaxPayload(sym, k)), sym, k);
    }
  }

  /** An empty payload is given one symbol whatever the symbol size, so its block has room for the
      length prefix exactly when a symbol has four bytes. */
  lemma EmptyPayload(symbolSize: nat, maxK: nat)
    requires symbolSize > 0
    ensures UnpadBlock(PadBlock([], BlockLen(symbolSize, ActualK(0, symbolSize, maxK)))) == Some([])
      <==> symbolSize >= LEN_PREFIX
  {
    WordSizes();
    PadUnpad([], symbolSize);
  }
}
