/** The RaptorQ codec as the tunnel sees it: an external pair of functions, one minting encoding
    symbols of a source block, one consulted after every symbol received. */
module Codec {
  import opened Base

  datatype Symbol = Symbol(esi: nat, data: bytes)

  /** `encode(block, esi)` is the symbol with that index; `decode(blockLen, fed)` is what a decoder
      for blocks of that length answers once it has been fed exactly those symbols in that order. */
  datatype RaptorQ = RaptorQ(encode: (bytes, nat) -> bytes, decode: (nat, seq<Symbol>) -> Option<bytes>)

  /** Every symbol was minted from `block`. Losses, repeats and reordering keep this true. */
  ghost predicate Genuine(q: RaptorQ, block: bytes, fed: seq<Symbol>) {
    forall i :: 0 <= i < |fed| ==> fed[i].data == q.encode(block, fed[i].esi)
  }

  /** The one thing safety asks of the codec: fed symbols of a block, it answers with that block or
      declines. */
  ghost predicate Sound(q: RaptorQ) {
    forall block, fed :: Genuine(q, block, fed) ==> q.decode(|block|, fed) in {None, Some(block)}
  }

  function Indices(fed: seq<Symbol>): set<nat> {
    set i | 0 <= i < |fed| :: fed[i].esi
  }

  /** The fountain property, asked for only where progress is claimed: `k` distinct symbols of a
      block of `k` symbols are enough. */
  ghost predicate Fountain(q: RaptorQ, symbolSize: nat) {
    forall block, k: nat, fed :: |block| == symbolSize * k && Genuine(q, block, fed) && |Indices(fed)| >= k
      ==> q.decode(symbolSize * k, fed).Some?
  }

  /** No code recovers `k` symbols' worth of bytes from fewer: with fewer distinct symbols the decoder
      declines. Asked for only where the code's own answer is the question. */
  ghost predicate Strict(q: RaptorQ, symbolSize: nat) {
    forall block, k: nat, fed :: |block| == symbolSize * k && Genuine(q, block, fed) && |Indices(fed)| < k
      ==> q.decode(symbolSize * k, fed) == None
  }

  /** A decoder that answers exactly when it has `extra` distinct symbols more than the block has. With
      none it is `Fountain` and `Strict`; section 5.8 of RFC 6330 lets a decoder need more. */
  ghost predicate NeedsExtra(q: RaptorQ, symbolSize: nat, extra: nat) {
    forall block, k: nat, fed :: |block| == symbolSize * k && Genuine(q, block, fed)
      ==> (q.decode(symbolSize * k, fed).Some? <==> |Indices(fed)| >= k + extra)
  }

  /** Such decoders exist, and are sound: a codec whose every symbol is the whole block, and which counts
      distinct symbols before it answers. */
  lemma ThresholdConsistent(symbolSize: nat, extra: nat) returns (q: RaptorQ)
    requires symbolSize > 0
    ensures Sound(q) && NeedsExtra(q, symbolSize, extra)
  {
    q := RaptorQ((block: bytes, esi: nat) => block, (len: nat, fed: seq<Symbol>) => Counting(symbolSize, extra, len, fed));
    forall block: bytes, fed: seq<Symbol> | Genuine(q, block, fed)
      ensures q.decode(|block|, fed) in {None, Some(block)}
    {
      if fed == [] {
        assert Indices(fed) == {};
      } else {
        assert fed[0].data == block;
      }
    }
    forall block: bytes, k: nat, fed: seq<Symbol> | |block| == symbolSize * k && Genuine(q, block, fed)
      ensures q.decode(symbolSize * k, fed).Some? <==> |Indices(fed)| >= k + extra
    {
      SameFactor(symbolSize, |Indices(fed)|, k + extra);
      assert symbolSize * (k + extra) == symbolSize * k + symbolSize * extra;
    }
  }

  /** The three hypotheses can hold together. */
  lemma HypothesesConsistent(symbolSize: nat) returns (q: RaptorQ)
    requires symbolSize > 0
    ensures Sound(q) && Fountain(q, symbolSize) && Strict(q, symbolSize)
  {
    q := ThresholdConsistent(symbolSize, 0);
  }

  function Counting(symbolSize: nat, extra: nat, len: nat, fed: seq<Symbol>): Option<bytes> {
    if symbolSize * |Indices(fed)| < len + symbolSize * extra then None
    else if fed == [] then Some([])
    else Some(fed[0].data)
  }

  lemma SameFactor(x: nat, a: nat, b: nat)
    requires x > 0
    ensures x * a >= x * b <==> a >= b
  {
    assert x * a - x * b == x * (a - b);
  }
}
