/** The tunnel's reliable signalling stream: `TunnelSignal` framing and the reader that
    cuts an arbitrary sequence of chunks back into signals, resynchronising over garbage. */
module Signals {
  import opened Base

  datatype Signal =
    | BlockCount(total: nat)
    | HighWater(blocks: nat)
    | Nack(block: nat, have: nat, need: nat)
    | ReliableRequest(block: nat)
    | ReliableData(block: nat, data: bytes)
    | Credit(delivered: nat)
    | BlockAck(block: nat)

  const TAG_BLOCK_COUNT: byte := 1
  const TAG_NACK: byte := 2
  const TAG_RELIABLE_REQUEST: byte := 3
  const TAG_RELIABLE_DATA: byte := 4
  const TAG_HIGH_WATER: byte := 5
  const TAG_CREDIT: byte := 6
  const TAG_BLOCKACK: byte := 7

  const MAX_RELIABLE_DATA: nat := 1024 * 1024

  /** Every number is one its Rust field can hold, and a payload has a `Vec`'s length. */
  ghost predicate Representable(s: Signal) {
    match s
    case BlockCount(n) => n < Words(8)
    case HighWater(n) => n < Words(8)
    case Nack(b, h, n) => b < Words(8) && h < Words(4) && n < Words(4)
    case ReliableRequest(b) => b < Words(8)
    case ReliableData(b, data) => b < Words(8) && |data| < Words(4)
    case Credit(n) => n < Words(8)
    case BlockAck(b) => b < Words(8)
  }

  /** A signal the decoder accepts: only an oversized payload is turned away. */
  predicate Acceptable(s: Signal) {
    s.ReliableData? ==> |s.data| <= MAX_RELIABLE_DATA
  }

  function Encode(s: Signal): bytes {
    match s
    case BlockCount(n) => [TAG_BLOCK_COUNT] + BE(n, 8)
    case HighWater(n) => [TAG_HIGH_WATER] + BE(n, 8)
    case Nack(b, h, n) => [TAG_NACK] + BE(b, 8) + BE(h, 4) + BE(n, 4)
    case ReliableRequest(b) => [TAG_RELIABLE_REQUEST] + BE(b, 8)
    case ReliableData(b, data) => [TAG_RELIABLE_DATA] + BE(b, 8) + BE(|data|, 4) + data
    case Credit(n) => [TAG_CREDIT] + BE(n, 8)
    case BlockAck(b) => [TAG_BLOCKACK] + BE(b, 8)
  }

  /** The frames byte by byte: the tag, then the fields in order, most significant byte first. */
  lemma FrameLayout(s: Signal)
    ensures var f := Encode(s);
      && (s.BlockCount? ==> f == [1] + BE(s.total, 8))
      && (s.Nack? ==> |f| == 17 && f[0] == 2 && f[1..9] == BE(s.block, 8) && f[9..13] == BE(s.have, 4) && f[13..] == BE(s.need, 4))
      && (s.ReliableRequest? ==> f == [3] + BE(s.block, 8))
      && (s.ReliableData? ==>
           |f| == 13 + |s.data| && f[0] == 4 && f[1..9] == BE(s.block, 8) && f[9..13] == BE(|s.data|, 4) && f[13..] == s.data)
      && (s.HighWater? ==> f == [5] + BE(s.blocks, 8))
      && (s.Credit? ==> f == [6] + BE(s.delivered, 8))
      && (s.BlockAck? ==> f == [7] + BE(s.block, 8))
  {}

  /** `None`, `Some(Ok(..))` and `Some(Err(n))` of the Rust decoder. */
  datatype Outcome = NeedMore | Got(signal: Signal, used: nat) | Skip(count: nat)

  function Decode(buf: bytes): Outcome {
    if buf == [] then NeedMore
    else if buf[0] in {TAG_BLOCK_COUNT, TAG_HIGH_WATER, TAG_RELIABLE_REQUEST, TAG_CREDIT, TAG_BLOCKACK} then
      if |buf| < 9 then NeedMore
      else
        var n := FromBE(buf[1..9]);
        var s :=
          if buf[0] == TAG_BLOCK_COUNT then BlockCount(n)
          else if buf[0] == TAG_HIGH_WATER then HighWater(n)
          else if buf[0] == TAG_RELIABLE_REQUEST then ReliableRequest(n)
          else if buf[0] == TAG_CREDIT then Credit(n)
          else BlockAck(n);
        Got(s, 9)
    else if buf[0] == TAG_NACK then
      if |buf| < 17 then NeedMore
      else Got(Nack(FromBE(buf[1..9]), FromBE(buf[9..13]), FromBE(buf[13..17])), 17)
    else if buf[0] == TAG_RELIABLE_DATA then
      if |buf| < 13 then NeedMore
      else
        var len := FromBE(buf[9..13]);
        if len > MAX_RELIABLE_DATA then Skip(1)
        else if |buf| < 13 + len then NeedMore
        else Got(ReliableData(FromBE(buf[1..9]), buf[13..13 + len]), 13 + len)
    else Skip(1)
  }

  /** Bytes an outcome removes from the front of the buffer. */
  function Consumed(o: Outcome): nat {
    match o
    case NeedMore => 0
    case Got(_, used) => used
    case Skip(n) => n
  }

  /** A decode that reaches a verdict makes progress and never reads past the buffer. */
  lemma DecodeProgress(buf: bytes)
    ensures Decode(buf) != NeedMore ==> 1 <= Consumed(Decode(buf)) <= |buf|
  {}

  /** A verdict reached on a buffer stands whatever bytes arrive after it. */
  lemma DecodePrefixStable(a: bytes, b: bytes)
    requires Decode(a) != NeedMore
    ensures Decode(a + b) == Decode(a)
  {
    var ab := a + b;
    assert ab[0] == a[0];
    if |a| >= 9 { assert ab[1..9] == a[1..9]; }
    if |a| >= 13 { assert ab[9..13] == a[9..13]; }
    if |a| >= 17 { assert ab[13..17] == a[13..17]; }
    if a[0] == TAG_RELIABLE_DATA {
      var len := FromBE(a[9..13]);
      if len <= MAX_RELIABLE_DATA {
        assert ab[13..13 + len] == a[13..13 + len];
      }
    }
  }

  lemma OneWord(tag: byte, n: nat)
    requires n < Words(8)
    ensures |[tag] + BE(n, 8)| == 9 && ([tag] + BE(n, 8))[0] == tag
    ensures FromBE(([tag] + BE(n, 8))[1..9]) == n
  {
    assert ([tag] + BE(n, 8))[1..9] == BE(n, 8);
    BERoundTrip(n, 8);
  }

  lemma NackRoundTrip(s: Signal)
    requires s.Nack? && Representable(s)
    ensures Decode(Encode(s)) == Got(s, |Encode(s)|)
  {
    var e := Encode(s);
    assert e[1..9] == BE(s.block, 8) && e[9..13] == BE(s.have, 4) && e[13..17] == BE(s.need, 4);
    BERoundTrip(s.block, 8);
    BERoundTrip(s.have, 4);
    BERoundTrip(s.need, 4);
  }

  lemma DataHeader(s: Signal)
    requires s.ReliableData? && Representable(s)
    ensures var e := Encode(s);
      |e| == 13 + |s.data| && e[0] == TAG_RELIABLE_DATA
      && FromBE(e[1..9]) == s.block && FromBE(e[9..13]) == |s.data| && e[13..13 + |s.data|] == s.data
  {
    var e := Encode(s);
    assert e[1..9] == BE(s.block, 8) && e[9..13] == BE(|s.data|, 4);
    BERoundTrip(s.block, 8);
    BERoundTrip(|s.data|, 4);
  }

  lemma DataRoundTrip(s: Signal)
    requires s.ReliableData? && Representable(s)
    ensures Decode(Encode(s)) == if Acceptable(s) then Got(s, |Encode(s)|) else Skip(1)
  {
    DataHeader(s);
    hide Encode; hide FromBE; hide BE;
  }

  /** A signal's frame decodes back to that signal, using the frame exactly, precisely when its
      payload is within the limit; an oversized frame loses its tag byte instead. */
  lemma RoundTrip(s: Signal)
    requires Representable(s)
    ensures Acceptable(s) <==> Decode(Encode(s)) == Got(s, |Encode(s)|)
    ensures !Acceptable(s) ==> Decode(Encode(s)) == Skip(1)
  {
    hide FromBE; hide BE;
    match s
    case BlockCount(n) => OneWord(TAG_BLOCK_COUNT, n);
    case HighWater(n) => OneWord(TAG_HIGH_WATER, n);
    case Nack(_, _, _) => NackRoundTrip(s);
    case ReliableRequest(n) => OneWord(TAG_RELIABLE_REQUEST, n);
    case ReliableData(_, _) => DataRoundTrip(s);
    case Credit(n) => OneWord(TAG_CREDIT, n);
    case BlockAck(n) => OneWord(TAG_BLOCKACK, n);
  }

  // ---------------------------------------------------------------- the reader

  datatype Drained = Drained(signals: seq<Signal>, rest: bytes)

  function Put(s: seq<Signal>, d: Drained): Drained { Drained(s + d.signals, d.rest) }

  /** What the reader's inner loop makes of a buffer: the signals it holds, and what stays behind. */
  function Drain(buf: bytes): Drained
    decreases |buf|
  {
    match Decode(buf)
    case NeedMore => Drained([], buf)
    case Got(s, used) => DecodeProgress(buf); Put([s], Drain(buf[used..]))
    case Skip(n) => DecodeProgress(buf); Drain(buf[n..])
  }

  /** Reading `a` and then `b` is reading them together. */
  lemma {:induction false} DrainAppend(a: bytes, b: bytes)
    ensures Drain(a + b) == Put(Drain(a).signals, Drain(Drain(a).rest + b))
    decreases |a|
  {
    if Decode(a) != NeedMore {
      DecodeProgress(a);
      DecodePrefixStable(a, b);
      var n := Consumed(Decode(a));
      assert (a + b)[n..] == a[n..] + b;
      DrainAppend(a[n..], b);
    }
  }

  /** The whole reader: each chunk is appended to what the previous one left behind. */
  function ReadAll(chunks: seq<bytes>): Drained {
    if chunks == [] then Drained([], [])
    else
      var before := ReadAll(chunks[..|chunks| - 1]);
      Put(before.signals, Drain(before.rest + chunks[|chunks| - 1]))
  }

  /** Signals and leftover depend only on the bytes, never on how the transport split them. */
  lemma {:induction false} ChunkInvariance(chunks: seq<bytes>)
    ensures ReadAll(chunks) == Drain(Concat(chunks))
  {
    if chunks != [] {
      ChunkInvariance(chunks[..|chunks| - 1]);
      DrainAppend(Concat(chunks[..|chunks| - 1]), chunks[|chunks| - 1]);
    }
  }

  function EncodeAll(signals: seq<Signal>): bytes {
    if signals == [] then [] else Encode(signals[0]) + EncodeAll(signals[1..])
  }

  lemma {:induction false} DrainEncoded(signals: seq<Signal>)
    requires forall s :: s in signals ==> Representable(s) && Acceptable(s)
    ensures Drain(EncodeAll(signals)) == Drained(signals, [])
  {
    if signals != [] {
      var first, tail := Encode(signals[0]), EncodeAll(signals[1..]);
      RoundTrip(signals[0]);
      DecodePrefixStable(first, tail);
      assert (first + tail)[|first|..] == tail;
      DrainEncoded(signals[1..]);
    }
  }

  /** A written list of signals is read back exactly, with nothing left over, under every split. */
  lemma StreamRoundTrip(signals: seq<Signal>, chunks: seq<bytes>)
    requires forall s :: s in signals ==> Representable(s) && Acceptable(s)
    requires Concat(chunks) == EncodeAll(signals)
    ensures ReadAll(chunks) == Drained(signals, [])
  {
    ChunkInvariance(chunks);
    DrainEncoded(signals);
  }

  /** What stays in the buffer is always the start of one valid frame, so it never outgrows one. */
  lemma {:induction false} LeftoverBounded(buf: bytes)
    ensures Decode(Drain(buf).rest) == NeedMore
    ensures |Drain(buf).rest| < 13 + MAX_RELIABLE_DATA
    decreases |buf|
  {
    if Decode(buf) != NeedMore {
      DecodeProgress(buf);
      LeftoverBounded(buf[Consumed(Decode(buf))..]);
    }
  }

  /** The signal reader task: `buf` survives from one read of the QUIC stream to the next. */
  class Reader {
    var buf: bytes
    ghost var read: seq<bytes>       // the chunks read so far
    ghost var signals: seq<Signal>   // the signals handed on so far

    ghost predicate Valid()
      reads this
    {
      Drained(signals, buf) == ReadAll(read)
    }

    constructor ()
      ensures Valid() && read == []
    {
      buf, read, signals := [], [], [];
    }

    /** One turn of the loop: append the chunk, then take every complete frame off the front. */
    method OnChunk(chunk: bytes) returns (out: seq<Signal>)
      requires Valid()
      modifies this
      ensures Valid()
      ensures read == old(read) + [chunk] && signals == old(signals) + out
      ensures Drained(old(signals) + out, buf) == Drain(Concat(old(read) + [chunk]))
    {
      buf := buf + chunk;
      out := [];
      ghost var start := buf;
      var more := true;
      while more
        invariant Drain(start) == Put(out, Drain(buf))
        invariant !more ==> Drain(start) == Drained(out, buf)
        invariant read == old(read) && signals == old(signals)
        decreases more, |buf|
      {
        match Decode(buf)
        case NeedMore =>
          more := false;
        case Got(sig, used) =>
          DecodeProgress(buf);
          buf := buf[used..];
          out := out + [sig];
        case Skip(n) =>
          DecodeProgress(buf);
          buf := buf[n..];
      }
      read := read + [chunk];
      signals := signals + out;
      assert read[..|read| - 1] == old(read);
      ChunkInvariance(read);
    }
  }
}
