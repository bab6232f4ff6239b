/** The connection's datagram demultiplexer: symbols go to the channel registered for their stream,
    and those that arrive before it is registered wait in a bounded buffer. */
module Hub {
  import opened Base
  import opened Datagram

  const MAX_PENDING_PER_STREAM: nat := 256
  const MAX_PENDING_STREAMS: nat := 1024
  const ROUTE_CAPACITY: nat := 8192

  datatype Inbound = Inbound(block: nat, actualK: nat, esi: nat, payload: bytes)

  function SymbolOf(d: bytes): Inbound
    requires |d| >= 22
  {
    var h := HeaderOf(d);
    Inbound(h.blockId, h.actualK, h.esi, d[22..])
  }

  /** What reaches a channel or the buffer is what was framed: stream, block, K and the low 24 bits of the
      index from the header, and the payload behind it. */
  lemma FramedIsRead(h: SymbolHeader, payload: bytes)
    requires Representable(h)
    ensures var d := HeaderBytes(h) + payload;
      |d| == 22 + |payload| && HeaderOf(d).streamId == h.streamId
      && SymbolOf(d) == Inbound(h.blockId, h.actualK, h.esi % 0x100_0000, payload)
  {
    HeaderRoundTrip(h, payload);
  }

  /** `dispatch` for an unregistered stream: a new stream only below the stream cap, a symbol only below
      its stream's cap. */
  function Buffered<T>(pending: map<nat, seq<T>>, stream: nat, x: T): map<nat, seq<T>> {
    if stream !in pending && |pending| >= MAX_PENDING_STREAMS then pending
    else
      var waiting := if stream in pending then pending[stream] else [];
      pending[stream := if |waiting| < MAX_PENDING_PER_STREAM then waiting + [x] else waiting]
  }

  ghost predicate WithinCaps<T>(pending: map<nat, seq<T>>) {
    |pending| <= MAX_PENDING_STREAMS && forall s :: s in pending ==> |pending[s]| <= MAX_PENDING_PER_STREAM
  }

  /** Buffering keeps both caps and loses a symbol exactly when one of them is reached. */
  lemma BufferedWithinCaps<T>(pending: map<nat, seq<T>>, stream: nat, x: T)
    requires WithinCaps(pending)
    ensures WithinCaps(Buffered(pending, stream, x))
    ensures Buffered(pending, stream, x) == pending <==>
      if stream in pending then |pending[stream]| == MAX_PENDING_PER_STREAM else |pending| == MAX_PENDING_STREAMS
  {}

  /** A symbol goes behind those that wait for the same stream, unless 256 do, or none does and 1024 other
      streams wait; then nothing changes. No other stream's symbols move. */
  lemma BufferedAppends<T>(pending: map<nat, seq<T>>, stream: nat, x: T)
    requires WithinCaps(pending)
    ensures var p, waiting := Buffered(pending, stream, x), if stream in pending then pending[stream] else [];
      if |waiting| == 256 || (stream !in pending && |pending| == 1024) then p == pending
      else p == pending[stream := waiting + [x]]
  {}

  /** A bounded `mpsc` channel; `open` until its receiver is dropped. */
  class Channel {
    var queue: seq<Inbound>
    var open: bool

    constructor ()
      ensures queue == [] && open
    {
      queue, open := [], true;
    }

    method TrySend(x: Inbound) returns (ok: bool)
      modifies this`queue
      ensures ok <==> open && |old(queue)| < ROUTE_CAPACITY
      ensures queue == if ok then old(queue) + [x] else old(queue)
    {
      ok := open && |queue| < ROUTE_CAPACITY;
      if ok {
        queue := queue + [x];
      }
    }
  }

  class DatagramHub {
    var routes: map<nat, Channel>
    var pending: map<nat, seq<Inbound>>

    ghost predicate Valid()
      reads this
    {
      routes.Keys !! pending.Keys && WithinCaps(pending)
    }

    constructor ()
      ensures Valid() && routes == map[] && pending == map[]
    {
      routes, pending := map[], map[];
    }

    /** Everything buffered for the stream is replayed, in order: the buffer is too small to fill a
        new channel, so no replayed symbol is ever dropped. */
    method Register(stream: nat) returns (channel: Channel)
      requires Valid()
      modifies this
      ensures Valid() && fresh(channel) && channel.open
      ensures routes == old(routes)[stream := channel] && pending == old(pending) - {stream}
      ensures channel.queue == if stream in old(pending) then old(pending[stream]) else []
    {
      channel := new Channel();
      if stream in pending {
        var buffered := pending[stream];
        KeysAfter(pending, stream);
        pending := pending - {stream};
        for i := 0 to |buffered|
          modifies channel
          invariant channel.open && channel.queue == buffered[..i]
        {
          var ok := channel.TrySend(buffered[i]);
        }
        assert buffered[..|buffered|] == buffered;
      } else {
        assert pending - {stream} == pending;
      }
      routes := routes[stream := channel];
    }

    method Unregister(stream: nat)
      requires Valid()
      modifies this
      ensures Valid() && routes == old(routes) - {stream} && pending == old(pending) - {stream}
    {
      KeysAfter(pending, stream);
      routes := routes - {stream};
      pending := pending - {stream};
    }

    method DispatchRoute(datagram: bytes) returns (r: Option<(Channel, Inbound)>)
      ensures r.Some? <==> |datagram| >= 22 && HeaderOf(datagram).streamId in routes
      ensures r.Some? ==> r.value == (routes[HeaderOf(datagram).streamId], SymbolOf(datagram))
    {
      var parsed := Parse(datagram);
      if parsed.None? {
        return None;
      }
      var (hdr, payload) := parsed.value;
      if hdr.streamId in routes {
        r := Some((routes[hdr.streamId], Inbound(hdr.blockId, hdr.actualK, hdr.esi, payload)));
      } else {
        r := None;
      }
    }

    method Dispatch(datagram: bytes)
      requires Valid()
      modifies this`pending
      ensures Valid()
      ensures pending ==
        if |datagram| >= 22 && HeaderOf(datagram).streamId !in routes
        then Buffered(old(pending), HeaderOf(datagram).streamId, SymbolOf(datagram))
        else old(pending)
    {
      var parsed := Parse(datagram);
      if parsed.None? {
        return;
      }
      var (hdr, payload) := parsed.value;
      if hdr.streamId in routes {
        return;
      }
      BufferedWithinCaps(pending, hdr.streamId, Inbound(hdr.blockId, hdr.actualK, hdr.esi, payload));
      if hdr.streamId !in pending {
        if |pending| >= MAX_PENDING_STREAMS {
          return;
        }
        pending := pending[hdr.streamId := []];
      }
      var buf := pending[hdr.streamId];
      if |buf| < MAX_PENDING_PER_STREAM {
        pending := pending[hdr.streamId := buf + [Inbound(hdr.blockId, hdr.actualK, hdr.esi, payload)]];
      }
    }
  }

  lemma KeysAfter<T>(pending: map<nat, seq<T>>, stream: nat)
    requires WithinCaps(pending)
    ensures WithinCaps(pending - {stream})
  {
    var p := pending - {stream};
    assert p.Keys == pending.Keys - {stream};
    assert |p.Keys| <= |pending.Keys|;
  }

  /** One turn of the connection's read loop. */
  method OnDatagram(hub: DatagramHub, datagram: bytes)
    requires hub.Valid()
    modifies hub`pending, set s | s in hub.routes :: hub.routes[s]`queue
    ensures hub.Valid()
    ensures |datagram| < 22 || HeaderOf(datagram).streamId in hub.routes ==> hub.pending == old(hub.pending)
    ensures |datagram| >= 22 && HeaderOf(datagram).streamId !in hub.routes ==>
      hub.pending == Buffered(old(hub.pending), HeaderOf(datagram).streamId, SymbolOf(datagram))
    ensures forall s :: s in hub.routes ==>
      var c := hub.routes[s];
      if |datagram| >= 22 && HeaderOf(datagram).streamId in hub.routes && hub.routes[HeaderOf(datagram).streamId] == c
         && c.open && |old(c.queue)| < ROUTE_CAPACITY
      then c.queue == old(c.queue) + [SymbolOf(datagram)]
      else c.queue == old(c.queue)
  {
    var routed := hub.DispatchRoute(datagram);
    if routed.Some? {
      var (channel, sym) := routed.value;
      var ok := channel.TrySend(sym);
    } else {
      hub.Dispatch(datagram);
    }
  }
}
