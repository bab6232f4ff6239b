/** The datagram hub under concurrency. The read loop takes the hub's lock twice for a datagram whose
    stream it does not find, and sends outside the lock for one it does; tunnels register, unregister,
    drain their channel and drop it in between. Symbols are named by their position in the order of
    arrival, and `streams` says which stream each was for. */
module HubInterleaving {
  import opened Hub

  datatype Chan = Chan(stream: nat, got: seq<nat>, taken: nat, open: bool)

  /** The read loop: between datagrams, holding a sender it cloned, or about to buffer. */
  datatype Reader = Ready | Routed(channel: nat, sym: nat) | Missed(sym: nat)

  datatype World = World(routes: map<nat, nat>, pending: map<nat, seq<nat>>, channels: seq<Chan>,
                         streams: seq<nat>, reader: Reader, lost: set<nat>)

  datatype Act =
    | Arrive(stream: nat)
    | TrySend
    | Buffer
    | Register(stream: nat)
    | Unregister(stream: nat)
    | Take(channel: nat)
    | CloseChannel(channel: nat)

  function Start(): World { World(map[], map[], [], [], Ready, {}) }

  ghost predicate Enabled(w: World, a: Act) {
    match a
    case Arrive(_) => w.reader.Ready?
    case TrySend => w.reader.Routed? && w.reader.channel < |w.channels|
    case Buffer => w.reader.Missed? && w.reader.sym < |w.streams|
    case Register(_) => true
    case Unregister(_) => true
    case Take(c) => c < |w.channels| && w.channels[c].open && w.channels[c].taken < |w.channels[c].got|
    case CloseChannel(c) => c < |w.channels|
  }

  function Waiting(w: World, stream: nat): seq<nat> {
    if stream in w.pending then w.pending[stream] else []
  }

  predicate Accepts(c: Chan) { c.open && |c.got| < c.taken + ROUTE_CAPACITY }

  ghost function Next(w: World, a: Act): World
    requires Enabled(w, a)
  {
    match a
    case Arrive(s) =>
      w.(streams := w.streams + [s],
         reader := if s in w.routes then Routed(w.routes[s], |w.streams|) else Missed(|w.streams|))
    case TrySend =>
      var c, i := w.channels[w.reader.channel], w.reader.sym;
      if Accepts(c) then w.(channels := w.channels[w.reader.channel := c.(got := c.got + [i])], reader := Ready)
      else w.(lost := w.lost + {i}, reader := Ready)
    case Buffer =>
      var i := w.reader.sym;
      var p := if w.streams[i] in w.routes then w.pending else Buffered(w.pending, w.streams[i], i);
      if p == w.pending then w.(lost := w.lost + {i}, reader := Ready) else w.(pending := p, reader := Ready)
    case Register(s) =>
      w.(routes := w.routes[s := |w.channels|], pending := w.pending - {s},
         channels := w.channels + [Chan(s, Waiting(w, s), 0, true)])
    case Unregister(s) =>
      w.(routes := w.routes - {s}, pending := w.pending - {s},
         lost := w.lost + set i | i in Waiting(w, s))
    case Take(c) => w.(channels := w.channels[c := w.channels[c].(taken := w.channels[c].taken + 1)])
    case CloseChannel(c) => w.(channels := w.channels[c := w.channels[c].(open := false)])
  }

  ghost predicate Leads(w: World, acts: seq<Act>, w': World)
    decreases |acts|
  {
    if acts == [] then w == w' else Enabled(w, acts[0]) && Leads(Next(w, acts[0]), acts[1..], w')
  }

  // ---------------------------------------------------------------- what every step keeps

  ghost predicate Increasing(s: seq<nat>) { forall i, j :: 0 <= i < j < |s| ==> s[i] < s[j] }

  /** An ascending list of arrivals, all of one stream and all before `bound`. */
  ghost predicate OfStream(list: seq<nat>, stream: nat, streams: seq<nat>, bound: nat) {
    && Increasing(list)
    && forall i :: i in list ==> i < bound && i < |streams| && streams[i] == stream
  }

  /** The arrival in the reader's hand is the latest; everything else came before it. */
  function Bound(w: World): nat {
    if w.reader.Ready? || w.streams == [] then |w.streams| else |w.streams| - 1
  }

  ghost predicate ReaderOk(w: World) {
    match w.reader
    case Ready => true
    case Routed(c, i) => i + 1 == |w.streams| && c < |w.channels| && w.channels[c].stream == w.streams[i]
    case Missed(i) => i + 1 == |w.streams|
  }

  ghost predicate ListsOk(w: World) {
    && (forall s :: s in w.pending ==> OfStream(w.pending[s], s, w.streams, Bound(w)))
    && (forall c :: 0 <= c < |w.channels| ==> OfStream(w.channels[c].got, w.channels[c].stream, w.streams, Bound(w)))
    && (forall i :: i in w.lost ==> i < Bound(w))
  }

  ghost predicate PendingOk(w: World) { w.routes.Keys !! w.pending.Keys && WithinCaps(w.pending) }

  ghost predicate TargetsOk(w: World) {
    forall s :: s in w.routes ==> w.routes[s] < |w.channels| && w.channels[w.routes[s]].stream == s
  }

  ghost predicate QueuesOk(w: World) {
    forall c :: 0 <= c < |w.channels| ==> w.channels[c].taken <= |w.channels[c].got| <= w.channels[c].taken + ROUTE_CAPACITY
  }

  /** No arrival is in two channels, or in a channel and the buffer, or lost and still somewhere. */
  ghost predicate Apart(w: World) {
    && (forall c, d, i :: 0 <= c < d < |w.channels| && i in w.channels[c].got ==> i !in w.channels[d].got)
    && (forall c, s, i :: 0 <= c < |w.channels| && s in w.pending && i in w.channels[c].got ==> i !in w.pending[s])
    && (forall c, i :: 0 <= c < |w.channels| && i in w.channels[c].got ==> i !in w.lost)
    && (forall s, i :: s in w.pending && i in w.pending[s] ==> i !in w.lost)
  }

  ghost predicate Somewhere(w: World, i: nat) {
    || i in w.lost
    || (exists c :: 0 <= c < |w.channels| && i in w.channels[c].got)
    || (exists s :: s in w.pending && i in w.pending[s])
  }

  ghost predicate Inv(w: World) {
    ReaderOk(w) && ListsOk(w) && PendingOk(w) && TargetsOk(w) && QueuesOk(w) && Apart(w) && forall i: nat :: i < Bound(w) ==> Somewhere(w, i)
  }

  lemma StillOfStream(list: seq<nat>, stream: nat, streams: seq<nat>, bound: nat, streams': seq<nat>, bound': nat)
    requires OfStream(list, stream, streams, bound) && streams <= streams' && bound <= bound'
    ensures OfStream(list, stream, streams', bound')
  {}

  lemma AppendedOfStream(list: seq<nat>, stream: nat, streams: seq<nat>, i: nat)
    requires OfStream(list, stream, streams, i) && i < |streams| && streams[i] == stream
    ensures OfStream(list + [i], stream, streams, i + 1)
  {
    forall j, k | 0 <= j < k < |list| + 1
      ensures (list + [i])[j] < (list + [i])[k]
    {
      assert list[j] in list;
    }
  }

  lemma PendingKeeps(w: World, a: Act, s: nat)
    requires Enabled(w, a) && ReaderOk(w) && ListsOk(w) && s in Next(w, a).pending
    ensures OfStream(Next(w, a).pending[s], s, Next(w, a).streams, Bound(Next(w, a)))
  {
    hide OfStream;
    var w' := Next(w, a);
    var was := Waiting(w, s);
    NothingOfStream(s, w.streams, Bound(w));
    assert OfStream(was, s, w.streams, Bound(w));
    if w'.pending[s] == was {
      StillOfStream(was, s, w.streams, Bound(w), w'.streams, Bound(w'));
    } else {
      AppendedOfStream(was, s, w.streams, w.reader.sym);
    }
  }

  lemma NothingOfStream(stream: nat, streams: seq<nat>, bound: nat)
    ensures OfStream([], stream, streams, bound)
  {}

  lemma ChannelKeeps(w: World, a: Act, c: nat)
    requires Enabled(w, a) && ReaderOk(w) && ListsOk(w) && c < |Next(w, a).channels|
    ensures OfStream(Next(w, a).channels[c].got, Next(w, a).channels[c].stream, Next(w, a).streams, Bound(Next(w, a)))
  {
    hide OfStream;
    var w' := Next(w, a);
    if c == |w.channels| {
      NothingOfStream(a.stream, w.streams, Bound(w));
    } else {
      var ch := w.channels[c];
      assert OfStream(ch.got, ch.stream, w.streams, Bound(w));
      if w'.channels[c].got == ch.got {
        StillOfStream(ch.got, ch.stream, w.streams, Bound(w), w'.streams, Bound(w'));
      } else {
        AppendedOfStream(ch.got, ch.stream, w.streams, w.reader.sym);
      }
    }
  }

  lemma LostKeeps(w: World, a: Act)
    requires Enabled(w, a) && ReaderOk(w) && ListsOk(w)
    ensures forall i :: i in Next(w, a).lost ==> i < Bound(Next(w, a))
  {
    if a.Unregister? && a.stream in w.pending {
      assert OfStream(w.pending[a.stream], a.stream, w.streams, Bound(w));
    }
  }

  lemma ListsKeep(w: World, a: Act)
    requires Enabled(w, a) && ReaderOk(w) && ListsOk(w)
    ensures ListsOk(Next(w, a))
  {
    hide Next; hide OfStream;
    var w' := Next(w, a);
    forall s | s in w'.pending
      ensures OfStream(w'.pending[s], s, w'.streams, Bound(w'))
    {
      PendingKeeps(w, a, s);
    }
    forall c | 0 <= c < |w'.channels|
      ensures OfStream(w'.channels[c].got, w'.channels[c].stream, w'.streams, Bound(w'))
    {
      ChannelKeeps(w, a, c);
    }
    LostKeeps(w, a);
  }

  lemma PendingOkKeeps(w: World, a: Act)
    requires Enabled(w, a) && ReaderOk(w) && PendingOk(w)
    ensures PendingOk(Next(w, a))
  {
    hide WithinCaps;
    if a.Buffer? {
      BufferedWithinCaps(w.pending, w.streams[w.reader.sym], w.reader.sym);
    } else if a.Register? || a.Unregister? {
      KeysAfter(w.pending, a.stream);
    }
  }

  lemma QueuesOkKeeps(w: World, a: Act)
    requires Enabled(w, a) && PendingOk(w) && QueuesOk(w)
    ensures QueuesOk(Next(w, a))
  {
    hide Buffered;
  }

  lemma TargetsKeep(w: World, a: Act)
    requires Enabled(w, a) && ReaderOk(w) && TargetsOk(w)
    ensures TargetsOk(Next(w, a)) && ReaderOk(Next(w, a))
  {
    hide Buffered;
  }

  lemma ApartKeeps(w: World, a: Act)
    requires Enabled(w, a) && ReaderOk(w) && ListsOk(w) && Apart(w)
    ensures Apart(Next(w, a))
  {
    match a
    case TrySend => ApartSend(w);
    case Buffer => ApartBuffer(w);
    case Register(s) => ApartRegister(w, s);
    case Unregister(s) => ApartUnregister(w, s);
    case Arrive(_) =>
    case Take(_) =>
    case CloseChannel(_) =>
  }

  lemma NewToAll(w: World)
    requires ReaderOk(w) && ListsOk(w) && !w.reader.Ready?
    ensures w.reader.sym !in w.lost
    ensures forall c :: 0 <= c < |w.channels| ==> w.reader.sym !in w.channels[c].got
    ensures forall s :: s in w.pending ==> w.reader.sym !in w.pending[s]
  {
    forall c | 0 <= c < |w.channels|
      ensures w.reader.sym !in w.channels[c].got
    {
      assert OfStream(w.channels[c].got, w.channels[c].stream, w.streams, Bound(w));
    }
    forall s | s in w.pending
      ensures w.reader.sym !in w.pending[s]
    {
      assert OfStream(w.pending[s], s, w.streams, Bound(w));
    }
  }

  lemma ApartSend(w: World)
    requires Enabled(w, TrySend) && ReaderOk(w) && ListsOk(w) && Apart(w)
    ensures Apart(Next(w, TrySend))
  {
    NewToAll(w);
    hide ListsOk;
    var w' := Next(w, TrySend);
    forall c, i | 0 <= c < |w'.channels| && i in w'.channels[c].got
      ensures i in w.channels[c].got || (i == w.reader.sym && c == w.reader.channel && Accepts(w.channels[c]))
    {}
  }

  lemma ApartBuffer(w: World)
    requires Enabled(w, Buffer) && ReaderOk(w) && ListsOk(w) && Apart(w)
    ensures Apart(Next(w, Buffer))
  {
    NewToAll(w);
    hide ListsOk;
    var w' := Next(w, Buffer);
    forall s, i | s in w'.pending && i in w'.pending[s]
      ensures (s in w.pending && i in w.pending[s]) || (i == w.reader.sym && w'.lost == w.lost)
    {}
  }

  lemma ApartRegister(w: World, stream: nat)
    requires ListsOk(w) && Apart(w)
    ensures Apart(Next(w, Register(stream)))
  {
    OneStreamEach(w);
    hide ListsOk;
  }

  lemma ApartUnregister(w: World, stream: nat)
    requires ListsOk(w) && Apart(w)
    ensures Apart(Next(w, Unregister(stream)))
  {
    OneStreamEach(w);
    hide ListsOk;
  }

  lemma OneStreamEach(w: World)
    requires ListsOk(w)
    ensures forall s, r, i :: s in w.pending && r in w.pending && i in w.pending[s] && i in w.pending[r] ==> s == r
  {
    forall s, r, i | s in w.pending && r in w.pending && i in w.pending[s] && i in w.pending[r]
      ensures s == r
    {
      assert OfStream(w.pending[s], s, w.streams, Bound(w)) && OfStream(w.pending[r], r, w.streams, Bound(w));
    }
  }

  lemma SomewhereKeeps(w: World, a: Act)
    requires Enabled(w, a) && ReaderOk(w) && forall i: nat :: i < Bound(w) ==> Somewhere(w, i)
    ensures forall i: nat :: i < Bound(Next(w, a)) ==> Somewhere(Next(w, a), i)
  {
    var w' := Next(w, a);
    forall i: nat | i < Bound(w')
      ensures Somewhere(w', i)
    {
      if i < Bound(w) {
        StaysSomewhere(w, a, i);
      } else {
        ArrivesSomewhere(w, a);
      }
    }
  }

  lemma StaysSomewhere(w: World, a: Act, i: nat)
    requires Enabled(w, a) && Somewhere(w, i)
    ensures Somewhere(Next(w, a), i)
  {
    var w' := Next(w, a);
    if c :| 0 <= c < |w.channels| && i in w.channels[c].got {
      assert i in w'.channels[c].got;
    } else if s :| s in w.pending && i in w.pending[s] {
      if a.Register? && a.stream == s {
        assert i in w'.channels[|w.channels|].got;
      } else if a.Unregister? && a.stream == s {
        assert i in w'.lost;
      } else {
        assert s in w'.pending && i in w'.pending[s];
      }
    }
  }

  lemma ArrivesSomewhere(w: World, a: Act)
    requires Enabled(w, a) && ReaderOk(w) && Bound(w) < Bound(Next(w, a))
    ensures Bound(Next(w, a)) == Bound(w) + 1 && Somewhere(Next(w, a), Bound(w))
  {
    var w' := Next(w, a);
    if a.TrySend? {
      var c := w.reader.channel;
      assert Accepts(w.channels[c]) ==> w'.channels[c].got[|w.channels[c].got|] == Bound(w);
    } else {
      var s := w.streams[w.reader.sym];
      if w'.pending != w.pending {
        assert w'.pending[s][|Waiting(w, s)|] == Bound(w);
      }
    }
  }

  lemma NextKeeps(w: World, a: Act)
    requires Inv(w) && Enabled(w, a)
    ensures Inv(Next(w, a))
  {
    hide Next; hide ReaderOk; hide ListsOk; hide PendingOk; hide TargetsOk; hide QueuesOk; hide Apart; hide Somewhere;
    ListsKeep(w, a);
    PendingOkKeeps(w, a);
    TargetsKeep(w, a);
    QueuesOkKeeps(w, a);
    ApartKeeps(w, a);
    SomewhereKeeps(w, a);
  }

  lemma {:induction false} LeadsKeeps(w: World, acts: seq<Act>, w': World)
    requires Inv(w) && Leads(w, acts, w')
    ensures Inv(w')
    decreases |acts|
  {
    if acts != [] {
      hide Next; hide Inv; hide Enabled;
      NextKeeps(w, acts[0]);
      LeadsKeeps(Next(w, acts[0]), acts[1..], w');
    }
  }

  // ---------------------------------------------------------------- theorems

  /** Whatever registrations fall between the reader's two locks: no stream is both routed and
      buffered, and the buffer keeps its caps. */
  lemma RoutedOrBuffered(acts: seq<Act>, w: World)
    requires Leads(Start(), acts, w)
    ensures w.routes.Keys !! w.pending.Keys && |w.pending| <= MAX_PENDING_STREAMS
    ensures forall s :: s in w.pending ==> |w.pending[s]| <= MAX_PENDING_PER_STREAM
  {
    LeadsKeeps(Start(), acts, w);
  }

  /** Each channel receives a subsequence of its own stream's arrivals, in order and without repeats,
      and no arrival reaches two channels even when a stream is registered again and again. */
  lemma InOrderOnce(acts: seq<Act>, w: World)
    requires Leads(Start(), acts, w)
    ensures forall c :: 0 <= c < |w.channels| ==> OfStream(w.channels[c].got, w.channels[c].stream, w.streams, |w.streams|)
    ensures forall c, d, i :: 0 <= c < d < |w.channels| && i in w.channels[c].got ==> i !in w.channels[d].got
  {
    LeadsKeeps(Start(), acts, w);
    forall c | 0 <= c < |w.channels|
      ensures OfStream(w.channels[c].got, w.channels[c].stream, w.streams, |w.streams|)
    {
      assert OfStream(w.channels[c].got, w.channels[c].stream, w.streams, Bound(w));
    }
  }

  /** Every arrival the reader has dealt with is in a channel, buffered, or known to be lost, and never
      in two of these: the hub neither forgets a symbol nor makes a second one of it. */
  lemma Accounted(acts: seq<Act>, w: World, i: nat)
    requires Leads(Start(), acts, w) && i < |w.streams| && w.reader.Ready?
    ensures Somewhere(w, i)
    ensures i in w.lost ==> forall c :: 0 <= c < |w.channels| ==> i !in w.channels[c].got
    ensures i in w.lost ==> forall s :: s in w.pending ==> i !in w.pending[s]
    ensures forall c, s :: 0 <= c < |w.channels| && s in w.pending && i in w.channels[c].got ==> i !in w.pending[s]
  {
    LeadsKeeps(Start(), acts, w);
  }

  /** Exactly which steps lose a symbol: a send into a full or closed channel, a buffering that finds
      the stream meanwhile registered or a cap reached, and tearing down a stream never registered. */
  lemma LosesExactlyWhen(acts: seq<Act>, w: World, a: Act)
    requires Leads(Start(), acts, w) && Enabled(w, a)
    ensures Next(w, a).lost != w.lost <==>
      || (a.TrySend? && !Accepts(w.channels[w.reader.channel]))
      || (a.Buffer? && w.streams[w.reader.sym] in w.routes)
      || (a.Buffer? && if w.streams[w.reader.sym] in w.pending then |w.pending[w.streams[w.reader.sym]]| == MAX_PENDING_PER_STREAM
                       else |w.pending| == MAX_PENDING_STREAMS)
      || (a.Unregister? && Waiting(w, a.stream) != [])
  {
    hide Leads;
    LeadsKeeps(Start(), acts, w);
    if a.TrySend? || a.Buffer? {
      assert w.reader.sym == Bound(w) && w.reader.sym !in w.lost;
    }
    if a.Buffer? {
      hide WithinCaps;
      BufferedWithinCaps(w.pending, w.streams[w.reader.sym], w.reader.sym);
    }
    if a.Unregister? && Waiting(w, a.stream) != [] {
      var i := w.pending[a.stream][0];
      assert i in w.pending[a.stream] && i !in w.lost;
      assert i in Next(w, a).lost;
    }
  }

  /** Registering replays the whole buffer: the new channel starts with everything that waited. */
  lemma ReplayDropsNothing(acts: seq<Act>, w: World, stream: nat)
    requires Leads(Start(), acts, w)
    ensures var w' := Next(w, Register(stream));
      && w'.channels[|w.channels|].got == Waiting(w, stream)
      && |Waiting(w, stream)| <= ROUTE_CAPACITY && w'.lost == w.lost
  {
    LeadsKeeps(Start(), acts, w);
  }
}
