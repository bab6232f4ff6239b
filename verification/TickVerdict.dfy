/** What one control tick says about each block, with its conditions written out: for a block with a manager
    the stall test, the congestion test and the budget at its turn decide, and for one without the bounds the
    receiver knows. */
module TickVerdict {
  import opened Base
  import opened Codec
  import opened Link
  import opened Budget
  import opened Signals
  import opened Decoder
  import opened Receiver
  import opened ReceiverSafety
  import opened TickSafety
  import opened Convergence

  predicate Names(s: Signal, x: nat) { (s.Nack? || s.ReliableRequest?) && s.block == x }

  /** The signals that ask for something about one block. */
  function About(signals: seq<Signal>, x: nat): seq<Signal> {
    if signals == [] then []
    else
      var rest, last := signals[..|signals| - 1], signals[|signals| - 1];
      About(rest, x) + if Names(last, x) then [last] else []
  }

  lemma AboutSnoc(signals: seq<Signal>, s: Signal, x: nat)
    ensures About(signals + [s], x) == About(signals, x) + if Names(s, x) then [s] else []
  {
    assert (signals + [s])[..|signals|] == signals;
  }

  /** The turn of one block changes nothing about another. */
  lemma OtherTurn(t: Ticked, y: nat, highest: nat, link: LinkState, now: nat, x: nat)
    requires x != y
    ensures var t' := TickOne(t, y, highest, link, now);
      && About(t'.signals, x) == About(t.signals, x) && (x in t'.recv.requested <==> x in t.recv.requested)
      && (x in t'.recv.managers <==> x in t.recv.managers)
      && (x in t.recv.managers ==> t'.recv.managers[x] == t.recv.managers[x])
  {
    hide TickStep; hide About;
    if y in t.recv.managers {
      var s := TickStep(t.recv.managers[y], t.budget, TickCtx(now, link, highest > y));
      match s.action
      case SendNack(have, need) => AboutSnoc(t.signals, Nack(y, have, need), x);
      case RequestReliableRetransmit => AboutSnoc(t.signals, ReliableRequest(y), x);
      case _ =>
    }
  }

  /** Turns `i .. j`, none of them the block's own, change nothing about it. */
  lemma {:induction false} OtherTurns(r: Recv, b: Ledger, order: seq<nat>, link: LinkState, now: nat, i: nat, j: nat, x: nat)
    requires i <= j <= |order| && x !in order[i..j]
    ensures var t, t' := TickAll(r, b, order[..i], link, now), TickAll(r, b, order[..j], link, now);
      && About(t'.signals, x) == About(t.signals, x) && (x in t'.recv.requested <==> x in t.recv.requested)
      && (x in t'.recv.managers <==> x in t.recv.managers)
      && (x in t.recv.managers ==> t'.recv.managers[x] == t.recv.managers[x])
    decreases j - i
  {
    hide TickOne; hide About;
    if i < j {
      assert order[i..j][..j - i - 1] == order[i..j - 1] && order[i..j][j - i - 1] == order[j - 1];
      OtherTurns(r, b, order, link, now, i, j - 1, x);
      assert order[..j][..j - 1] == order[..j - 1] && order[..j][j - 1] == order[j - 1];
      OtherTurn(TickAll(r, b, order[..j - 1], link, now), order[j - 1], r.highestSeen, link, now, x);
    }
  }

  /** The verdict on one block with a manager, at its turn. */
  ghost predicate Judged(m: Mgr, before: Ledger, asked: bool, link: LinkState, now: nat, laterSeen: bool, x: nat, m': Mgr, said: seq<Signal>) {
    var need := m.k - m.received;
    if !IsDue(m, laterSeen, link, now) then m' == m && said == []
    else if Refuses(m, before, link) then
      m' == m.(state := Degraded, reserved := 0) && said == if asked then [] else [ReliableRequest(x)]
    else m' == m.(state := NackSent(need, now), reserved := need) && said == [Nack(x, m.received, need)]
  }

  lemma DueIsShort(m: Mgr, laterSeen: bool, link: LinkState, now: nat)
    ensures IsDue(m, laterSeen, link, now) ==> m.received < m.k
  {}

  lemma OwnTurn(t: Ticked, highest: nat, link: LinkState, now: nat, x: nat)
    requires x in t.recv.managers && MgrInv(t.recv.managers[x]) && Backed(t.recv.managers[x], t.budget)
    requires About(t.signals, x) == []
    ensures var t' := TickOne(t, x, highest, link, now);
      x in t'.recv.managers
      && Judged(t.recv.managers[x], t.budget, x in t.recv.requested, link, now, x < highest, x,
                t'.recv.managers[x], About(t'.signals, x))
  {
    hide TickStep; hide IsDue; hide About; hide MgrInv; hide Refuses;
    var m, c := t.recv.managers[x], TickCtx(now, link, highest > x);
    TickDoes(m, t.budget, c);
    DueIsShort(m, x < highest, link, now);
    AboutSnoc(t.signals, Nack(x, m.received, Monus(m.k, m.received)), x);
    AboutSnoc(t.signals, ReliableRequest(x), x);
  }

  lemma {:induction false} ScanAbout(t: Ticked, lo: nat, hi: nat, x: nat)
    ensures var t' := LostScan(t, lo, hi);
      && About(t'.signals, x)
         == About(t.signals, x) + (if lo <= x < hi && Invisible(t.recv, x) then [ReliableRequest(x)] else [])
      && t'.budget == t.budget && t'.recv == t.recv.(requested := t'.recv.requested)
      && (x >= hi ==> (x in t'.recv.requested <==> x in t.recv.requested))
    decreases hi
  {
    hide About;
    if lo < hi {
      ScanAbout(t, lo, hi - 1, x);
      ScanAbout(t, lo, hi - 1, hi - 1);
      var t1 := LostScan(t, lo, hi - 1);
      AboutSnoc(t1.signals, ReliableRequest(hi - 1), x);
    }
  }

  lemma ManagersReady(q: RaptorQ, produced: seq<bytes>, r: Recv, b: Ledger, order: seq<nat>, link: LinkState, now: nat, x: nat)
    requires RecvOk(q, produced, r) && Held(r) <= b.inFlight && x in r.managers
    ensures var t := TickAll(r, b, order, link, now);
      x in t.recv.managers && MgrInv(t.recv.managers[x]) && Backed(t.recv.managers[x], t.budget)
      && t.recv == r.(managers := t.recv.managers, requested := t.recv.requested)
  {
    AllKeeps(q, produced, r, b, order, link, now);
    hide TickAll; hide RecvOk; hide Held; hide MgrInv; hide Backed;
    var t := TickAll(r, b, order, link, now);
    assert x in t.recv.managers.Keys;
    hide ManagersOk;
    PassReady(q, produced, r, b, t, x);
  }

  /** Over a whole tick, for every block with a manager, in whatever order the blocks come up: what is said
      about it, and what becomes of its manager, is decided by its own clock, by whether a later block has
      been seen, by the link, and by the budget as the blocks before it left it. A stalled block is asked
      for at once when the link and the budget allow it, however far off its hard deadline. */
  lemma BlockJudged(q: RaptorQ, produced: seq<bytes>, r: Recv, b: Ledger, order: seq<nat>, link: LinkState, now: nat, i: nat)
    requires RecvOk(q, produced, r) && Held(r) <= b.inFlight && Enumerates(order, r.managers) && i < |order|
    ensures var x, t := order[i], RecvTick(r, b, order, link, now);
      x in r.managers && x in t.recv.managers
      && Judged(r.managers[x], RecvTick(r, b, order[..i], link, now).budget, x in r.requested, link, now, x < r.highestSeen,
                x, t.recv.managers[x], About(t.signals, x))
  {
    hide MgrInv; hide Backed; hide Judged; hide TickOne; hide Upper; hide About; hide LostScan; hide Held; hide RecvOk;
    var x, n := order[i], |order|;
    assert x in order && x !in order[0..i] && x !in order[i + 1..n];
    var t0, t1, t2 := TickAll(r, b, order[..i], link, now), TickAll(r, b, order[..i + 1], link, now), TickAll(r, b, order, link, now);
    assert order[..0] == [] && order[..n] == order;
    NothingSaid(r, b, link, now, x);
    OtherTurns(r, b, order, link, now, 0, i, x);
    assert order[..i + 1][..i] == order[..i];
    ManagersReady(q, produced, r, b, order[..i], link, now, x);
    OwnTurn(t0, r.highestSeen, link, now, x);
    assert order[..i + 1][i] == x && t1 == TickOne(t0, x, r.highestSeen, link, now);
    OtherTurns(r, b, order, link, now, i + 1, n, x);
    ScanAbout(t0, t0.recv.nextDeliver, Upper(t0.recv), x);
    ScanAbout(t2, t2.recv.nextDeliver, Upper(t2.recv), x);
    hide TickAll;
    assert RecvTick(r, b, order[..i], link, now).budget == t0.budget;
    assert About(RecvTick(r, b, order, link, now).signals, x) == About(t1.signals, x);
    assert t0.recv.managers[x] == r.managers[x] && RecvTick(r, b, order, link, now).recv.managers[x] == t1.recv.managers[x];
  }

  lemma NothingSaid(r: Recv, b: Ledger, link: LinkState, now: nat, x: nat)
    ensures TickAll(r, b, [], link, now) == Ticked(r, b, []) && About([], x) == []
  {}

  /** The block exists for all the receiver knows: it is no later than the highest one seen, or below the
      announced high water or total. A receiver that has seen nothing has seen no block 0. */
  predicate Known(r: Recv, x: nat) {
    || (x <= r.highestSeen && (r.managers != map[] || r.highestSeen > 0))
    || x < r.highWater
    || (r.total.Some? && x < r.total.value)
  }

  /** And for every block without one: a reliable copy is asked for exactly if the block is known, neither
      delivered nor waiting, and has not been asked for before. */
  lemma LostJudged(q: RaptorQ, produced: seq<bytes>, r: Recv, b: Ledger, order: seq<nat>, link: LinkState, now: nat, x: nat)
    requires RecvOk(q, produced, r) && Held(r) <= b.inFlight && Enumerates(order, r.managers) && x !in r.managers
    ensures About(RecvTick(r, b, order, link, now).signals, x)
      == if Known(r, x) && x >= r.nextDeliver && x !in r.ready && x !in r.requested then [ReliableRequest(x)] else []
  {
    hide MgrInv; hide TickOne; hide About; hide LostScan; hide Held; hide RecvOk; hide TickSoFar;
    assert x !in order && order[..0] == [] && order[..|order|] == order;
    NothingSaid(r, b, link, now, x);
    OtherTurns(r, b, order, link, now, 0, |order|, x);
    var t := TickAll(r, b, order, link, now);
    PassKeepsFields(q, produced, r, b, order, link, now);
    SameUpper(r, t.recv);
    ScanAbout(t, t.recv.nextDeliver, Upper(t.recv), x);
  }

  lemma PassKeepsFields(q: RaptorQ, produced: seq<bytes>, r: Recv, b: Ledger, order: seq<nat>, link: LinkState, now: nat)
    requires RecvOk(q, produced, r) && Held(r) <= b.inFlight
    ensures var t := TickAll(r, b, order, link, now).recv;
      t == r.(managers := t.managers, requested := t.requested) && t.managers.Keys == r.managers.Keys
  {
    AllKeeps(q, produced, r, b, order, link, now);
    hide TickAll; hide Held; hide RecvOk; hide ManagersOk;
  }
}
