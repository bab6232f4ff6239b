/** What one control tick does to a receiver: whom it asks, what it reserves, and that it leaves no
    block of the stream invisible. */
module TickSafety {
  import opened Base
  import opened Codec
  import opened Link
  import opened Budget
  import opened Signals
  import opened Decoder
  import opened Sender
  import opened Receiver
  import opened ReceiverSafety

  function Requests(signals: seq<Signal>): set<nat> {
    set s | s in signals && s.ReliableRequest? :: s.block
  }

  lemma RequestsSnoc(signals: seq<Signal>, s: Signal)
    ensures Requests(signals + [s]) == Requests(signals) + (if s.ReliableRequest? then {s.block} else {})
  {
    assert forall x :: x in signals + [s] <==> x in signals || x == s;
  }

  /** A signal a tick may send: about a block the sender has produced, and a NACK asks for something. */
  ghost predicate AskOk(produced: seq<bytes>, s: Signal) {
    match s
    case Nack(b, _, need) => b < |produced| && need > 0
    case ReliableRequest(b) => b < |produced|
    case _ => false
  }

  /** How far a tick has got from `r` with budget `b`: only manager states, the requested set and the
      budget have moved, each request is new, and the budget has moved with what managers hold. */
  ghost predicate TickSoFar(q: RaptorQ, produced: seq<bytes>, r: Recv, b: Ledger, t: Ticked) {
    && t.recv == r.(managers := t.recv.managers, requested := t.recv.requested)
    && t.recv.managers.Keys == r.managers.Keys
    && ManagersOk(q, produced, t.recv)
    && t.recv.requested == r.requested + Requests(t.signals)
    && Requests(t.signals) !! r.requested
    && (forall s :: s in t.signals ==> AskOk(produced, s))
    && AskedOnce(t.signals)
    && t.budget.inFlight - Held(t.recv) == b.inFlight - Held(r) && Held(t.recv) <= t.budget.inFlight
    && t.budget.ceiling == b.ceiling && t.budget.inFlight <= Max(b.inFlight, b.ceiling)
  }

  /** No block is asked for twice in one tick. */
  ghost predicate AskedOnce(signals: seq<Signal>) {
    forall i, j :: 0 <= i < j < |signals| && signals[i].ReliableRequest? && signals[j].ReliableRequest?
      ==> signals[i].block != signals[j].block
  }

  lemma TickMgr(q: RaptorQ, symbolSize: nat, k: nat, payload: bytes, m: Mgr, b: Ledger, c: TickCtx)
    requires symbolSize > 0 && MgrOf(q, symbolSize, k, payload, m) && Backed(m, b)
    ensures var s := TickStep(m, b, c);
      && MgrOf(q, symbolSize, k, payload, s.mgr) && Keeps(m, b, s) && (s.action.SendNack? ==> s.action.need > 0)
      && s.mgr.received == m.received
  {
    TickStepKeeps(m, b, c);
    TickFed(m, b, c);
    hide EncoderFor; hide TickStep;
  }

  lemma TickFed(m: Mgr, b: Ledger, c: TickCtx)
    ensures TickStep(m, b, c).mgr.fed == m.fed && TickStep(m, b, c).mgr.k == m.k
    ensures TickStep(m, b, c).mgr.received == m.received && TickStep(m, b, c).mgr.firstSymbolAt == m.firstSymbolAt
  {}

  lemma AskStep(q: RaptorQ, produced: seq<bytes>, r: Recv, b: Ledger, t: Ticked, block: nat)
    requires TickSoFar(q, produced, r, b, t) && block !in t.recv.requested && block < |produced|
    ensures TickSoFar(q, produced, r, b, Ask(t, block))
  {
    hide MgrOf; hide Held;
    RequestsSnoc(t.signals, ReliableRequest(block));
    ManagersSame(q, produced, t.recv, Ask(t, block).recv);
    HeldSame(t.recv, Ask(t, block).recv);
    forall i | 0 <= i < |t.signals| && t.signals[i].ReliableRequest? ensures t.signals[i].block != block {
      assert t.signals[i] in t.signals;
    }
  }

  lemma NackStep(q: RaptorQ, produced: seq<bytes>, r: Recv, b: Ledger, t: Ticked, s: Signal)
    requires TickSoFar(q, produced, r, b, t) && s.Nack? && AskOk(produced, s)
    ensures TickSoFar(q, produced, r, b, t.(signals := t.signals + [s]))
  {
    hide MgrOf; hide Held; hide ManagersOk;
    RequestsSnoc(t.signals, s);
  }

  /** The manager's own part of the step. */
  lemma MgrStep(q: RaptorQ, produced: seq<bytes>, r: Recv, b: Ledger, t: Ticked, block: nat, c: TickCtx)
    requires TickSoFar(q, produced, r, b, t) && block in t.recv.managers
    ensures var s := TickStep(t.recv.managers[block], t.budget, c);
      && TickSoFar(q, produced, r, b, Ticked(t.recv.(managers := t.recv.managers[block := s.mgr]), s.budget, t.signals))
      && (s.action.SendNack? ==> s.action.need > 0) && block < |produced|
  {
    hide MgrOf; hide Held; hide TickStep; hide AskedOnce; hide Requests; hide AskOk;
    HeldPart(t.recv, block);
    TickMgr(q, r.symbolSize, r.k, produced[block], t.recv.managers[block], t.budget, c);
    var s := TickStep(t.recv.managers[block], t.budget, c);
    ManagersStep(q, produced, t.recv, block, s.mgr);
    ReservedReplace(t.recv, block, s.mgr);
    hide ManagersOk;
    assert t.recv.managers[block := s.mgr].Keys == t.recv.managers.Keys;
  }

  lemma OneKeeps(q: RaptorQ, produced: seq<bytes>, r: Recv, b: Ledger, t: Ticked, block: nat, highest: nat, link: LinkState, now: nat)
    requires TickSoFar(q, produced, r, b, t)
    ensures TickSoFar(q, produced, r, b, TickOne(t, block, highest, link, now))
  {
    hide TickSoFar; hide TickStep;
    if block in t.recv.managers {
      var c := TickCtx(now, link, highest > block);
      MgrStep(q, produced, r, b, t, block, c);
      var s := TickStep(t.recv.managers[block], t.budget, c);
      var t1 := Ticked(t.recv.(managers := t.recv.managers[block := s.mgr]), s.budget, t.signals);
      match s.action
      case SendNack(have, need) => NackStep(q, produced, r, b, t1, Nack(block, have, need));
      case RequestReliableRetransmit => if block !in t1.recv.requested { AskStep(q, produced, r, b, t1, block); }
      case Deliver(_) =>
      case Idle =>
    }
  }

  lemma {:induction false} AllKeeps(q: RaptorQ, produced: seq<bytes>, r: Recv, b: Ledger, order: seq<nat>, link: LinkState, now: nat)
    requires RecvOk(q, produced, r) && Held(r) <= b.inFlight
    ensures TickSoFar(q, produced, r, b, TickAll(r, b, order, link, now))
  {
    if order == [] {
      assert Requests([]) == {};
    } else {
      AllKeeps(q, produced, r, b, order[..|order| - 1], link, now);
      hide TickSoFar; hide TickOne;
      OneKeeps(q, produced, r, b, TickAll(r, b, order[..|order| - 1], link, now), order[|order| - 1], r.highestSeen, link, now);
    }
  }

  /** The scan keeps all of that, never un-asks, and leaves nothing in its range invisible. */
  lemma {:induction false} ScanKeeps(q: RaptorQ, produced: seq<bytes>, r: Recv, b: Ledger, t: Ticked, lo: nat, hi: nat)
    requires TickSoFar(q, produced, r, b, t) && hi <= |produced|
    ensures var t' := LostScan(t, lo, hi);
      && TickSoFar(q, produced, r, b, t')
      && t'.recv == t.recv.(requested := t'.recv.requested) && t.recv.requested <= t'.recv.requested
      && (forall x :: lo <= x < hi ==> !Invisible(t'.recv, x))
      && (forall x :: x in t'.recv.requested && x !in t.recv.requested ==> Invisible(t.recv, x))
    decreases hi
  {
    if lo < hi {
      ScanKeeps(q, produced, r, b, t, lo, hi - 1);
      var t1 := LostScan(t, lo, hi - 1);
      if Invisible(t1.recv, hi - 1) {
        AskStep(q, produced, r, b, t1, hi - 1);
      }
      var t' := LostScan(t, lo, hi);
      hide TickSoFar;
      forall x | lo <= x < hi ensures !Invisible(t'.recv, x) {
        if x < hi - 1 { assert !Invisible(t1.recv, x); }
      }
    }
  }

  /** A whole tick on a receiver whose announced bounds are true: it asks only about produced blocks,
      for each at most once and only when not yet asked; budget and managers stay in step; and
      afterwards every undelivered block known to exist has a manager, is ready, or has been asked for. */
  lemma TickSafe(q: RaptorQ, produced: seq<bytes>, r: Recv, b: Ledger, order: seq<nat>, link: LinkState, now: nat)
    requires RecvOk(q, produced, r) && Held(r) <= b.inFlight && Enumerates(order, r.managers)
    requires Upper(r) <= |produced|
    ensures var t := RecvTick(r, b, order, link, now);
      && TickSoFar(q, produced, r, b, t)
      && RecvOk(q, produced, t.recv)
      && (forall x :: r.nextDeliver <= x < Upper(r) ==> !Invisible(t.recv, x))
  {
    hide TickAll; hide MgrOf; hide Upper; hide Held; hide AskOk; hide AskedOnce; hide Requests; hide Invisible; hide LostScan;
    AllKeeps(q, produced, r, b, order, link, now);
    var t := TickAll(r, b, order, link, now);
    SameUpper(r, t.recv);
    ScanKeeps(q, produced, r, b, t, t.recv.nextDeliver, Upper(t.recv));
    var t' := LostScan(t, t.recv.nextDeliver, Upper(t.recv));
    ManagersSame(q, produced, t.recv, t'.recv);
    hide ManagersOk;
  }

  lemma SameUpper(r: Recv, r': Recv)
    requires r' == r.(managers := r'.managers, requested := r'.requested) && r'.managers.Keys == r.managers.Keys
    ensures Upper(r') == Upper(r)
  {
    assert r'.managers == map[] <==> r.managers == map[] by {
      assert r'.managers.Keys == {} <==> r.managers.Keys == {};
    }
  }

  /** Announced and observed bounds never point past what was produced. */
  lemma UpperTrue(q: RaptorQ, produced: seq<bytes>, r: Recv)
    requires RecvOk(q, produced, r) && r.highWater <= |produced|
    requires r.total.Some? ==> r.total.value <= |produced|
    ensures Upper(r) <= |produced|
  {
    if r.managers != map[] {
      var b :| b in r.managers;
    }
  }
}
