/** The convergence lower bound: one late tick on a link where repair is refused turns every missing
    block into a reliable request, and answering those in any order delivers the whole stream. Exactly
    which blocks a tick cannot reach is stated too. */
module Convergence {
  import opened Base
  import opened Codec
  import opened Link
  import opened Budget
  import opened Signals
  import opened Decoder
  import opened Sender
  import opened SenderHistory
  import opened Receiver
  import opened ReceiverSafety
  import opened TickSafety
  import opened Tunnel
  import opened TunnelSafety
  import opened TunnelRuns
  import opened Progress

  /** The clock has passed whatever a manager is waiting for. */
  predicate Late(m: Mgr, link: LinkState, now: nat) {
    match m.state
    case Filling => m.firstSymbolAt.Some? && Monus(now, m.firstSymbolAt.value) > HardDeadline(link)
    case NackSent(_, at) => Monus(now, at) > link.smoothedRtt
    case _ => true
  }

  ghost predicate AllLate(r: Recv, link: LinkState, now: nat) {
    forall b :: b in r.managers ==> Late(r.managers[b], link, now)
  }

  /** No repair may be requested: the link is congested, or the budget admits none. */
  predicate RepairRefused(link: LinkState, b: Ledger) { link.IsCongested() || b.ceiling == 0 }

  /** A late tick can still give this block up. */
  predicate CanGiveUp(m: Mgr) { !m.IsTerminal() && m.Short() }

  /** A late tick on a link that refuses repair gives a block up exactly when it still can; any other
      block it does not touch. */
  lemma LateTick(m: Mgr, b: Ledger, c: TickCtx)
    requires MgrInv(m) && Backed(m, b) && Late(m, c.link, c.now) && RepairRefused(c.link, b)
    ensures CanGiveUp(m) ==> TickStep(m, b, c).action.RequestReliableRetransmit?
    ensures !CanGiveUp(m) ==> TickStep(m, b, c) == Step(m, b, Idle)
  {}

  ghost predicate Distinct(order: seq<nat>) {
    forall i, j :: 0 <= i < j < |order| ==> order[i] != order[j]
  }

  /** After the pass over `order`, a block is marked as requested exactly when it already was, or the
      pass came to it and could give it up; blocks not reached are untouched. */
  ghost predicate PassDone(r: Recv, t: Ticked, order: seq<nat>) {
    && (forall x :: x in r.managers && x !in order ==> x in t.recv.managers && t.recv.managers[x] == r.managers[x])
    && (forall x :: x in t.recv.requested <==>
          x in r.requested || (x in order && x in r.managers && CanGiveUp(r.managers[x])))
  }

  lemma {:induction false} PassAsks(q: RaptorQ, produced: seq<bytes>, r: Recv, b: Ledger, order: seq<nat>, link: LinkState, now: nat)
    requires RecvOk(q, produced, r) && Held(r) <= b.inFlight && AllLate(r, link, now) && RepairRefused(link, b)
    requires Distinct(order)
    ensures PassDone(r, TickAll(r, b, order, link, now), order)
  {
    PassNone(r, b);
    hide Late; hide CanGiveUp; hide TickStep; hide TickOne; hide Held; hide RepairRefused; hide TickSoFar; hide AllLate;
    hide RecvOk; hide PassDone;
    if order != [] {
      var rest, x := order[..|order| - 1], order[|order| - 1];
      PassAsks(q, produced, r, b, rest, link, now);
      AllKeeps(q, produced, r, b, rest, link, now);
      var t := TickAll(r, b, rest, link, now);
      assert TickAll(r, b, order, link, now) == TickOne(t, x, r.highestSeen, link, now);
      assert order == rest + [x] && x !in rest;
      OneAsks(q, produced, r, b, t, rest, x, link, now);
    }
  }

  lemma PassNone(r: Recv, b: Ledger)
    ensures PassDone(r, Ticked(r, b, []), [])
  {}

  /** What the pass does to one block with a manager. */
  lemma OneOutcome(t: Ticked, x: nat, highest: nat, link: LinkState, now: nat)
    requires x in t.recv.managers && MgrInv(t.recv.managers[x]) && Backed(t.recv.managers[x], t.budget)
    requires Late(t.recv.managers[x], link, now) && RepairRefused(link, t.budget)
    ensures var r' := TickOne(t, x, highest, link, now).recv;
      && x in r'.managers && r'.managers == t.recv.managers[x := r'.managers[x]]
      && r'.requested == t.recv.requested + if CanGiveUp(t.recv.managers[x]) then {x} else {}
  {
    hide Late; hide CanGiveUp; hide TickStep; hide RepairRefused; hide MgrInv; hide Backed;
    LateTick(t.recv.managers[x], t.budget, TickCtx(now, link, highest > x));
  }

  /** The pass comes to each manager in its invariant, with its reservation counted. */
  lemma PassReady(q: RaptorQ, produced: seq<bytes>, r: Recv, b: Ledger, t: Ticked, x: nat)
    requires TickSoFar(q, produced, r, b, t) && x in t.recv.managers
    ensures MgrInv(t.recv.managers[x]) && Backed(t.recv.managers[x], t.budget) && t.budget.ceiling == b.ceiling
  {
    hide Held; hide MgrOf; hide AskedOnce; hide Requests; hide AskOk; hide MgrInv;
    HeldPart(t.recv, x);
    MgrInvOf(q, produced, t.recv, x);
  }

  lemma PassGrows(r: Recv, t: Ticked, rest: seq<nat>, x: nat, t': Ticked)
    requires PassDone(r, t, rest) && x !in rest && x in t.recv.managers && x in r.managers && x in t'.recv.managers
    requires t'.recv.managers == t.recv.managers[x := t'.recv.managers[x]]
    requires t'.recv.requested == t.recv.requested + if CanGiveUp(r.managers[x]) then {x} else {}
    ensures PassDone(r, t', rest + [x])
  {
    hide CanGiveUp;
    assert forall y :: y in rest + [x] <==> y in rest || y == x;
  }

  lemma NoManager(t: Ticked, x: nat, highest: nat, link: LinkState, now: nat)
    requires x !in t.recv.managers
    ensures TickOne(t, x, highest, link, now) == t
  {}

  lemma PassSkips(r: Recv, t: Ticked, rest: seq<nat>, x: nat)
    requires PassDone(r, t, rest) && x !in r.managers
    ensures PassDone(r, t, rest + [x])
  {
    hide CanGiveUp;
    assert forall y :: y in rest + [x] <==> y in rest || y == x;
  }

  lemma OneAsks(q: RaptorQ, produced: seq<bytes>, r: Recv, b: Ledger, t: Ticked, rest: seq<nat>, x: nat, link: LinkState, now: nat)
    requires RecvOk(q, produced, r) && AllLate(r, link, now) && RepairRefused(link, b)
    requires TickSoFar(q, produced, r, b, t) && PassDone(r, t, rest) && x !in rest
    ensures PassDone(r, TickOne(t, x, r.highestSeen, link, now), rest + [x])
  {
    hide Late; hide CanGiveUp; hide TickOne; hide RepairRefused; hide RecvOk; hide MgrInv; hide Backed;
    if x in r.managers {
      assert x in t.recv.managers && t.recv.managers[x] == r.managers[x];
      PassReady(q, produced, r, b, t, x);
      assert Late(r.managers[x], link, now);
      hide TickSoFar; hide PassDone;
      RefusedStill(link, b, t.budget);
      OneOutcome(t, x, r.highestSeen, link, now);
      PassGrows(r, t, rest, x, TickOne(t, x, r.highestSeen, link, now));
    } else {
      assert x !in t.recv.managers;
      NoManager(t, x, r.highestSeen, link, now);
      hide TickSoFar; hide PassDone;
      PassSkips(r, t, rest, x);
    }
  }

  lemma MgrInvOf(q: RaptorQ, produced: seq<bytes>, r: Recv, x: nat)
    requires ManagersOk(q, produced, r) && x in r.managers
    ensures MgrInv(r.managers[x])
  {}

  lemma RefusedStill(link: LinkState, b: Ledger, b': Ledger)
    requires RepairRefused(link, b) && b'.ceiling == b.ceiling
    ensures RepairRefused(link, b')
  {}

  /** The blocks no tick will ever ask for: not completed, not marked as requested, and owned by a
      manager that has already given up or has counted K arrivals without decoding. */
  predicate Stuck(r: Recv, x: nat) {
    x !in r.ready && x !in r.requested && x in r.managers && !CanGiveUp(r.managers[x])
  }

  /** One late tick on a link that refuses repair: every undelivered block known to exist is, from
      then on, complete or asked for, with exactly the stuck blocks left out. */
  lemma LateTickCoversAllButStuck(q: RaptorQ, produced: seq<bytes>, r: Recv, b: Ledger, order: seq<nat>,
                                  link: LinkState, now: nat, x: nat)
    requires RecvOk(q, produced, r) && Held(r) <= b.inFlight && Upper(r) <= |produced|
    requires Enumerates(order, r.managers) && AllLate(r, link, now) && RepairRefused(link, b)
    requires r.nextDeliver <= x < Upper(r)
    ensures var r' := RecvTick(r, b, order, link, now).recv;
      (x in r'.requested || x in r'.ready <==> !Stuck(r, x)) && r'.ready == r.ready && r'.nextDeliver == r.nextDeliver
  {
    hide Late; hide CanGiveUp; hide MgrOf; hide Held; hide Upper; hide TickAll; hide AskOk; hide AskedOnce; hide Requests;
    hide RepairRefused; hide LostScan;
    PassAsks(q, produced, r, b, order, link, now);
    AllKeeps(q, produced, r, b, order, link, now);
    var t := TickAll(r, b, order, link, now);
    SameUpper(r, t.recv);
    ScanKeeps(q, produced, r, b, t, t.recv.nextDeliver, Upper(t.recv));
    var t' := LostScan(t, t.recv.nextDeliver, Upper(t.recv));
    assert !Invisible(t'.recv, x);
    hide ManagersOk;
    assert x in r.managers <==> x in t.recv.managers;
    if x in r.managers {
      assert x in order;
      assert x in t'.recv.requested <==> x in t.recv.requested;
    }
  }

  // ---------------------------------------------------------------- answering the requests

  /** The sender is asked for each listed block and its reliable copy arrives, in the listed order. */
  function Answers(produced: seq<bytes>, list: seq<nat>): seq<Act>
    requires forall x :: x in list ==> x < |produced|
  {
    if list == [] then []
    else
      assert list[0] in list && forall x :: x in list[1..] ==> x in list;
      [ToSender(ReliableRequest(list[0])), ToReceiver(ReliableData(list[0], produced[list[0]]))] + Answers(produced, list[1..])
  }

  ghost predicate Answerable(s: Sys, list: seq<nat>) {
    forall x :: x in list ==>
      x < |s.h.produced| && x in s.h.snd.payloads && ReliableRequest(x) in s.toSend
  }

  /** Both steps of one answer. */
  lemma OneAnswer(q: RaptorQ, s: Sys, x: nat) returns (s': Sys)
    requires Sound(q) && Inv(q, s) && x < |s.h.produced| && Answerable(s, [x]) && IndicesFit(s.h.log)
    ensures Leads(q, s, [ToSender(ReliableRequest(x)), ToReceiver(ReliableData(x, s.h.produced[x]))], s')
    ensures Inv(q, s') && s'.h == s.h && s'.toSend == s.toSend
  {
    hide Inv; hide Sound; hide IndicesFit; hide Next; hide Enabled; hide Runnable; hide Leads;
    assert x in [x];
    var s1 := Answered(q, s, x);
    s' := Copied(q, s1, x);
    TwoSteps(q, s, ToSender(ReliableRequest(x)), ToReceiver(ReliableData(x, s.h.produced[x])), s');
  }

  lemma Answered(q: RaptorQ, s: Sys, x: nat) returns (s1: Sys)
    requires Sound(q) && Inv(q, s) && x in s.h.snd.payloads && ReliableRequest(x) in s.toSend && IndicesFit(s.h.log)
    ensures x < |s.h.produced| && Runnable(s) && Enabled(s, ToSender(ReliableRequest(x)))
    ensures s1 == Next(q, s, ToSender(ReliableRequest(x))) && Inv(q, s1)
    ensures s1 == s.(toRecv := s.toRecv + {ReliableData(x, s.h.produced[x])})
  {
    hide HistInv; hide Truthful; hide Sensible; hide RetiredComplete; hide ReceiverSide; hide Sound; hide IndicesFit;
    RunnableOf(s);
    RetainedIsProduced(q, s.h, x);
    NextKeeps(q, s, ToSender(ReliableRequest(x)));
    s1 := Next(q, s, ToSender(ReliableRequest(x)));
  }

  lemma Copied(q: RaptorQ, s: Sys, x: nat) returns (s': Sys)
    requires Sound(q) && Inv(q, s) && x < |s.h.produced| && IndicesFit(s.h.log)
    requires ReliableData(x, s.h.produced[x]) in s.toRecv
    ensures Runnable(s) && Enabled(s, ToReceiver(ReliableData(x, s.h.produced[x])))
    ensures s' == Next(q, s, ToReceiver(ReliableData(x, s.h.produced[x]))) && Inv(q, s')
    ensures s'.h == s.h && s'.toSend == s.toSend
  {
    hide HistInv; hide Truthful; hide Sensible; hide RetiredComplete; hide RecvReliable; hide ReceiverSide; hide Sound;
    hide IndicesFit; hide DroppedBy;
    RunnableOf(s);
    var a := ToReceiver(ReliableData(x, s.h.produced[x]));
    NextKeeps(q, s, a);
    s' := Next(q, s, a);
  }

  lemma TwoSteps(q: RaptorQ, s: Sys, a: Act, b: Act, s': Sys)
    requires Runnable(s) && Enabled(s, a) && Runnable(Next(q, s, a)) && Enabled(Next(q, s, a), b)
    requires s' == Next(q, Next(q, s, a), b)
    ensures Leads(q, s, [a, b], s')
  {
    hide Next; hide Runnable; hide Enabled; hide Leads;
    LeadsOne(q, s, a);
    LeadsOne(q, Next(q, s, a), b);
    LeadsOn(q, s, [a], Next(q, s, a), [b], s');
    assert [a] + [b] == [a, b];
  }

  /** Any list of askable blocks can be answered, in any order and with repeats. */
  lemma {:induction false} AnswersPossible(q: RaptorQ, s: Sys, list: seq<nat>) returns (s': Sys)
    requires Sound(q) && Inv(q, s) && Answerable(s, list) && IndicesFit(s.h.log)
    ensures Leads(q, s, Answers(s.h.produced, list), s')
    ensures Inv(q, s') && s'.h == s.h
    decreases |list|
  {
    hide Inv; hide Sound; hide Leads; hide IndicesFit;
    if list == [] {
      s' := s;
      LeadsNowhere(q, s);
    } else {
      assert list[0] in list;
      var s1 := OneAnswer(q, s, list[0]);
      assert Answerable(s1, list[1..]);
      s' := AnswersPossible(q, s1, list[1..]);
      LeadsOn(q, s, [ToSender(ReliableRequest(list[0])), ToReceiver(ReliableData(list[0], s.h.produced[list[0]]))], s1,
              Answers(s.h.produced, list[1..]), s');
    }
  }

  /** The answers to a list hold the copy of every block in it. */
  lemma {:induction false} AnswersHoldCopies(produced: seq<bytes>, list: seq<nat>, x: nat) returns (p: nat)
    requires (forall y :: y in list ==> y < |produced|) && x in list
    ensures p < |Answers(produced, list)| && CopyArrives(Answers(produced, list)[p], x)
    decreases |list|
  {
    if list[0] == x {
      p := 1;
    } else {
      assert x in list[1..] && forall y :: y in list[1..] ==> y in list;
      var p' := AnswersHoldCopies(produced, list[1..], x);
      p := p' + 2;
    }
  }

  // ---------------------------------------------------------------- the whole bound

  /** The receiver has been told how far the stream goes and has ticked late. */
  function ToldAndTicked(n: nat, order: seq<nat>, link: LinkState, now: nat): seq<Act> {
    [AnnounceHighWater, ToReceiver(HighWater(n)), ControlTick(order, link, now)]
  }

  lemma Told(q: RaptorQ, s: Sys) returns (s': Sys)
    requires Sound(q) && Inv(q, s) && IndicesFit(s.h.log)
    ensures Leads(q, s, [AnnounceHighWater, ToReceiver(HighWater(|s.h.produced|))], s') && Inv(q, s')
    ensures s' == s.(toRecv := s'.toRecv, recv := s.recv.(highWater := s'.recv.highWater))
    ensures s'.recv.highWater == |s.h.produced|
  {
    RunnableOf(s);
    ProducedCount(q, s);
    hide HistInv; hide Truthful; hide Sensible; hide RetiredComplete; hide GoodGeometry; hide ReceiverSide; hide Held;
    hide Sound; hide IndicesFit;
    var a1, a2 := AnnounceHighWater, ToReceiver(HighWater(|s.h.produced|));
    NextKeeps(q, s, a1);
    var s1 := Next(q, s, a1);
    RunnableOf(s1);
    NextKeeps(q, s1, a2);
    s' := Next(q, s1, a2);
    hide Inv;
    TwoSteps(q, s, a1, a2, s');
  }

  lemma ProducedCount(q: RaptorQ, s: Sys)
    requires Inv(q, s)
    ensures |s.h.produced| == s.h.snd.nextBlock
  {
    hide ReceiverSide; hide Contents; hide Sent; hide Holds; hide Truthful; hide Sensible;
  }

  /** From any reachable state in which no missing block is stuck: announce how many blocks exist, let
      one late tick run on a link that refuses repair, and answer the requests in any order. If every
      missing block is still inside the sender's retention window, and the list of answers names every
      missing block and no block already released, that run is possible and hands over the whole stream. */
  lemma ReliableRecovery(q: RaptorQ, symbolSize: nat, k: nat, s: Sys, order: seq<nat>, link: LinkState, now: nat, list: seq<nat>)
    returns (s': Sys)
    requires Sound(q) && GoodGeometry(symbolSize, k) && Reachable(q, symbolSize, k, s) && IndicesFit(s.h.log)
    requires Enumerates(order, s.recv.managers) && AllLate(s.recv, link, now) && RepairRefused(link, s.budget)
    requires forall x: nat :: x < |s.h.produced| && !IsComplete(s.recv, x) ==> !Stuck(s.recv, x)
    requires forall x: nat :: x < |s.h.produced| && !IsComplete(s.recv, x) ==> x + RetainBlocks(symbolSize, k) >= |s.h.produced|
    requires forall x: nat :: x in list <==> x < |s.h.produced| && !IsComplete(s.recv, x)
    ensures Leads(q, s, ToldAndTicked(|s.h.produced|, order, link, now) + Answers(s.h.produced, list), s')
    ensures s'.h == s.h && s'.recv.nextDeliver == |s.h.produced| && s'.output == Concat(s.h.produced)
  {
    assert k >= 1;
    hide Inv; hide Sound; hide Leads; hide IndicesFit; hide Late; hide RepairRefused; hide GoodGeometry; hide Reachable;
    hide IsComplete; hide RetainBlocks; hide Stuck; hide AllLate; hide Enumerates;
    ReachableInv(q, symbolSize, k, s);
    var s2 := MissingAskedFor(q, s, order, link, now);
    GeometryFixed(q, symbolSize, k, s);
    forall x | x in list ensures x in s2.h.snd.payloads && ReliableRequest(x) in s2.toSend {
      RetainedWhen(q, s, x);
    }
    s' := AnswersPossible(q, s2, list);
    LeadsOn(q, s, ToldAndTicked(|s.h.produced|, order, link, now), s2, Answers(s.h.produced, list), s');
    WholeStream(q, s, ToldAndTicked(|s.h.produced|, order, link, now), list, s');
  }

  /** Whatever came before the answers, with them everything has been handed over. */
  lemma WholeStream(q: RaptorQ, s: Sys, before: seq<Act>, list: seq<nat>, s': Sys)
    requires Sound(q) && Inv(q, s) && IndicesFit(s'.h.log) && s'.h == s.h
    requires forall x: nat :: x in list <==> x < |s.h.produced| && !IsComplete(s.recv, x)
    requires Leads(q, s, before + Answers(s.h.produced, list), s')
    ensures s'.recv.nextDeliver == |s.h.produced| && s'.output == Concat(s.h.produced)
  {
    hide Inv; hide Sound; hide StepAt; hide IndicesFit; hide IsComplete; hide CopyArrives;
    var acts := before + Answers(s.h.produced, list);
    var states: seq<Sys> :| Run(q, states, acts) && states[0] == s && states[|acts|] == s';
    forall x: nat | x < |s.h.produced|
      ensures IsComplete(states[0].recv, x) || exists p: nat :: 0 <= p < |acts| && CopyArrives(acts[p], x)
    {
      if !IsComplete(s.recv, x) {
        var p := AnswersHoldCopies(s.h.produced, list, x);
        assert acts[|before| + p] == Answers(s.h.produced, list)[p];
      }
    }
    CopiesDeliverFrom(q, states, acts, |s.h.produced|);
    assert s.h.produced[..|s.h.produced|] == s.h.produced;
  }

  /** Recovery on whatever schedule really runs. In any run in which the receiver, told of `n` blocks of
      which no missing one is stuck, ticks late on a link that refuses repair: from then on every block
      below `n` is complete or its request is under way; and once the copies of those still missing have
      arrived, in any order, with datagrams, acknowledgements, credits, repairs and further ticks at any
      point in between, all `n` blocks have been handed over. */
  lemma RecoveryOnAnySchedule(q: RaptorQ, symbolSize: nat, k: nat, states: seq<Sys>, acts: seq<Act>, i: nat, n: nat)
    requires Sound(q) && GoodGeometry(symbolSize, k) && TunnelRun(q, symbolSize, k, states, acts)
    requires IndicesFit(states[|acts|].h.log) && i < |acts| && acts[i].ControlTick?
    requires AllLate(states[i].recv, acts[i].link, acts[i].now) && RepairRefused(acts[i].link, states[i].budget)
    requires n <= states[i].recv.highWater && forall x: nat :: x < n && !IsComplete(states[i].recv, x) ==> !Stuck(states[i].recv, x)
    ensures forall j: nat, x: nat :: i < j <= |acts| && x < n ==>
      IsComplete(states[j].recv, x) || ReliableRequest(x) in states[j].toSend
    ensures CopiesArrive(states, acts, i + 1, n) ==> HandedOver(states[|acts|], n)
  {
    hide Inv; hide Sound; hide IndicesFit; hide IsComplete; hide StepAt; hide AllLate; hide RepairRefused; hide Stuck;
    hide GoodGeometry; hide CopiesArrive; hide HandedOver;
    forall j: nat, x: nat | i < j <= |acts| && x < n
      ensures IsComplete(states[j].recv, x) || ReliableRequest(x) in states[j].toSend
    {
      AskedFromThen(q, symbolSize, k, states, acts, i, j, x);
    }
    if CopiesArrive(states, acts, i + 1, n) {
      CopiesDeliver(q, symbolSize, k, states, acts, i + 1, n);
    }
  }

  lemma AskedFromThen(q: RaptorQ, symbolSize: nat, k: nat, states: seq<Sys>, acts: seq<Act>, i: nat, j: nat, x: nat)
    requires Sound(q) && GoodGeometry(symbolSize, k) && TunnelRun(q, symbolSize, k, states, acts)
    requires IndicesFit(states[|acts|].h.log) && i < j <= |acts| && acts[i].ControlTick?
    requires AllLate(states[i].recv, acts[i].link, acts[i].now) && RepairRefused(acts[i].link, states[i].budget)
    requires x < states[i].recv.highWater && (!IsComplete(states[i].recv, x) ==> !Stuck(states[i].recv, x))
    ensures IsComplete(states[j].recv, x) || ReliableRequest(x) in states[j].toSend
  {
    hide Inv; hide Sound; hide IndicesFit; hide IsComplete; hide AllLate; hide RepairRefused; hide Stuck; hide GoodGeometry;
    hide TickSys;
    if IsComplete(states[i].recv, x) {
      hide StepAt;
      CompleteAlong(q, states, acts, i, j, x);
    } else {
      TunnelInv(q, symbolSize, k, states, acts, i);
      TunnelInv(q, symbolSize, k, states, acts, i + 1);
      assert StepAt(q, states, acts, i);
      hide StepAt; hide Runnable;
      TickAsked(q, states[i], states[i + 1], acts[i].order, acts[i].link, acts[i].now, x);
      StillUnderWay(q, states, acts, i + 1, j);
    }
  }

  /** The announcement and the late tick: every missing block that is not stuck has been asked for. */
  lemma MissingAskedFor(q: RaptorQ, s: Sys, order: seq<nat>, link: LinkState, now: nat) returns (s2: Sys)
    requires Sound(q) && Inv(q, s) && IndicesFit(s.h.log)
    requires Enumerates(order, s.recv.managers) && AllLate(s.recv, link, now) && RepairRefused(link, s.budget)
    ensures Leads(q, s, ToldAndTicked(|s.h.produced|, order, link, now), s2) && Inv(q, s2) && s2.h == s.h
    ensures forall x :: IsComplete(s.recv, x) <==> IsComplete(s2.recv, x)
    ensures forall x: nat :: x < |s.h.produced| && !IsComplete(s.recv, x) && !Stuck(s.recv, x) ==> ReliableRequest(x) in s2.toSend
  {
    hide Inv; hide Sound; hide Leads; hide IndicesFit; hide Late; hide RepairRefused; hide IsComplete; hide Stuck;
    var s1 := Told(q, s);
    s2 := Tick(q, s1, order, link, now);
    CompleteSame(s.recv, s1.recv);
    CompleteSame(s.recv, s2.recv);
    forall x: nat | x < |s.h.produced| && !IsComplete(s.recv, x) && !Stuck(s.recv, x) ensures ReliableRequest(x) in s2.toSend {
      StuckSame(s.recv, s1.recv, x);
      TickAsked(q, s1, s2, order, link, now, x);
    }
    hide TickSys;
    LeadsOn(q, s, [AnnounceHighWater, ToReceiver(HighWater(|s.h.produced|))], s1, [ControlTick(order, link, now)], s2);
    assert [AnnounceHighWater, ToReceiver(HighWater(|s.h.produced|))] + [ControlTick(order, link, now)]
        == ToldAndTicked(|s.h.produced|, order, link, now);
  }

  lemma CompleteSame(r: Recv, r': Recv)
    requires r'.ready == r.ready && r'.nextDeliver == r.nextDeliver
    ensures forall x :: IsComplete(r, x) <==> IsComplete(r', x)
  {}

  lemma StuckSame(r: Recv, r': Recv, x: nat)
    requires r' == r.(highWater := r'.highWater)
    ensures Stuck(r, x) <==> Stuck(r', x)
  {}

  lemma Tick(q: RaptorQ, s: Sys, order: seq<nat>, link: LinkState, now: nat) returns (s': Sys)
    requires Sound(q) && Inv(q, s) && IndicesFit(s.h.log) && Enumerates(order, s.recv.managers)
    ensures Leads(q, s, [ControlTick(order, link, now)], s') && Inv(q, s') && s' == TickSys(s, order, link, now)
    ensures s'.h == s.h && s'.recv.ready == s.recv.ready && s'.recv.nextDeliver == s.recv.nextDeliver
  {
    hide HistInv; hide Truthful; hide Sensible; hide RetiredComplete; hide GoodGeometry; hide Held; hide RecvTick;
    hide Sound; hide IndicesFit; hide AcksOk; hide Concat; hide ManagersOk;
    RunnableOf(s);
    var a := ControlTick(order, link, now);
    NextKeeps(q, s, a);
    s' := Next(q, s, a);
    UpperTrue(q, s.h.produced, s.recv);
    TickSafe(q, s.h.produced, s.recv, s.budget, order, link, now);
    hide Inv; hide TickSoFar; hide Next; hide TickSys; hide Leads;
    LeadsOne(q, s, a);
  }

  /** A missing block that is not stuck has been asked for after the tick. */
  lemma TickAsked(q: RaptorQ, s: Sys, s': Sys, order: seq<nat>, link: LinkState, now: nat, x: nat)
    requires Inv(q, s) && Inv(q, s') && s' == TickSys(s, order, link, now) && Enumerates(order, s.recv.managers)
    requires AllLate(s.recv, link, now) && RepairRefused(link, s.budget)
    requires x < s.recv.highWater && !IsComplete(s.recv, x) && !Stuck(s.recv, x)
    ensures ReliableRequest(x) in s'.toSend
  {
    hide HistInv; hide Truthful; hide Sensible; hide RetiredComplete; hide GoodGeometry; hide Held; hide RecvTick;
    hide AcksOk; hide Concat; hide ManagersOk; hide Late; hide Stuck;
    UpperTrue(q, s.h.produced, s.recv);
    LateTickCoversAllButStuck(q, s.h.produced, s.recv, s.budget, order, link, now, x);
  }

  // ---------------------------------------------------------------- what being stuck means

  /** A stuck block of which no request and no copy is under way stays so under every step but the
      arrival of one of its own symbols: no tick, signal, NACK answer or spurt moves it. */
  ghost predicate Stranded(s: Sys, x: nat) {
    && Stuck(s.recv, x) && x >= s.recv.nextDeliver
    && ReliableRequest(x) !in s.toSend
    && forall data :: ReliableData(x, data) !in s.toRecv
  }

  /** A symbol of block `x` arrives. */
  predicate OwnSymbol(s: Sys, a: Act, x: nat) {
    a.Arrive? && a.i < |s.h.log| && s.h.log[a.i].block == x
  }

  lemma StrandedStays(q: RaptorQ, s: Sys, a: Act, x: nat)
    requires Inv(q, s) && Runnable(s) && Enabled(s, a) && Stranded(s, x)
    requires !OwnSymbol(s, a, x)
    ensures Stranded(Next(q, s, a), x)
  {
    hide Inv; hide Perform; hide Stuck; hide TickSys; hide ArriveStep; hide ReceiverGets; hide TopUpPass;
    match a
    case Arrive(i, now) => StrandedArrive(q, s, s.h.log[i], now, x);
    case ToReceiver(sig) => StrandedSignal(s, sig, x);
    case ControlTick(order, link, now) => StrandedTick(q, s, order, link, now, x);
    case Unmark(b) => StuckFields(s.recv, s.recv.(requested := s.recv.requested - {b}), x);
    case SendAcks => StuckFields(s.recv, s.recv.(pendingAcks := []), x);
    case _ =>
  }

  lemma StuckFields(r: Recv, r': Recv, x: nat)
    requires Stuck(r, x) && r'.managers == r.managers && r'.ready == r.ready && r'.requested <= r.requested
    ensures Stuck(r', x)
  {}

  lemma StrandedSignal(s: Sys, sig: Signal, x: nat)
    requires Stranded(s, x) && sig in s.toRecv
    ensures Stranded(ReceiverGets(s, sig), x)
  {
    if sig.ReliableData? { StrandedReliable(s, sig, x); }
  }

  lemma StrandedArrive(q: RaptorQ, s: Sys, d: Dgram, now: nat, x: nat)
    requires Stranded(s, x) && d.block != x
    ensures Stranded(ArriveStep(q, s, d, now), x)
  {
    hide SymbolStep; hide Flush; hide ManagerFor;
    if d.block >= s.recv.nextDeliver {
      var r1 := s.recv.(highestSeen := Max(s.recv.highestSeen, d.block));
      var step := SymbolStep(q, ManagerFor(r1, d.block, d.k % 0x1_0000), s.budget, now, Symbol(d.esi % ESI_LIMIT, d.data));
      FlushKeeps(Routed(r1, d.block, step));
      assert !IsComplete(Routed(r1, d.block, step), x);
    }
  }

  lemma StrandedReliable(s: Sys, sig: Signal, x: nat)
    requires Stranded(s, x) && sig.ReliableData? && sig in s.toRecv
    ensures Stranded(ReceiverGets(s, sig), x)
  {
    hide Flush;
    assert sig.block != x;
    if sig.block >= s.recv.nextDeliver {
      FlushKeeps(Completed(s.recv, sig.block, sig.data));
      assert !IsComplete(Completed(s.recv, sig.block, sig.data), x);
    }
  }

  lemma StrandedTick(q: RaptorQ, s: Sys, order: seq<nat>, link: LinkState, now: nat, x: nat)
    requires Inv(q, s) && Stranded(s, x) && Enumerates(order, s.recv.managers)
    ensures Stranded(TickSys(s, order, link, now), x)
  {
    hide HistInv; hide Truthful; hide Sensible; hide RetiredComplete; hide GoodGeometry; hide Held; hide AcksOk; hide Concat;
    hide TickAll; hide LostScan; hide CanGiveUp; hide AskOk; hide AskedOnce;
    UpperTrue(q, s.h.produced, s.recv);
    hide Upper;
    PassLeaves(q, s.h.produced, s.recv, s.budget, order, link, now, x);
    AllKeeps(q, s.h.produced, s.recv, s.budget, order, link, now);
    var t := TickAll(s.recv, s.budget, order, link, now);
    SameUpper(s.recv, t.recv);
    ScanKeeps(q, s.h.produced, s.recv, s.budget, t, t.recv.nextDeliver, Upper(t.recv));
    var t' := LostScan(t, t.recv.nextDeliver, Upper(t.recv));
    hide ManagersOk;
    assert x !in t'.recv.requested;
    AskedIn(t'.signals, x);
  }

  lemma AskedIn(signals: seq<Signal>, x: nat)
    ensures ReliableRequest(x) in signals ==> x in Requests(signals)
  {
    var s := ReliableRequest(x);
    assert s in signals ==> s.block in Requests(signals);
  }

  lemma {:induction false} PassLeaves(q: RaptorQ, produced: seq<bytes>, r: Recv, b: Ledger, order: seq<nat>,
                                      link: LinkState, now: nat, x: nat)
    requires RecvOk(q, produced, r) && Held(r) <= b.inFlight && Stuck(r, x)
    ensures var t := TickAll(r, b, order, link, now);
      x in t.recv.managers && t.recv.managers[x] == r.managers[x] && x !in t.recv.requested
  {
    hide CanGiveUp; hide Held; hide MgrOf; hide TickStep; hide AskOk; hide AskedOnce; hide Requests;
    if order != [] {
      var rest, y := order[..|order| - 1], order[|order| - 1];
      PassLeaves(q, produced, r, b, rest, link, now, x);
      AllKeeps(q, produced, r, b, rest, link, now);
      var t := TickAll(r, b, rest, link, now);
      MgrInvOf(q, produced, t.recv, x);
      hide ManagersOk;
      StuckIdle(t.recv.managers[x], t.budget, TickCtx(now, link, r.highestSeen > x));
    }
  }

  lemma StuckIdle(m: Mgr, b: Ledger, c: TickCtx)
    requires MgrInv(m) && !CanGiveUp(m)
    ensures TickStep(m, b, c) == Step(m, b, Idle)
  {}

  /** From any point of any run, until one of its own symbols arrives a stranded block is neither
      completed nor asked for. */
  lemma {:induction false} StrandedForever(q: RaptorQ, symbolSize: nat, k: nat, states: seq<Sys>, acts: seq<Act>,
                                           i: nat, j: nat, x: nat)
    requires Sound(q) && GoodGeometry(symbolSize, k) && TunnelRun(q, symbolSize, k, states, acts)
    requires IndicesFit(states[|acts|].h.log) && i <= j <= |acts| && Stranded(states[i], x)
    requires forall n: nat :: i <= n < j ==> !OwnSymbol(states[n], acts[n], x)
    ensures Stranded(states[j], x) && !IsComplete(states[j].recv, x)
    decreases j - i
  {
    hide Next; hide Inv; hide Sound; hide IndicesFit; hide Runnable; hide Enabled; hide OwnSymbol;
    if i < j {
      StrandedForever(q, symbolSize, k, states, acts, i, j - 1, x);
      hide Stranded;
      TunnelInv(q, symbolSize, k, states, acts, j - 1);
      assert StepAt(q, states, acts, j - 1);
      StrandedStays(q, states[j - 1], acts[j - 1], x);
      StrandedLacks(states[j], x);
    }
  }

  lemma StrandedLacks(s: Sys, x: nat)
    requires Stranded(s, x)
    ensures !IsComplete(s.recv, x)
  {}
}
