# Raptun FEC tunnel: a verified model

Raptun carries TCP connections over QUIC. A byte stream is cut into blocks; each block becomes RaptorQ
source and repair symbols sent as unreliable QUIC datagrams (section 5 of RFC 9221); the receiver puts
blocks back together in any order and hands bytes on in order. Control messages travel on a reliable
stream beside the datagrams. This project models that protocol and the counters that bound it, and
proves what holds in every reachable state, over every network behaviour and every interleaving.

## How the model is laid out

| files | what they model |
|---|---|
| `Base`, `Link`, `Codec` | bytes and big-endian words, the transport snapshot, RaptorQ as a pair of external functions |
| `Signals`, `Datagram`, `Geometry` | signal framing and its reader, the 22-byte symbol header, chunking, padding, negotiation |
| `Budget`, `Decoder` | the repair budget and the per-block fallback state machine |
| `Sender`, `SenderHistory`, `Service` | `FecSender`, whole runs of it, and what it retains, records and puts on the wire for its blocks |
| `Receiver`, `ReceiverSafety`, `TickSafety`, `TickVerdict` | `FecReceiver`, what each of its calls keeps, and what a tick says about each block |
| `Tunnel`, `TunnelSafety`, `TunnelRuns`, `Exchange` | one direction of a tunnel as a state machine with an adversarial network, its invariant, the theorems about every run, and how the two ends move each other |
| `Progress`, `Convergence`, `GateRetention` | what completes a block over any run, the reliable lower bound, and how the upstream gate protects it |
| `LateSymbols`, `Acknowledgements`, `LostRequests` | where the receiver and the sender fall short of what the code says of itself |
| `Scenarios` | explicit runs from the start that reach those shortcomings, with every signal delivered once and in order and no datagram twice |
| `BudgetInterleaving`, `SendWindow`, `WindowInterleaving`, `WindowTightness` | the shared atomics, as sequential objects and as interleaved loads, adds and compare-and-swaps, with the runs that meet their bounds |
| `Hub`, `HubInterleaving` | the datagram demultiplexer and its read loop, alone and interleaved with registrations |
| `Telemetry`, `Strategy` | windowed loss, loss regime, stall watchdog, adaptive repair ratio |

Stateful objects are classes whose methods are proved equal to step functions on plain values; the
theorems are about those step functions, and reach the classes through the methods' postconditions. What a
step function computes is said again beside it in the terms of the source's documentation, with times,
sizes and thresholds written out (`Decoder.TickDoes`, `TickVerdict.BlockJudged`, `Service.SpurtJudged`,
`Telemetry.VerdictIs` and others).
State machines are a `Next` function per step; a run is the list of states passed through and the list of
steps between them.

RaptorQ itself is external. Safety assumes only `Codec.Sound`: fed symbols of one block, the decoder
answers with that block or declines. `Codec.Fountain` (K distinct symbols suffice) is assumed only where
delivery is claimed, and `Codec.Strict` (fewer do not) only where it is asked when exactly a decoder
answers; all three can hold together (`Codec.HypothesesConsistent`). A decoder may also need more than K
(section 5.8 of RFC 6330); what that does is shown with one that needs K and one more
(`Codec.ThresholdConsistent`). Theorems about a tunnel assume `Tunnel.IndicesFit`: no block has used 2^24
symbol indices, the range of the header field, beyond which the codec's own payload ids end.

## What was found not to hold

Each of these is a comment or a name in the source that its code does not keep. The model follows the
code; a lemma shows the failure and, where one exists, the exact condition.

- `crates/raptun-core/src/run.rs:1210-1214,1548-1551`: a sender that cannot serve a reliable request is
  to unmark the block so that it is asked for again. It unmarks it at its own end's receiver, whose
  block numbers belong to the other direction (`LostRequests.DroppedRequestNotRetried`). To come to that
  the gate must have abandoned its count as often as sixteen blocks go into the retention window, and that
  often is enough (`GateRetention.UnanswerableNeedsAbandons`, `GateRetention.UnanswerableArises`). The
  comment at 1207-1208, that a dropped reliable copy is asked for again by the tick, fails the same way
  (`TunnelRuns.NoRequestSpam`).
- `crates/raptun-core/src/fec.rs:1000-1003`: unmarking a block lets a later tick ask again. Not if its
  manager has already degraded (`LateSymbols.UnmarkRetriesExactlyWhen`).
- `crates/raptun-core/src/fec.rs:826-827`: late duplicates are ignored. Only below the delivery floor;
  a late symbol of a completed block that waits for its turn gets a fresh manager, unless one symbol is
  the whole block; that manager may outlive the block and hold repair budget for it
  (`LateSymbols.CleanExactlyWhen`, `LateSymbols.ZombieForever`, `LateSymbols.ZombieHoldsBudget`,
  `Scenarios.ZombieNackHappens`).
- `crates/raptun-core/src/fec.rs:769-772`: a mark says that reliable data is in flight. A block decoded
  from symbols and delivered first keeps its mark (`TunnelRuns.MarkClearedExactlyWhen`).
- `crates/raptun-core/src/fec.rs:522-530,680-683,878-881`: `acked_blocks` counts blocks and each block is
  acknowledged once. It counts calls, and a block that waits for delivery is acknowledged again by every
  reliable copy and by every K further symbols, so the sender can take itself to be done too early
  (`Acknowledgements.CopyAcksAgainWhen`, `Acknowledgements.GenuineAcksWhen`, `Acknowledgements.ExitTest`,
  `Scenarios.ExitTooEarlyHappens`).
- `crates/raptun-fec/src/decoder.rs:101`: `received` counts distinct symbols. It counts arrivals, and a
  block that has counted K without decoding is never asked for again (`Decoder.OvercountedNeverStalls`,
  `Convergence.StrandedForever`, `Scenarios.StrandedHappens`).
- `crates/raptun-fec/src/budget.rs:11-14`: repair in flight never exceeds the ceiling. It can, after the
  ceiling shrinks (`BudgetInterleaving.OverCeilingExactlyWhen`, `BudgetInterleaving.OverCeilingReached`);
  and not every reservation comes back (the `stranded` term of `BudgetInterleaving.LedgerBalances` and `TunnelRuns.RepairLedger`).
- `crates/raptun-fec/src/budget.rs:134-143`: the aggregate may not exceed the window's ceiling. It cannot
  while every tunnel gets two blocks and keeps within its share, which only a join or a stale send can end
  (`WindowInterleaving.CeilingKept`, `WindowInterleaving.ShareKeptExactlyWhen`); otherwise it can, by up to
  one block less than there are tunnels and never by more, forced sends included
  (`WindowInterleaving.OvershootBounded`, `WindowTightness.OvershootTight`, `WindowTightness.FreshMaximum`).
  And lines 107-131 speak of a ceiling that follows the link; a window built by `new` never leaves its floor (`SendWindows.SendWindow.RefreshCeiling`).
- `crates/raptun-core/src/telemetry.rs:60-61`: an interval without new packets yields `None`. It yields a
  rate of zero (`Telemetry.LossTracker.WindowLoss`).
- `crates/raptun-core/src/run.rs:874-876`: tunnels follow the adaptive ratio. They learn of it only when
  one step moves it by more than a percentage point, and steps shrink, so they can be left behind for
  good (`Strategy.SilentForever`, `Strategy.StaleUnderCongestion`, `Strategy.LastAnnouncement`).
- `crates/raptun-core/src/fec.rs:381-384`: the caller of `dispatch_route` awaits the send. The read loop
  tries it once and drops the symbol (`crates/raptun-core/src/run.rs:971-980`), as the model does.

## Model

| member | source | states |
|---|---|---|
| Signals.DecodeProgress | crates/raptun-core/src/fec.rs:156-231 | a verdict always consumes at least one byte and never more than the buffer holds |
| Signals.DecodePrefixStable | crates/raptun-core/src/fec.rs:156-231 | a verdict reached on a buffer is not changed by bytes that arrive later, garbage included |
| Signals.RoundTrip | crates/raptun-core/src/fec.rs:105-231 | a frame decodes back to its signal, using itself exactly, if and only if its payload is at most 1 MiB; otherwise it loses only its tag byte |
| Signals.DrainAppend | crates/raptun-core/src/run.rs:1302-1340 | draining two pieces one after the other is draining them together |
| Signals.ChunkInvariance | crates/raptun-core/src/run.rs:1286-1341 | the signals read and the bytes left over depend only on the bytes sent, never on how they were split, for any bytes at all |
| Signals.DrainEncoded | crates/raptun-core/src/fec.rs:108-231 | any list of acceptable signals, encoded and concatenated, is read back exactly with nothing left over |
| Signals.StreamRoundTrip | crates/raptun-core/src/run.rs:1286-1341 | the same, under every split into chunks |
| Signals.FrameLayout | crates/raptun-core/src/fec.rs:108-155 | each frame byte by byte: its tag and its fields in order |
| Signals.LeftoverBounded | crates/raptun-core/src/run.rs:1288-1340 | the reader's buffer between reads is always the start of one valid frame, so it stays below 1 MiB and 13 bytes |
| Signals.Reader.constructor | crates/raptun-core/src/run.rs:1287-1290 | the reader starts having read nothing |
| Signals.Reader.OnChunk | crates/raptun-core/src/run.rs:1290-1341 | the loop over each chunk hands on exactly the signals in everything read so far, and keeps exactly the rest |
| Datagram.Cursor.Get | crates/raptun-proto/src/datagram.rs:100-108 | a getter yields the big-endian value of the bytes it takes off the front |
| Datagram.EncodeHeader | crates/raptun-proto/src/datagram.rs:86-97 | what is appended is the 22-byte big-endian header, the three hand-shifted bytes being the index's low 24 bits |
| Datagram.HeaderLayout | crates/raptun-proto/src/datagram.rs:86-97 | where each field lies in the 22 bytes |
| Datagram.Parse | crates/raptun-proto/src/datagram.rs:76-117 | fails exactly below 22 bytes, and otherwise splits header fields and payload at their offsets |
| Datagram.HeaderRoundTrip | crates/raptun-proto/src/datagram.rs:76-117 | header and payload survive the wire, but for the symbol index, of which 24 bits do |
| Datagram.EsiKeptApart | crates/raptun-proto/src/datagram.rs:91-94 | two indices of a block stay distinct on the wire if and only if they differ modulo 2^24 |
| Geometry.PadUnpad | crates/raptun-fec/src/codec.rs:61-91 | unpadding undoes padding if and only if prefix and payload fit the block and the length fits 32 bits |
| Geometry.BlockLayout | crates/raptun-fec/src/codec.rs:61-80 | a block is the big-endian length, the payload, and zeros |
| Geometry.CapacityIsGreatest | crates/raptun-fec/src/codec.rs:93-97 | a payload survives its block if and only if it is within the capacity |
| Geometry.ActualKLeast | crates/raptun-fec/src/codec.rs:42-51 | a nonempty payload that fits the geometry is given the least block that holds it |
| Geometry.ChunksCover | crates/raptun-core/src/fec.rs:592-599 | the chunks concatenate to the data |
| Geometry.ChunkSizes | crates/raptun-core/src/fec.rs:592-599 | every chunk is nonempty and fits one block, and every one but the last fills it |
| Geometry.RecoveredAll | crates/raptun-fec/src/codec.rs:44-97 | chunk by chunk, choosing K, padding and unpadding is the identity |
| Geometry.NegotiatedBounds | crates/raptun-core/src/session.rs:223-269 | whatever the peer asks for, symbol size and K stay in range, a block stays below 281 089 bytes, and a framed symbol fits the datagram cap if and only if the cap exceeds the header |
| Geometry.NegotiatedGreatest | crates/raptun-core/src/session.rs:223-269 | the symbol is the greatest that server, path and datagram cap admit, or one byte; the block size is the one asked for up to 256, or 16; the repair is the one asked for up to the limit |
| Geometry.GeometryChain | crates/raptun-core/src/run.rs:2175-2185 | from any request: any stream is cut into chunks that concatenate to it, whose blocks unpad to them, and which travel in reliable frames the peer accepts |
| Geometry.EmptyPayload | crates/raptun-fec/src/codec.rs:44-47 | an empty payload survives if and only if a symbol holds the length prefix |
| Budget.RepairBudget.constructor | crates/raptun-fec/src/budget.rs:45-52 | starts with nothing in flight and a zero ceiling |
| Budget.RepairBudget.RefreshCeiling | crates/raptun-fec/src/budget.rs:56-60 | the ceiling is the greatest symbol count whose bytes stay within the configured fraction of the window |
| Budget.RepairBudget.TryReserve | crates/raptun-fec/src/budget.rs:62-85 | without interference: all or nothing, granted exactly when it fits |
| Budget.RepairBudget.Release | crates/raptun-fec/src/budget.rs:87-91 | an unsigned subtraction that wraps, not one that saturates |
| BudgetInterleaving.LedgerBalances | crates/raptun-fec/src/budget.rs:56-91 | over every interleaving of loads, swaps, releases, dropped managers and ceiling changes: in flight = reserved - released = held + stranded, never above the largest ceiling ever set, and no release wraps |
| BudgetInterleaving.OverCeilingExactlyWhen | crates/raptun-fec/src/budget.rs:56-85 | exactly which steps take the count above the ceiling in force |
| BudgetInterleaving.OverCeilingReached | crates/raptun-fec/src/budget.rs:56-85 | and both kinds of step do so on runs from the start: any reservation, any smaller ceiling set after its swap or between load and swap |
| BudgetInterleaving.EveryAnswerLinearizes | crates/raptun-fec/src/budget.rs:66-85 | whatever interleaves, every finished `try_reserve` has a moment inside its own interval at which the sequential operation, against the ceiling the call loaded, gives the same answer; a grant takes effect there by exactly the amount asked for, a refusal changes nothing shared |
| BudgetInterleaving.CallHistory | crates/raptun-fec/src/budget.rs:66-85 | a task inside a call works with the ceiling of the call's first step and with a count that was the shared one at a later moment of the call |
| BudgetInterleaving.UninterruptedIsSequential | crates/raptun-fec/src/budget.rs:66-85 | run alone, the steps are the sequential operation |
| Decoder.BlockManager.constructor | crates/raptun-fec/src/decoder.rs:130-140 | a new manager is empty, filling, and sized for its block |
| Decoder.BlockManager.OnSymbol | crates/raptun-fec/src/decoder.rs:158-186 | manager, budget and action after a symbol, as the step function says that `SymbolDoes` spells out |
| Decoder.BlockManager.ReleaseReservation | crates/raptun-fec/src/decoder.rs:190-195 | returns the whole reservation, once |
| Decoder.BlockManager.Tick | crates/raptun-fec/src/decoder.rs:200-207 | manager, budget and action after a tick, as the step function says that `TickDoes` spells out |
| Decoder.BlockManager.TickFilling | crates/raptun-fec/src/decoder.rs:209-239 | the `Filling` part of it: due after one grace behind a later block, or after eight graces and half a second, and then arbitrated at once |
| Decoder.BlockManager.TickStalled | crates/raptun-fec/src/decoder.rs:241-272 | congestion, then need, then budget decide between giving up, filling and a NACK |
| Decoder.BlockManager.TickNackSent | crates/raptun-fec/src/decoder.rs:274-287 | past a round trip the reservation is returned before arbitrating again |
| Decoder.SymbolDoes | crates/raptun-fec/src/decoder.rs:158-195 | the whole effect of a symbol: counted, fed, the clock started by the first, a wait for repair ended, its reservation returned, and the payload delivered if and only if the decoder answers |
| Decoder.TickDoes | crates/raptun-fec/src/decoder.rs:200-287 | the whole effect of a tick, times written out: nothing if and only if the block is not due; else it is given up under congestion or a full budget, and otherwise NACKed for exactly what it lacks |
| Decoder.ClockStartsOnce | crates/raptun-fec/src/decoder.rs:158-168 | over every run patience is counted from the first symbol, which nothing later moves |
| Decoder.SymbolStepKeeps | crates/raptun-fec/src/decoder.rs:158-195 | a symbol leaves nothing reserved, moves manager and budget by the same amount, and delivers exactly when the block becomes done |
| Decoder.TickStepKeeps | crates/raptun-fec/src/decoder.rs:200-287 | never left stalled; a NACK is out if and only if its need is reserved, and the need is K less arrivals; terminal states hold nothing; no NACK under congestion |
| Decoder.GivesUpExactlyWhen | crates/raptun-fec/src/decoder.rs:209-287 | a tick gives a block up if and only if it is due, by the times written out, and the link is congested or the missing symbols do not fit beside what other blocks hold |
| Decoder.OvercountedNeverStalls | crates/raptun-fec/src/decoder.rs:220-238 | K arrivals that did not decode silence the block for every later tick |
| Decoder.OvercountedReachable | crates/raptun-fec/src/decoder.rs:168-171 | for every geometry and block, with a sound decoder that needs one symbol more than K: any K distinct symbols lead there, every later tick is silent, and any one further symbol would have completed the block |
| Decoder.RunInvariant | crates/raptun-fec/src/decoder.rs:158-287 | the invariant between calls, over every sequence of symbols and ticks and any movement of the budget |
| Decoder.ReceivedGrows | crates/raptun-fec/src/decoder.rs:158-287 | arrivals never decrease and terminal states are absorbing |
| Decoder.NacksAreSpaced | crates/raptun-fec/src/decoder.rs:200-287 | of two NACKs the later asks for no more; unless a symbol came between, they are more than a round trip apart |
| Decoder.GivenUpOnce | crates/raptun-fec/src/decoder.rs:146-207 | after a block is delivered or given up nothing more happens to it |
| Decoder.EnoughSymbolsDeliver | crates/raptun-fec/src/codec.rs:187-197 | with a fountain codec, the arrival that makes K distinct symbols delivers the payload, in any order and with any repeats |
| Progress.EnoughArrivalsComplete | crates/raptun-core/src/fec.rs:817-853 | over every run: once K distinct symbols of a block have arrived, with anything else in between, the block is complete unless its manager has given it up |
| Sender.Emit | crates/raptun-fec/src/codec.rs:123-139 | emits exactly the indices 0 to K plus repair, in order |
| Sender.FecSender.constructor | crates/raptun-core/src/fec.rs:552-568 | a new sender holds nothing and uses at least one symbol a block |
| Sender.FecSender.EncodeOneBlock | crates/raptun-core/src/fec.rs:602-627 | the next id is taken, all per-block maps gain it, its symbols are returned, and the window slides |
| Sender.FecSender.EvictOldBlocks | crates/raptun-core/src/fec.rs:631-648 | drops exactly the ids between the old edge and the new, from all maps; the window is the greatest that fits (`Service.RetainsGreatest`) |
| Sender.FecSender.AdditionalRepair | crates/raptun-core/src/fec.rs:652-660 | continues the block's index sequence where it stopped, by exactly what is asked (`Service.NackAnswered`); nothing for a block let go |
| Sender.FecSender.ReliablePayload | crates/raptun-core/src/fec.rs:664-666 | answers exactly for retained blocks |
| Sender.FecSender.RetireBlock | crates/raptun-core/src/fec.rs:670-678 | forgets the block in all maps and counts the call |
| Sender.FecSender.TopUp | crates/raptun-core/src/fec.rs:714-736 | the eligibility tests in order, one reservation for one spurt, which `Service.SpurtJudged` spells out |
| Sender.FecSender.ProactiveTopups | crates/raptun-core/src/fec.rs:695-738 | one pass over each retained block once, in some order, serving exactly the blocks of `Service.SpurtJudged` |
| SenderHistory.PerformKeeps | crates/raptun-core/src/fec.rs:602-738 | every sender operation keeps retention, contents and symbol history |
| SenderHistory.ExactRetention | crates/raptun-core/src/fec.rs:575-678 | over any run the retained ids are exactly the un-retired ids of the retention window, each with the bytes produced under it |
| SenderHistory.SymbolFreshness | crates/raptun-core/src/fec.rs:602-738 | over any run no (block, index) pair is sent twice, and a retained block has used exactly the indices below K plus its repair count, across emission, NACKs and spurts |
| SenderHistory.RetainedBytesBounded | crates/raptun-core/src/fec.rs:533-578 | at every point of every run retained payload bytes stay within half the budget, or one block |
| SenderHistory.TopUpEffect | crates/raptun-core/src/fec.rs:695-738 | a proactive pass reserves exactly what it asks for, stays within the ceiling, and at most three times a block |
| Service.RetainsGreatest | crates/raptun-core/src/fec.rs:570-579 | the retention window is the greatest number of blocks whose two copies fit 32 MiB, and at least one |
| Service.NackAnswered | crates/raptun-core/src/fec.rs:652-660 | a NACK for a retained block puts on the wire exactly as many symbols as asked, with the indices that follow those used, in order, and touches no other block; for a block let go, nothing |
| Service.SpurtJudged | crates/raptun-core/src/fec.rs:695-738 | a pass serves a block if and only if the loss is random, it is retained, older than a round trip, served fewer than three times, and a quarter of its symbols fits at its turn; with exactly that quarter |
| Service.SpurtAnswered | crates/raptun-core/src/run.rs:1575-1592 | and for each block exactly what is asked goes on the wire, with the indices that follow |
| Service.EncodeRecords | crates/raptun-core/src/fec.rs:602-627 | a new block is recorded with payload, encoder, K, repair and time, and whatever else is still retained as before |
| Service.RecordChanges | crates/raptun-core/src/fec.rs:652-738 | no other operation changes a block's record, but for the repair and spurts served to it and its acknowledgement, which erases it |
| Receiver.FecReceiver.constructor | crates/raptun-core/src/fec.rs:781-794 | a new receiver expects block zero |
| Receiver.FecReceiver.OnSymbol | crates/raptun-core/src/fec.rs:817-853 | receiver, budget and bytes after a symbol, through the managers it owns |
| Receiver.FecReceiver.Route | crates/raptun-core/src/fec.rs:832-850 | the symbol reaches its block's manager, new or old, and a decoded block moves from managers to ready with its acknowledgement queued |
| Receiver.FecReceiver.DrainReady | crates/raptun-core/src/fec.rs:857-864 | delivers the whole contiguous run at the floor and no more |
| Receiver.FecReceiver.OnReliableBlock | crates/raptun-core/src/fec.rs:1014-1026 | completes a block whatever its manager had, dropping manager and request |
| Receiver.FecReceiver.DrainAcks | crates/raptun-core/src/fec.rs:882-884 | hands over the queued acknowledgements and empties the queue |
| Receiver.FecReceiver.SetTotalBlocks | crates/raptun-core/src/fec.rs:798-800 | records the announced total and nothing else |
| Receiver.FecReceiver.SetHighWater | crates/raptun-core/src/fec.rs:805-807 | only ever raises the mark |
| Receiver.FecReceiver.UnmarkReliableRequested | crates/raptun-core/src/fec.rs:1004-1006 | forgets one request and nothing else |
| Receiver.FecReceiver.Tick | crates/raptun-core/src/fec.rs:909-998 | one pass over all managers in some order, then the scan for blocks nothing has arrived of; what it says about each is `TickVerdict.BlockJudged` and `TickVerdict.LostJudged` |
| Receiver.FecReceiver.TickManagers | crates/raptun-core/src/fec.rs:918-961 | each live block is arbitrated exactly once |
| Receiver.FecReceiver.TickBlock | crates/raptun-core/src/fec.rs:922-960 | one block's turn, with a later block seen taken as progress behind it; a block already asked for is not asked for again |
| Receiver.FecReceiver.ScanLost | crates/raptun-core/src/fec.rs:974-996 | asks for every block below the known bound that is invisible, and marks it |
| ReceiverSafety.FlushShape | crates/raptun-core/src/fec.rs:857-864 | flushing moves the floor to the first missing block and completes or loses nothing |
| ReceiverSafety.FlushDelivers | crates/raptun-core/src/fec.rs:857-864 | what is handed over is exactly the payloads between the old floor and the new |
| ReceiverSafety.EncoderFits | crates/raptun-core/src/fec.rs:833-836 | the K a sender puts in the header passes the receiver's clamp unchanged, and its block unpads to the payload |
| ReceiverSafety.SymbolSafe | crates/raptun-core/src/fec.rs:817-853 | any genuine symbol, at any time, in any order, keeps the receiver truthful and delivers only true bytes |
| ReceiverSafety.ReliableSafe | crates/raptun-core/src/fec.rs:1014-1026 | so does a reliable copy, and exactly the dropped manager's reservation is lost with it |
| TickSafety.TickSafe | crates/raptun-core/src/fec.rs:909-998 | a tick asks only about produced blocks, each at most once and only if not yet asked, keeps budget and managers in step, and leaves no known block invisible |
| TickVerdict.BlockJudged | crates/raptun-core/src/fec.rs:918-961 | over a whole tick, in any order, for each block with a manager: which signals name it and what becomes of it is decided by its own clock, whether a later block was seen, the link, and the budget at its turn, all written out |
| TickVerdict.LostJudged | crates/raptun-core/src/fec.rs:963-996 | and for each block without one: asked for reliably, once, if and only if it is known, undelivered, not waiting and not asked for before |
| TunnelSafety.NextKeeps | crates/raptun-core/src/run.rs:1345-2002 | every step of sender, network, receiver, budget and credit account keeps the tunnel's invariant |
| TunnelRuns.TunnelInv | crates/raptun-core/src/run.rs:1345-2002 | the invariant holds at every point of every run of a tunnel from its start |
| TunnelRuns.InOrderDelivery | crates/raptun-core/src/fec.rs:817-864 | in every reachable state the bytes handed to the socket are the payloads below the delivery floor, in order, once, unaltered; what waits is true; the floor never passes what was sent |
| TunnelRuns.ExitMeansComplete | crates/raptun-core/src/run.rs:1802-1807 | when the downstream loop's exit test holds, the whole stream has been handed over and nothing can be added |
| TunnelRuns.AsksNameProducedBlocks | crates/raptun-core/src/run.rs:1530-1556 | every NACK, request, acknowledgement and credit is about blocks the sender has produced, and true |
| TunnelRuns.AcksExactlyComplete | crates/raptun-core/src/fec.rs:841-884 | a block is acknowledged or about to be if and only if it has arrived in full, and the sender retires none before |
| TunnelRuns.MissingBlockAnswered | crates/raptun-core/src/fec.rs:664-678 | a block still missing is retained if and only if it is within the window, and then a request is answered with its bytes |
| TunnelRuns.CreditAccounting | crates/raptun-core/src/run.rs:1434-1564 | for any repeated, late or reordered credits: credited is at most delivered, and the slot counts at most what is sent and uncredited, and falls short of it by at most what was abandoned |
| Exchange.CreditsAlong | crates/raptun-core/src/run.rs:1554-1564 | over every run the sender has credited exactly the greatest credit it was given |
| Exchange.CreditRoundTrip | crates/raptun-core/src/run.rs:1950-1958 | a credit sent and given leaves the slot with exactly the undelivered blocks, unless some were abandoned |
| Exchange.NackReachesWire | crates/raptun-core/src/run.rs:1533-1541 | a NACK that reaches the sender of a retained block puts exactly the next symbols asked for on the wire, from where they may arrive |
| Exchange.SpurtReachesWire | crates/raptun-core/src/run.rs:1571-1592 | a proactive pass puts on the wire, and reserves, exactly what it asks for |
| Exchange.TickReachesSender | crates/raptun-core/src/run.rs:1909-1945 | every signal of a tick, and no other, is sent |
| Exchange.EofAnnounced | crates/raptun-core/src/run.rs:1618-1624 | once the data has ended the exact number of blocks is announced for good |
| Exchange.ExitExactlyWhen | crates/raptun-core/src/run.rs:1802-1807 | over every run the downstream exit test holds if and only if the announcement has arrived and every block of the stream is complete |
| Exchange.SeenAlong | crates/raptun-core/src/fec.rs:817-832 | over every run the highest block seen is the greatest of which a symbol came before it was delivered |
| TunnelRuns.RepairLedger | crates/raptun-core/src/fec.rs:1014-1026 | in every reachable state the budget counts what managers hold, what was stranded and what other tunnels hold, within the largest ceiling; each manager's reservation is in it |
| TunnelRuns.DatagramsDistinct | crates/raptun-core/src/fec.rs:602-660 | no two datagrams of a tunnel carry the same block and index on the wire |
| TunnelRuns.NoInvisibleHole | crates/raptun-core/src/fec.rs:963-996 | after any tick every undelivered block up to the highest seen, or below the announced high water or total, has a manager, is ready, or has been asked for |
| TunnelRuns.NoRequestSpam | crates/raptun-core/src/fec.rs:902-960 | of two ticks of a run that ask for the same block, some step between them dropped the first request or answered it |
| TunnelRuns.AskingMarks | crates/raptun-core/src/fec.rs:948-996 | a tick that asks for a block had not asked before, asks once, and marks it |
| TunnelRuns.MarkClearedExactlyWhen | crates/raptun-core/src/fec.rs:1004-1026 | of all steps, exactly an unmarking, or the block's reliable copy arriving before the block is delivered, clears the mark of a requested block |
| TunnelRuns.MarkOutlivesDelivery | crates/raptun-core/src/fec.rs:1014-1020 | over every run a requested block that was decoded and delivered stays marked until it is unmarked |
| Convergence.LateTick | crates/raptun-fec/src/decoder.rs:209-287 | past every deadline, where repair is refused, a tick gives up exactly the blocks that can be |
| Convergence.LateTickCoversAllButStuck | crates/raptun-core/src/fec.rs:909-998 | one late tick leaves every known missing block asked for, if and only if it is not stuck |
| Progress.CompleteAlong | crates/raptun-core/src/fec.rs:817-1026 | over every run a block once complete stays so, and one whose reliable copy arrives becomes so |
| Progress.CopiesDeliverFrom | crates/raptun-core/src/fec.rs:1014-1026 | from any state with the invariant, along any run with any other steps in between: once every block below n is complete or its copy has arrived, in any order, all of them have been handed over |
| Progress.CopiesDeliver | crates/raptun-core/src/run.rs:1870-1908 | the same from any point of any run of a tunnel |
| Convergence.AnswersPossible | crates/raptun-core/src/run.rs:1543-1553 | requests for retained blocks can always be answered, in any order and with repeats |
| Convergence.RecoveryOnAnySchedule | crates/raptun-core/src/fec.rs:909-1026 | in any run with one late refused tick and no stuck block: from then on every known block is complete or its request is under way, and once the copies have arrived on whatever schedule, all have been handed over |
| Convergence.ReliableRecovery | crates/raptun-core/src/fec.rs:909-1026 | from any reachable state without stuck blocks such a run is possible: high water announced, one late tick, answers in any order, and the whole stream has been handed over |
| Convergence.StrandedForever | crates/raptun-fec/src/decoder.rs:205-238 | from any point of any run, a stuck block with no request under way is neither completed nor asked for until one of its own symbols arrives |
| Scenarios.StrandedHappens | crates/raptun-fec/src/decoder.rs:168-238 | and a run from the start to such a block, for every geometry and payload: all its symbols have arrived, K of them, and the decoder needs one more |
| LateSymbols.CleanExactlyWhen | crates/raptun-core/src/fec.rs:826-850 | a genuine symbol leaves managers and completed blocks apart if and only if its block is not waiting in ready, or is a block of one symbol |
| LateSymbols.ReliableKeepsClean | crates/raptun-core/src/fec.rs:1014-1026 | reliable completion keeps them apart in any case |
| LateSymbols.ZombieForever | crates/raptun-core/src/fec.rs:817-1026 | over every run a manager of a delivered block is never removed and never fed again |
| LateSymbols.ZombieHoldsBudget | crates/raptun-fec/src/decoder.rs:241-287 | over every run such a manager, once it has NACKed, keeps the symbols it lacks reserved in the shared budget until it gives up |
| LateSymbols.ZombieAsks | crates/raptun-fec/src/decoder.rs:209-287 | at each tick past its wait it asks for repair of the delivered block again if that fits and the link is uncongested, and for a reliable copy otherwise |
| LateSymbols.ZombieArises | crates/raptun-core/src/fec.rs:826-850 | how one comes about from any settled receiver, and the manager it leaves |
| Scenarios.ZombieNackHappens | crates/raptun-core/src/fec.rs:826-961 | a run from the start, every step listed, to such a manager with a NACK out and all the repair in flight reserved for it |
| Acknowledgements.CopyAcksAgainWhen | crates/raptun-core/src/fec.rs:1014-1026 | a reliable copy acknowledges a complete block again if and only if the block still waits for delivery |
| Acknowledgements.SymbolAcksWhen | crates/raptun-core/src/fec.rs:826-850 | a symbol acknowledges its block, for the first time or again, if and only if the block is not delivered and its manager decodes |
| Acknowledgements.GenuineAcksWhen | crates/raptun-core/src/fec.rs:826-850 | for genuine symbols that is the K-th distinct one since the manager was made: K more after completion acknowledge the block again |
| Acknowledgements.AckedTwice | crates/raptun-core/src/fec.rs:826-884 | for every geometry and payload: of block 1 twice K distinct symbols arrive with a drain after the first K, and it is acknowledged twice while block 0 is missing |
| Scenarios.ExitTooEarlyHappens | crates/raptun-core/src/run.rs:1706-1742 | a run from the start, every step listed, in which the sender's exit test holds at the end of its data while block 0 never arrived, and is retained if the window reaches back two blocks |
| Acknowledgements.AckedAlong | crates/raptun-core/src/fec.rs:670-678 | over every run the counter is the number of acknowledgements given to the sender, repeats included |
| Acknowledgements.RetiredAlong | crates/raptun-core/src/fec.rs:670-678 | while the blocks let go of on acknowledgement are the distinct ones among them |
| Acknowledgements.ExitTest | crates/raptun-core/src/run.rs:1706-1742 | over every run: the exit test holds with a block unacknowledged if and only if the acknowledgements reach the total and the distinct ones do not; with none given twice it holds if and only if all are in, and then every block is complete at the receiver |
| LateSymbols.UnmarkRetriesExactlyWhen | crates/raptun-core/src/fec.rs:1000-1006 | after unmarking, a late tick asks again if and only if the block has no manager or one that can still give up |
| LostRequests.UnanswerableStays | crates/raptun-core/src/run.rs:1543-1553 | a request for a block let go of survives every step of its direction but the block's own symbols and its unmarking |
| LostRequests.DuplexInv | crates/raptun-core/src/run.rs:1345-2002 | the invariant of both directions, over every run of both with requests dropped at either end |
| LostRequests.DroppedRequestNotRetried | crates/raptun-core/src/run.rs:1543-1553 | from any point of any run of both directions, dropping the request retries nothing: the block is neither completed nor asked for again until one of its own symbols arrives or the same number is dropped the other way |
| GateRetention.GateKeepsRetained | crates/raptun-core/src/run.rs:1425-1503 | over every run whose sends find their slot below the window, a block the receiver lacks is at most one window behind and one more for each abandon, and while those fit the retention window it is retained with its bytes |
| GateRetention.NegotiatedWindowFits | crates/raptun-core/src/fec.rs:533-578 | every geometry a session can negotiate retains at least 59 blocks, three times the gate's 16 and more |
| GateRetention.GatedRecovery | crates/raptun-core/src/fec.rs:909-1026 | so after any run with so few abandons recovery asks nothing of the sender: without stuck blocks the whole stream can be handed over |
| GateRetention.UnanswerableNeedsAbandons | crates/raptun-core/src/run.rs:1471-1503 | a request that cannot be served takes at least as many abandons as whole windows of 16 go into the retention window |
| GateRetention.UnanswerableArises | crates/raptun-core/src/run.rs:1471-1503 | and exactly that many are enough, for every geometry: rounds of 16 lost sends that fill the window and a stall that abandons them |
| SendWindows.SendWindow.constructor | crates/raptun-fec/src/budget.rs:243-265 | starts empty, with the ceiling at the floor and the running minimum at the floor's bytes |
| SendWindows.SendWindow.ObserveCwnd | crates/raptun-fec/src/budget.rs:288-304 | a running minimum over samples above the floor, which such a window never lowers |
| SendWindows.SendWindow.RefreshCeiling | crates/raptun-fec/src/budget.rs:315-331 | whatever the transport reports, a window built by `new` keeps its ceiling at the floor |
| SendWindows.SendWindow.RegisterTunnel | crates/raptun-fec/src/budget.rs:333-339 | a fresh empty slot, counted |
| SendWindows.SendWindow.AddSent | crates/raptun-fec/src/budget.rs:372-375 | one block more in aggregate and slot |
| SendWindows.SendWindow.Settle | crates/raptun-fec/src/budget.rs:385-393 | the aggregate loses exactly what the slot gave up, so over-settling frees nothing another tunnel holds |
| SendWindows.TunnelSlot.constructor | crates/raptun-fec/src/budget.rs:335-338 | a slot starts empty |
| SendWindows.TunnelSlot.AbandonInFlight | crates/raptun-fec/src/budget.rs:222-227 | empties the slot and returns what it held |
| SendWindows.TunnelSlot.Close | crates/raptun-fec/src/budget.rs:230-238 | returns what the slot held and uncounts the tunnel |
| SendWindows.SharesFit | crates/raptun-fec/src/budget.rs:348-352 | tunnels within their share together hold at most the ceiling, or two blocks each |
| SendWindows.ShareIsGreatest | crates/raptun-fec/src/budget.rs:341-352 | the share is the greatest that goes round under the ceiling, and at least two blocks |
| SendWindows.ShareIsGuaranteed | crates/raptun-fec/src/budget.rs:348-360 | while the ceiling gives every registered tunnel two blocks and the others keep their share, `has_room` holds if and only if the tunnel is below its own |
| SendWindows.ShareWidens | crates/raptun-fec/src/budget.rs:341-352 | a share never shrinks when another tunnel leaves |
| WindowInterleaving.WindowBalances | crates/raptun-fec/src/budget.rs:222-238 | over every interleaving the aggregate is the live slots' blocks plus half-finished updates, the tunnel count is the number of slots, and both are zero once all are gone |
| WindowInterleaving.NothingSaturates | crates/raptun-fec/src/budget.rs:396-412 | neither the aggregate's saturating subtraction nor the tunnel count's ever meets a smaller number |
| WindowInterleaving.SettleTakesWhatIsHeld | crates/raptun-fec/src/budget.rs:385-412 | under interference a settle still takes the smaller of credit and slot, and carries exactly that to the aggregate |
| WindowInterleaving.OthersUntouched | crates/raptun-fec/src/budget.rs:372-412 | no step of one tunnel changes what any other holds of the aggregate |
| WindowInterleaving.ShareKeptExactlyWhen | crates/raptun-core/src/run.rs:1425-1503 | with every tunnel within its share, a step keeps it so if and only if it is not a join onto more than the new share, nor a stale send by a tunnel at its share; a send forced through a full window keeps it |
| WindowInterleaving.CeilingKept | crates/raptun-fec/src/budget.rs:348-375 | over every interleaving without such steps, forced sends included, the aggregate stays within the shares, so within the ceiling while that gives everyone two blocks, and then a tunnel has room if and only if it is below its share |
| WindowInterleaving.SlotBelowCeiling | crates/raptun-core/src/run.rs:1425-1504 | over every interleaving no tunnel alone holds more than the ceiling, the block it is about to send included: every send, fresh, stale or forced, finds its slot below the ceiling |
| WindowInterleaving.OvershootBounded | crates/raptun-core/src/run.rs:1425-1504 | over every interleaving at all the aggregate passes the ceiling by less than the number of tunnels there are, however many sends were forced |
| WindowTightness.OvershootTight | crates/raptun-core/src/run.rs:1425-1504 | that bound is met for every ceiling and every number of tunnels |
| WindowTightness.FreshMaximum | crates/raptun-fec/src/budget.rs:348-375 | for every ceiling and number of tunnels, sends within the shares can put out the smaller of the shares together and of the ceiling less one with one more a tunnel |
| WindowTightness.FreshAtMost | crates/raptun-fec/src/budget.rs:348-375 | and never more than that |
| WindowInterleaving.UninterruptedIsSequential | crates/raptun-fec/src/budget.rs:385-412 | run alone, the two loops are the sequential settle |
| Hub.BufferedWithinCaps | crates/raptun-core/src/fec.rs:424-446 | buffering keeps 1024 streams of 256 symbols, and loses a symbol if and only if one of these is reached |
| Hub.BufferedAppends | crates/raptun-core/src/fec.rs:424-446 | a symbol goes behind those waiting for its stream unless 256 do, or 1024 other streams wait; nothing else moves |
| Hub.FramedIsRead | crates/raptun-core/src/fec.rs:387-450 | what is routed or buffered is what was framed: stream, block, K, index to 24 bits, payload |
| Hub.Channel.TrySend | crates/raptun-core/src/run.rs:971-980 | accepted exactly while open and not full |
| Hub.DatagramHub.constructor | crates/raptun-core/src/fec.rs:297-304 | a new hub routes and buffers nothing |
| Hub.DatagramHub.Register | crates/raptun-core/src/fec.rs:323-348 | the new channel starts with everything buffered for the stream, in order: no replay is dropped |
| Hub.DatagramHub.Unregister | crates/raptun-core/src/fec.rs:354-358 | forgets route and buffer of one stream |
| Hub.DatagramHub.DispatchRoute | crates/raptun-core/src/fec.rs:387-405 | finds a channel exactly for a well-formed datagram of a registered stream |
| Hub.DatagramHub.Dispatch | crates/raptun-core/src/fec.rs:414-450 | buffers exactly well-formed datagrams of unregistered streams, within the caps |
| Hub.OnDatagram | crates/raptun-core/src/run.rs:965-992 | one turn of the read loop changes the routed channel or the buffer, never both, and no other channel |
| HubInterleaving.RoutedOrBuffered | crates/raptun-core/src/fec.rs:323-450 | whatever falls between the reader's two locks, no stream is both routed and buffered, and the caps hold |
| HubInterleaving.InOrderOnce | crates/raptun-core/src/run.rs:965-992 | each channel gets an ascending, repeat-free subsequence of its own stream's arrivals, and no arrival reaches two channels |
| HubInterleaving.Accounted | crates/raptun-core/src/run.rs:965-992 | every arrival dealt with is in a channel, buffered, or lost, and in no two of these |
| HubInterleaving.LosesExactlyWhen | crates/raptun-core/src/fec.rs:354-450 | exactly which steps lose a symbol |
| HubInterleaving.ReplayDropsNothing | crates/raptun-core/src/fec.rs:326-342 | registering replays all that waited and loses nothing, in every reachable state |
| Telemetry.LossTracker.WindowLoss | crates/raptun-core/src/telemetry.rs:69-84 | nothing on the first sample, and the interval's rate ever after |
| Telemetry.RateIs | crates/raptun-core/src/telemetry.rs:69-84 | an interval's rate is the fraction of its packets that was lost, one if more were, and zero without packets |
| Telemetry.RatesConserveLoss | crates/raptun-core/src/telemetry.rs:69-84 | the windowed rates, weighed by packets sent, add up to the packets lost |
| Telemetry.RegimeClassifier.Classify | crates/raptun-core/src/telemetry.rs:185-200 | smoothing and rules in order, as the run functions say |
| Telemetry.VerdictIs | crates/raptun-core/src/telemetry.rs:185-200 | the exact verdict on every sample of every run, from the smoothed loss and the window before |
| Telemetry.SmoothingIs | crates/raptun-core/src/telemetry.rs:185-190 | a steady loss closes three tenths of its distance with every sample |
| Telemetry.SteadyLossIsRandom | crates/raptun-core/src/telemetry.rs:185-200 | steady loss between half a percent and ten, or heavier on a growing window, is random from an explicit sample on, from any history |
| Telemetry.SustainedLossIsCongestion | crates/raptun-core/src/telemetry.rs:185-200 | loss above ten percent by any margin on a window that does not grow is congestion from an explicit sample on, from any history |
| Telemetry.RecoveryIsQuiescent | crates/raptun-core/src/telemetry.rs:185-200 | fifteen clean samples are enough to be quiescent again, but for a sample that cuts the window |
| Telemetry.StallWatchdog.constructor | crates/raptun-core/src/telemetry.rs:245-252 | starts watching an empty history |
| Telemetry.StallWatchdog.Observe | crates/raptun-core/src/telemetry.rs:261-276 | fires exactly at the first sample by which the last N measurements are all bad, over the whole history |
| Telemetry.TripsExactlyOnce | crates/raptun-core/src/telemetry.rs:254-276 | over any run it fires at most once, somewhere if and only if some prefix has stalled, never when N is zero, and always on a bad measurement |
| Strategy.FecStrategy.constructor | crates/raptun-fec/src/strategy.rs:110-113 | starts within its bounds |
| Strategy.FecStrategy.Update | crates/raptun-fec/src/strategy.rs:134-153 | stays within its bounds, moves as `RandomStep` and `QuietStep` say, and reports exactly the moves of more than one percentage point |
| Strategy.StepToward | crates/raptun-fec/src/strategy.rs:144-147 | one step never overshoots, always moves downwards, and upwards stands still if and only if the gain's share of the gap is below one part per million |
| Strategy.Converges | crates/raptun-fec/src/strategy.rs:134-153 | toward a fixed target the ratio settles for good within as many updates as it is parts away: on the target from above, within one part over the gain from below |
| Strategy.AlwaysBounded | crates/raptun-fec/src/strategy.rs:134-161 | whatever the telemetry and the gain, the ratio stays in [min, max] |
| Strategy.RandomStep | crates/raptun-fec/src/strategy.rs:134-153 | under random loss the ratio goes toward loss times margin, truncated and clamped, by exactly the whole parts of the gain's share, and never past it |
| Strategy.QuietStep | crates/raptun-fec/src/strategy.rs:134-153 | in any other regime toward the floor, by the gain's share rounded up |
| Strategy.NeverRisesWithoutLoss | crates/raptun-fec/src/strategy.rs:116-153 | a run of updates without random loss never rises, falls until it is on the floor, and is there after as many updates as parts |
| Strategy.SilentForever | crates/raptun-core/src/run.rs:874-876 | a controller whose step toward a fixed target is too small to announce never announces again |
| Strategy.CongestedStep | crates/raptun-fec/src/strategy.rs:134-153 | at the default gain a congested step is announced if and only if the ratio is more than four points above the floor, and then lands no lower than three above it |
| Strategy.StaleUnderCongestion | crates/raptun-core/src/run.rs:874-876 | at the default gain, congestion announces nothing for good if and only if the ratio starts at most four points above the floor, which the controller reaches all the same |
| Strategy.LastAnnouncement | crates/raptun-core/src/run.rs:874-876 | from any higher start there is a last announcement, and it leaves the tunnels three to four points above the floor for good |
| Strategy.CountsAgree | crates/raptun-core/src/run.rs:839-848 | in exact arithmetic: the tunnels' repair count from parts per thousand and the strategy's from parts per million agree on every ratio the handshake carries, and those survive the conversion |
| Strategy.CountIsGreatest | crates/raptun-core/src/run.rs:839-848 | the tunnels' count is the greatest within the ratio, at least one, and none if and only if the ratio is zero |

## Left out

- RaptorQ (section 5 of RFC 6330) and the `raptorq` crate: external; two functions constrained by `Codec.Sound` and, for delivery only, `Codec.Fountain`.
- Quinn, TLS, endpoints, certificates, authentication, reconnecting, heartbeat logging: not part of this model.
- The `select!` scheduling, timers and bounded-channel overflow of `run_fec_tunnel`: steps of the tunnel happen in any order, times are parameters, and a signal once sent may arrive at any time, any number of times or never, which includes FIFO delivery and every drop.
- The stall guards of `run_fec_tunnel` (`TUNNEL_MAX_STALL`): they only end a tunnel.
- CLI, configuration merging, the monitor registry and display, the stress tools: plumbing.
- Control messages of the handshake and `StreamEncoder`: round trips easier than the signal codec's, off the data path.
- TunnelRuns.InOrderDelivery: holds while every symbol index is below 2^24 (`Tunnel.IndicesFit`), the range of the header field and of the codec's payload ids; the same goes for the other theorems of `TunnelRuns`, `Convergence.ReliableRecovery` and `LostRequests.DroppedRequestNotRetried`.
- Convergence.ReliableRecovery: asks that no missing block is stuck or past the retention window, because for those it fails (`Convergence.StrandedForever`, `LostRequests.DroppedRequestNotRetried`); the second is never so until the gate has abandoned its count often enough (`GateRetention.GatedRecovery`).
- Budget.RepairBudget.TryReserve: the sequential operation; the compare-and-swap loop and its interference are in `BudgetInterleaving`.
- SendWindows.SendWindow.Settle: the sequential operation; the interleaved steps are in `WindowInterleaving`.
- SendWindows.SendWindow.ObserveCwnd: without the compare-and-swap loop, and without the test-only constructor whose running minimum starts at the largest 64-bit number.
- WindowInterleaving.OvershootBounded: for a ceiling that does not change, which is what a window built by `new` has, and for a peer that sends a credit only when it has grown, which is what the receiver does (`crates/raptun-core/src/run.rs:1840,1895,1955`); the loads of `has_room` are one step.
- GateRetention.GateKeepsRetained: asks that sends find their slot below the window; that the gate sees to it is `WindowInterleaving.SlotBelowCeiling`, for a peer whose credits grow.
- GateRetention.UnanswerableArises: its stalls last ten seconds each and nothing is delivered meanwhile, so where more than about twelve are needed the stall guard, which is not modelled, ends this run first; the geometry that retains least needs three.
- Strategy.CountsAgree: in exact arithmetic; in binary floating point the conversion at `crates/raptun-fec/src/strategy.rs:34-41` loses one part per million at some ratios above 1000 thousandths, and the counts can then differ by one symbol (1025 thousandths, 40 symbols).
- Telemetry.StallWatchdog.Observe: rates, like every fraction in `Telemetry` and `Strategy`, are exact reals; rounding of binary floating point is not modelled.
- Block ids, counters and times are unbounded naturals, except where a cast, a wrap or a field width matters and is written out (`Budget.Ledger.Release`, `Geometry.ActualK`, the header, the repair counts).
- The interleavings are of atomic steps in one order; weaker memory orders are not modelled.
- `encode_blocks`, `manager_mut`, `live_blocks`, the diagnostic twin `diag_loss` and its rate limit: no behaviour of their own.
- The stream id and the repair flag of a symbol: carried and parsed in `Datagram` and used by `Hub`; a tunnel's state machine sees only its own stream.
