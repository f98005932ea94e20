# LuDLC: a verified model

LuDLC is a reliable link protocol: a go-back-N sliding window with negative
acknowledgements, a time-to-live after which a packet is given up and the ones
behind it take its number, a symmetric handshake, and streaming framings below.
This project models its engine, its deferred confirmation reporter, its framings,
its 16-bit checksums and the byte ring of the POSIX port, and proves what they
promise over every input, every run or every interleaving.

`dafny verify dfyconfig.toml` checks everything.

## How it is laid out

| file | what it holds |
|---|---|
| `Common.dfy` | octets, options, small sequence facts |
| `SeqNum.dfy` | arithmetic on IDs, and what it means for unbounded numbers |
| `Protocol.dfy` | one node, call by call, as functions on values |
| `Ring.dfy`, `Connection.dfy` | the connection object with its circular window; each method computes the function of `Protocol` |
| `Interface.dfy` | what each call answers and what becomes of each kind of frame, in terms of arguments and queue |
| `Attempts.dfy` | the attempts a packet gets, told by events, and that the octet and two flags kept of them agree |
| `NodeRuns.dfy`, `UrgentRuns.dfy` | what holds after every run of calls on one node, and of its unnumbered packets on the wire |
| `Handshake.dfy` | two ends reach CONNECTED from any states while frames arrive |
| `Link.dfy` | two nodes over channels that keep their order and lose frames |
| `Delivery.dfy` | in-order, exactly-once delivery |
| `Unnumbered.dfy` | what a lossy link does to unnumbered packets |
| `NakRules.dfy` | what a frame does to the NAK owed, in unbounded numbers |
| `GiveUpInvariant.dfy`, `GiveUp.dfy`, `GiveUpCorollaries.dfy` | giving a packet up is safe |
| `RepeatedNak.dfy`, `SettledRepeat.dfy` | why that needs its hypothesis: a run with a NAK repeated too early, and one with a NAK repeated however late |
| `Reporter.dfy` | deferred confirmations, threads interleaving at lock, atomic-bit and callback steps |
| `ReporterSlots.dfy`, `ReporterNotices.dfy`, `ReporterInvariant.dfy` | what each step keeps: the slots, the callbacks threads make themselves, and all of it |
| `ReporterRuns.dfy`, `ReporterExamples.dfy` | what every run of the reporter promises, and two runs step by step |
| `ReporterDecisions.dfy` | the deferred build decides what the inline build reports |
| `Checksum.dfy`, `Crc.dfy`, `CrcExact.dfy` | checksums as the framings use them; CRC-16/KERMIT and FCS-16; that nothing but a sealed message passes these |
| `Streams.dfy` | decoders as machines over streams |
| `Cobs.dfy`, `CobsEncoder.dfy`, `CobsDecoder.dfy`, `CobsExact.dfy` | COBS framing, and the verdict on every frame |
| `Hdlc.dfy`, `HdlcEncoder.dfy`, `HdlcDecoder.dfy`, `HdlcExact.dfy` | escaped framing, and the verdict on every frame |
| `Transfer.dfy` | both framings end to end |
| `Raw.dfy` | the decoder of frames a transport delimits |
| `Kfifo.dfy`, `KfifoRing.dfy` | the byte ring: two threads interleaving, and its copying calls |

## Modelling choices

- The engine is the build that reports confirmations inline. Each public call is one
  step; callbacks are listed in its report, in the order they are made, and do not
  call back in. The deferred build is the subject of the `Reporter` files alone.
- IDs and slots are masked in the program. Masking by a power of two is a remainder,
  written `Wrap` and defined by repeated subtraction; the theorems need only that
  the window divides the ID space and is at most half of it.
- Flags stored active-low (`NO_NAK`, `U_IDLE`, `U_DONE`) are kept so in the class and
  turned around in its abstract value.
- A request for a transmission is a hint to the transport, so turns may come at any
  time; timers and the watchdog are calls that may come at any time.
- The two-node theorems are about one session: from two nodes that are not connected,
  through the handshake, until a side disconnects. A node that is not connected has a
  fresh sequence by `NodeRuns.RunsAreGood`.
- A keep-alive PING may repeat a standing NAK. `Delivery` allows it always. `GiveUp`
  allows it in quiet (`GiveUp.Quiet`): no NAK of this side and no frame of its peer's is
  in flight, the peer has sent all it holds, and what this side saw is no further than
  what its peer holds. The ping period of doc/ludlc.md:460-468 is to ensure the first
  three (`GiveUp.AllSettled`): an answer to the NAK is then lost rather than late.
  `RepeatedNak` is a run in which a repeat comes too early: a packet reported given up
  arrives, and one reported delivered disappears. No ping period ensures the fourth
  (`GiveUp.SeenIsHeld`); `SettledRepeat` is a run that fails on it alone.
- `Reporter` excludes frames sent or taken, and unnumbered packets accepted, while a
  disconnect sweep is still being reported (`LUDLC_CONN_BUS_OUT_F`).
- The stream theorems of the framings assume the residual law of the checksum, which
  `Crc` proves for the two 16-bit algorithms.

## What the code does otherwise than it says

- The framing interface promises that a decoder has consumed the octet that completed
  a packet (src/lib/include/ludlc_framing.h:505-519); the COBS decoder returns the
  index of the delimiter and leaves it to be seen again (src/lib/ludlc_cobs.c:496-503).
  The model follows the code, and `CobsDecoder.PacketTaken` shows that the second
  sight of the delimiter yields nothing.
- The length COBS announces can exceed the room it reserves for its largest frame;
  `Cobs.AnnouncementFits` gives the exact sizes, of which 507 is the first to misfit.
- A long enough ping time is said to make the repeat of a NAK safe
  (doc/ludlc.md:460-468, src/lib/ludlc.c:900-901). It does not: a give-up can take the
  sender's numbers below what the receiver saw, and the next packet then reads as a new
  pass and raises a second NAK (`SettledRepeat.NextReadsAsNewPass`, for every state, and
  exactly then). In `SettledRepeat.SettledRepeatDelivers` both channels are empty and the
  sender has sent all it holds when the NAK is repeated, and in the end a packet
  confirmed as timed out is delivered.
- An unnumbered packet accepted while a DISCONNECT is marked is never confirmed, and
  one accepted otherwise is confirmed once (`ReporterRuns.UrgentConfirmedIffUnmarked`,
  `ReporterRuns.MarkedNeverDecided`). Between the unlock and the sweep of
  `ludlc_get_packet_to_send` the slot is free and still marked, so one can be accepted
  and then swept, replaced or taken for the DISCONNECT in silence
  (`ReporterExamples.UnconfirmedRun`). With calls as single steps there is no such gap.
- The callback of a given-up packet is meant to follow those decided before it
  (src/lib/ludlc.c:1269-1271). It does when its thread found the busy bit clear
  (`ReporterRuns.GiveUpFollows`); a thread that finds the bit set, with one of them
  still to be made, can overtake it (`ReporterRuns.GiveUpOvertakes`,
  `ReporterExamples.OvertakingRun`).

## Model

| member | source | states |
|---|---|---|
| `GiveUp.GiveUpIsSafe` | src/lib/ludlc.c:885-959 | in every run that repeats NAKs only in quiet, what a side delivered is exactly what the peer was told succeeded, in order, followed by the first packets of its window; what was accepted is what was resolved, in order, and the window |
| `GiveUpCorollaries.GivenUpNeverDelivered` | doc/ludlc.md:451-458 | for distinct packets, one confirmed as timed out is in no delivered sequence, one confirmed as success is in it, and nothing is delivered twice |
| `GiveUp.RunSafe` | src/lib/ludlc.c:872-883 | the epoch invariant holds in every state of every such run: at most one NAK in flight, its frames of the current pass, every number in flight exact |
| `GiveUp.DeliverSafe` | src/lib/ludlc.c:1146-1207 | a frame taken, with its ACK, NAK and place in the sequence, keeps the invariant in both directions |
| `GiveUp.TransmitSafe` | src/lib/ludlc.c:1356-1553 | a turn of the transmitter, with a NAK repeated in quiet or not, keeps the invariant |
| `GiveUp.Resynchronised` | src/lib/ludlc.c:1487-1499 | in quiet a side may be taken to have seen its peer's current epoch, so a repeated NAK is as good as the first |
| `Link.RunContinues` | src/lib/ludlc.c:1227-1553 | every possible move that does not end the session continues every run |
| `GiveUp.SenderAccounts` | src/lib/ludlc.c:977-1032 | an ACK that may run past the last packet sent, and a NAK that gives the first packet up, leave the ledger of accepted, confirmed and delivered packets balanced |
| `GiveUp.AnswerIsCurrent` | src/lib/ludlc.c:1009-1015 | an ACK that covers the packet a NAK is tracked by was sent after the NAK was handled or lost |
| `GiveUpInvariant.PlaceExact` | src/lib/ludlc.c:1158-1204 | the masked comparisons place every frame that can be in flight, numbered or not, as unbounded numbers would |
| `RepeatedNak.RepeatLosesPackets` | src/lib/ludlc.c:1500-1505 | a concrete run with one early repeat: the packet confirmed as timed out is delivered, the packet confirmed as success is not |
| `SettledRepeat.SettledRepeatDelivers` | doc/ludlc.md:460-468 | a concrete run whose only repeat comes with nothing in flight and everything sent: three packets confirmed as timed out, the last of them delivered |
| `SettledRepeat.RepeatIsSettled` | doc/ludlc.md:460-468 | that repeat meets every condition of quiet but the last, that what was seen is no further than what the peer holds |
| `SettledRepeat.NextReadsAsNewPass` | src/lib/ludlc.c:1188-1197 | in every state in which a side misses a packet its peer holds, the next packet reads as a new pass if and only if what the side saw is further than what its peer held |
| `Delivery.DeliveredInOrder` | src/lib/ludlc.c:1154-1207 | in every run over lossy ordered channels in which no packet was given up, repeats allowed, the delivered sequence is a prefix of the accepted one, the confirmed a prefix of the delivered, and the window is exactly the unconfirmed rest |
| `Delivery.ExpectedExact` | src/lib/ludlc.c:1154-1184 | the masked test for the next packet is true of a number in flight exactly when it is the next |
| `Delivery.AckExact` | src/lib/ludlc.c:977-1000 | the masked count of an ACK is the number of packets it newly covers, never beyond the queue |
| `Delivery.StepInOrder` | src/lib/ludlc.c:1413-1486 | every step of either side keeps the numbers of frames in flight within a window of the receiver and their payloads equal to the accepted packets |
| `Unnumbered.HandedInOrder` | src/lib/ludlc.c:1172-1179 | in every run over lossy channels, the unnumbered packets handed up and after them those in flight are the ones put on the wire, in order and each at most once, less exactly as many as frames lost or finding no session took along; all of them if none was |
| `Unnumbered.RunFlows` | src/lib/ludlc.c:1413-1436 | in every run each step adds to those packets exactly what it puts on the wire, or leaves out exactly the packet of the frame it loses, or changes nothing |
| `Unnumbered.HandedUp` | src/lib/ludlc.c:1277-1286 | an unnumbered frame with a payload that ends no session hands up exactly its packet, once, if it finds a session, and delivers nothing in sequence |
| `NakRules.AfterNumbered` | src/lib/ludlc.c:1180-1204 | for every number a frame can hold: the next one clears the NAK, one received before answers it, one ahead raises a NAK unless one stands unanswered and the peer has not gone back |
| `NakRules.AfterPing` | src/lib/ludlc.c:1158-1179 | the same for a frame outside the sequence, which holds the number sent next; half an ID space away counts as lost |
| `Handshake.LinkComesUp` | src/lib/ludlc.c:753-821 | from any two states, whatever is queued, any four exchanges of frames, in turn or at once, leave both ends connected, each told of exactly its peer's capabilities once and once that the link is up |
| `Handshake.FreshLinkComesUp` | src/lib/ludlc.c:753-821 | two ends just started take three |
| `Handshake.HearsPhase` | src/lib/ludlc.c:1386-1412 | the state an end is in after a frame of a peer in any state, and that the capabilities announced by then are the peer's |
| `Interface.EnqueueAnswers` | src/lib/ludlc.c:504-566 | a call is refused for its arguments alone, or held back by a full window that would take it empty; otherwise the packet is last in the window, good for the copies asked for, at least one and at most 127 |
| `Interface.SendUrgentAnswers` | src/lib/ludlc.c:596-635 | each answer with its condition: never empty, a link that is up, one at a time |
| `Interface.SendDisconnectAnswers` | src/lib/ludlc.c:640-695 | each answer with its condition, and who is told what |
| `Interface.DropsWhole` | src/lib/ludlc.c:1072-1090 | a numbered frame without a channel, and one with the reserved channel under a tag, change nothing in any state |
| `Interface.EndsSession` | src/lib/ludlc.c:1119-1144 | the peer's DISCONNECT, and a step of a peer that started over, fail everything outstanding in order and take the link down |
| `Interface.LastStepAgain` | src/lib/ludlc.c:1136-1144 | the last handshake step repeated changes nothing |
| `Interface.TakesInSession` | src/lib/ludlc.c:1146-1207 | every other frame leaves the link up, and hands up its packet if it is the next numbered one, or not numbered and not empty |
| `Interface.TurnSays` | src/lib/ludlc.c:1413-1519 | every field of a frame of a session, when it carries a NAK, and that the turn says it is the last exactly when all that is queued has gone out |
| `Interface.StepSays` | src/lib/ludlc.c:1386-1412 | the frame of each handshake state, and that a turn that leaves a session hands out none |
| `NodeRuns.RunsAreGood` | src/lib/ludlc.c:415-481 | after every run of calls and received frames: last_ack, last_sent, last_queued and last_ack plus the window are in modular order; accepted packets are the confirmed ones, in order, and the window; the same for unnumbered packets; the slot never waits and flies at once; a node not connected has a fresh sequence; one capabilities event precedes a connection; NAK flags are consistent and fresh NAKs alternate with answers; the TTLs and their two flags keep the account of the attempts |
| `NodeRuns.ConservedStep` | src/lib/ludlc.c:536-560 | each call moves packets from the accepted end of the window to the confirmed log and loses none, whether by ACK, expiry or disconnect |
| `NodeRuns.TakeConserves` | src/lib/ludlc.c:1266-1271 | the confirmations of one received frame, the given-up packet last, are the front of the window it leaves |
| `NodeRuns.UrgentStep` | src/lib/ludlc.c:437-454 | each accepted unnumbered packet is confirmed once as sent, broken or cancelled, the DISCONNECT never |
| `NodeRuns.FreshStep` | src/lib/ludlc.c:753-821 | through each call, exactly one capabilities report lies between DISCONNECTED and WAIT_CONN_2, and every state but CONNECTED has all counters at zero; that CONNECTED is reached is `Handshake.LinkComesUp` |
| `NodeRuns.NakStep` | src/lib/ludlc.c:1500-1519 | a pending and a standing NAK never coexist, a standing one is tracked by the first numbered packet that went out with or after it, whose ID is within a window of the last ACK, and between two fresh NAKs the peer was seen answering |
| `NodeRuns.AccountStep` | src/lib/ludlc.c:1467-1476 | each call keeps the TTLs in step with an account of events: frames sent, ACK fields taken, TTLs asked for |
| `NodeRuns.ExpiredStep` | src/lib/ludlc.c:1266-1271 | the packets reported given up are, in order, those whose account has closed |
| `NodeRuns.GivenUpHadItsAttempts` | src/lib/ludlc.c:885-909 | in every run a packet given up was charged as often as its caller asked, 1 for 0 and 127 for more, each time for a copy of its own, and went out once more if its first copy followed a give-up that emptied the window |
| `NodeRuns.QueuedKeepsItsAttempts` | src/lib/ludlc.c:530-549 | in every run what a queued packet has left and its charges are what its caller asked for, by the same bounds, and no charge is for a spared copy |
| `Attempts.MissedKept` | src/lib/ludlc.c:920-959 | a NAK charges the first packet exactly if a copy of it went out since the last NAK other than the one it is spared, and gives it up exactly when all its attempts are paid for |
| `Attempts.CopiedKept` | src/lib/ludlc.c:1467-1476 | a packet sent counts a copy, and is spared it if it is the first since a give-up emptied the window |
| `Attempts.CoveredKept` | src/lib/ludlc.c:1000-1032 | acknowledged packets take their account along, also those sent again or not yet |
| `UrgentRuns.RunsTell` | src/lib/ludlc.c:1356-1436 | in every run each packet confirmed as sent is the body of the frame before, each caller's packet carried is settled next, and a turn leaves a session only behind its DISCONNECT |
| `UrgentRuns.SuccessWasCarried` | src/lib/ludlc.c:1417-1436 | a packet is confirmed as sent right after a frame whose body it is |
| `UrgentRuns.CarriedIsTold` | src/lib/ludlc.c:1525-1534 | a caller's packet in a frame is confirmed before anything else is told or carried, or fails with its session |
| `UrgentRuns.LeavingFollowsFarewell` | src/lib/ludlc.c:1370-1377 | a turn that ends the session follows a frame with the DISCONNECT |
| `UrgentRuns.WaitingGoesOut` | src/lib/ludlc.c:1413-1436 | in every state of every run a waiting packet is the body of the next frame, and the turn after settles it, by confirming it or by leaving |
| `NodeRuns.RunContinues` | src/lib/ludlc.c:1227-1289 | every call continues every run |
| `ConnectionModel.Connection.Enqueue` | src/lib/ludlc.c:504-566 | computes the specification `Interface.EnqueueAnswers` is about; the window the ring holds grows by the packet with its TTL, asked for or bounded, exactly if the call succeeds |
| `ConnectionModel.Connection.SendUrgent` | src/lib/ludlc.c:596-635 | takes the unnumbered slot if it is free on a live link, with the source's error codes |
| `ConnectionModel.Connection.SendDisconnect` | src/lib/ludlc.c:640-695 | replaces a waiting unnumbered packet by the core's DISCONNECT and reports the replaced one as cancelled |
| `ConnectionModel.Connection.OnDisconnect` | src/lib/ludlc.c:415-481 | fails the slot and every packet of the window in order, and resets flags and sequence |
| `ConnectionModel.Connection.Connect` | src/lib/ludlc.c:700-728 | the same sweep, to start over |
| `ConnectionModel.Connection.HandleDisconnect` | src/lib/ludlc.c:1608-1647 | sweeps once, and does nothing on a node already disconnected |
| `ConnectionModel.Connection.HandleNak` | src/lib/ludlc.c:920-959 | charges or gives up the first packet; giving up drops the head of the sequence the ring holds |
| `ConnectionModel.Connection.MoveUp` | src/lib/ludlc.c:942-950 | the in-place shift across the wrap leaves the window without its first packet |
| `ConnectionModel.Connection.HandleAck` | src/lib/ludlc.c:977-1032 | drops the acknowledged front of the window, confirms it in order, and handles the NAK behind it; an ACK too far changes nothing |
| `ConnectionModel.Connection.HandleSequence` | src/lib/ludlc.c:1154-1207 | where the frame falls, what is received, and what becomes of a standing NAK |
| `ConnectionModel.Connection.Gap` | src/lib/ludlc.c:872-883 | a gap is reported once until the peer is seen answering |
| `ConnectionModel.Connection.Receive` | src/lib/ludlc.c:1060-1289 | computes, in place, the specification the theorems on runs are about; what becomes of each frame is `Interface.TakesInSession`, `Interface.EndsSession`, `Interface.DropsWhole` and `Handshake.HearsPhase` |
| `ConnectionModel.Connection.NextFrame` | src/lib/ludlc.c:1333-1553 | computes, in place, the specification the theorems on runs are about; what its frame holds is `Interface.TurnSays` and `Interface.StepSays`, what it confirms `UrgentRuns.RunsTell` |
| `ConnectionModel.Connection.AddNak` | src/lib/ludlc.c:1500-1519 | which frames carry a NAK, and which packet tracks it |
| `Ring.SlotsDiffer` | src/lib/ludlc.c:542-554 | packets of one window never share a slot, wrapped or not |
| `Ring.HeldStore` | src/lib/ludlc.c:542-554 | storing at the masked next ID appends to the sequence the ring holds |
| `Ring.HeldDrop` | src/lib/ludlc.c:1000-1007 | moving last_ack up one drops the first packet |
| `Ring.HeldMoveUp` | src/lib/ludlc.c:944-947 | one move of the shift advances the boundary between moved and unmoved packets |
| `SeqNum.WrapIsRemainder` | src/include/ludlc_proto.h:105-114 | masking leaves a remainder by the modulus |
| `SeqNum.WrapDist` | src/include/ludlc_proto.h:105-114 | within one turn of the ID space the masked difference is the difference of the numbers |
| `SeqNum.WrapBehind` | src/include/ludlc_proto.h:105-114 | a number behind shows as almost a turn ahead |
| `ReporterRuns.ReportedOnceInOrder` | src/lib/ludlc.c:298-360 | for any number of threads and any interleaving: the accepted packets are those decided on, given-up ones included, in order, and those in unresolved slots; the reporter's callbacks are a prefix of its decisions; every other callback is for a decision of its own, no two for one, those of a thread in order; when no thread is inside, everything is reported, each given-up and each sent packet by exactly one callback, and the queue is open |
| `ReporterRuns.GiveUpFollows` | src/lib/ludlc.c:1266-1271 | a thread that found the busy bit clear makes the callback of its given-up packet after every confirmation decided before |
| `ReporterRuns.GiveUpOvertakes` | src/lib/ludlc.c:298-305 | from every state in which it finds the bit set and one of those is unmade, its next two steps make that callback first |
| `ReporterRuns.SureFollows` | src/lib/ludlc.c:1266-1271 | a callback of a given-up packet made by a thread that found the bit clear, or everything before it reported, has all earlier decisions of the reporter behind it |
| `ReporterRuns.OneReceiverInOrder` | src/lib/ludlc.c:1266-1271 | if one thread receives, given-up packets are told of in the order they were given up |
| `ReporterExamples.OvertakingRun` | src/lib/ludlc.c:1266-1271 | a whole run from the start in which a given-up packet is confirmed before one acknowledged earlier |
| `ReporterRuns.UrgentConfirmedIffUnmarked` | src/lib/ludlc.c:437-454 | in every state of every run, of the unnumbered packets accepted exactly those accepted while no DISCONNECT was marked are decided on, in order, or held |
| `ReporterRuns.UrgentsConserved` | src/lib/ludlc.c:596-635 | if none is accepted while one is marked, the accepted are the decided, in order, and the one held |
| `ReporterRuns.MarkedNeverDecided` | src/lib/ludlc.c:1370-1377 | a packet accepted while one is marked is decided on in no state of any continuation |
| `ReporterExamples.UnconfirmedRun` | src/lib/ludlc.c:1370-1377 | a whole run that ends at rest with an accepted unnumbered packet neither confirmed nor held |
| `ReporterExamples.ReplacedInSilence` | src/lib/ludlc.c:658-684 | a DISCONNECT replaces such a packet without a confirmation |
| `ReporterInvariant.StepKeeps` | src/lib/ludlc.c:220-242 | every critical section, bit operation and callback keeps: one reporter while the busy bit is set, slots hold exactly the uncopied decisions and then the unresolved packets, every given-up or sent packet is told of or about to be, and something pending always has a thread that will see it |
| `ReporterInvariant.NothingLeft` | src/lib/ludlc.c:334-346 | a reporter that finds nothing to copy has reported everything decided |
| `ReporterNotices.NoticeAdds` | src/lib/ludlc.c:935-953 | a new give-up is owed by the thread that decided it and by no other |
| `ReporterNotices.TellKeeps` | src/lib/ludlc.c:1269-1271 | making the callback moves it from owed to told, once |
| `ReporterSlots.CopyHolds` | src/lib/ludlc.c:322-329 | the copying loop reads the pending slots in sequence order |
| `ReporterSlots.EnqueueHolds` | src/lib/ludlc.c:175-184 | a slot is not reused before its packet was copied |
| `ReporterSlots.GiveUpHolds` | src/lib/ludlc.c:935-950 | giving up moves only unresolved slots, none that is pending |
| `ReporterSlots.ResetHolds` | src/lib/ludlc.c:220-242 | the reset after a sweep finds every slot free |
| `ReporterRuns.BusyTestSays` | src/lib/ludlc.c:298-305 | a thread that finds the busy bit set is sure exactly if what was decided before its give-up has been reported |
| `ReporterRuns.UnnumberedFirst` | src/lib/ludlc.c:334-346 | a pass confirms an unnumbered packet before the slots it copied |
| `ReporterDecisions.SweepAgrees` | src/lib/ludlc.c:415-481 | a sweep under the lock decides, packet by packet and result by result, what the inline build reports |
| `ReporterDecisions.SendDisconnectAgrees` | src/lib/ludlc.c:640-695 | so does a DISCONNECT that replaces a waiting packet |
| `ReporterDecisions.TransmitAgrees` | src/lib/ludlc.c:1356-1369 | so does a turn of the transmitter |
| `ReporterDecisions.AckAgrees` | src/lib/ludlc.c:977-1032 | so does an ACK field, its given-up packet last, and the same packets are left |
| `ReporterDecisions.EnqueueAgrees` | src/lib/ludlc.c:160-184 | a packet the inline build takes is taken unless a sweep is being reported or resolved packets fill the slots |
| `ReporterDecisions.SendUrgentAgrees` | src/lib/ludlc.c:596-635 | an unnumbered packet is taken exactly if the inline build takes it |
| `ReporterRuns.RunContinues` | src/lib/ludlc.c:298-360 | every enabled step continues every run |
| `Cobs.EncodedHasNoZero` | src/lib/include/ludlc_cobs.h:34-46 | no octet before the delimiter is zero |
| `Cobs.EncodedLength` | src/lib/include/ludlc_cobs.h:64-65 | n octets encode to more than n and, with the delimiter, at most n + n/254 + 2 |
| `Cobs.AnnouncedLengthSuffices` | src/lib/ludlc_cobs.c:535-556 | the announced length is never below the encoded one, except for nothing at all |
| `Cobs.AnnouncementFits` | src/lib/include/ludlc_cobs.h:64-65 | the announced length is within the reserved room if and only if n/254 + n mod 254 is below 254 |
| `Cobs.FirstMisfit` | src/lib/ludlc_cobs.c:541-555 | 507 is the first size for which it is not |
| `CobsEncoder.Encoder.Fill` | src/lib/ludlc_cobs.c:248-425 | whatever room a call has, it writes the front of what is owed and owes the rest, and stops only when the room is used or the frame is out |
| `CobsEncoder.Encoder.FillAll` | src/lib/ludlc_cobs.c:248-425 | over any sequence of buffers the output is the frame as far as they have room |
| `CobsEncoder.Encoder.Prep` | src/lib/ludlc_cobs.c:227-241 | what is owed for a packet is the COBS encoding of header, payload and low-octet-first checksum, and one delimiter; nothing without a header |
| `CobsEncoder.Encoder.Scan` | src/lib/ludlc_cobs.c:281-336 | the scan ahead finds the group the specification starts with and folds each body octet it passes once |
| `CobsEncoder.Encoder.CloseGroup` | src/lib/ludlc_cobs.c:384-417 | another group follows exactly when a zero was swallowed or a full group leaves something |
| `CobsEncoder.GroupOpens` | src/lib/ludlc_cobs.c:327-336 | code octet, group and what follows are the encoding of what is left |
| `CobsDecoder.StreamRoundTrip` | src/lib/ludlc_cobs.c:445-517 | any list of frames that fit, with any zero padding, decodes to exactly those packets in order |
| `CobsDecoder.Resynchronises` | src/lib/ludlc_cobs.c:479-513 | from any decoder state, one delimiter brings it in step |
| `CobsDecoder.DecodesEncoded` | src/lib/ludlc_cobs.c:454-477 | reading an encoded message gathers that message, behind a zero that was pending |
| `Streams.StreamSplits` | src/lib/ludlc_cobs.c:445-517 | state and packets of a decoder do not depend on where a stream is cut |
| `CobsDecoder.Decoder.StoreByte` | src/lib/ludlc_cobs.c:195-209 | stores below the capacity only, or marks the frame as too long |
| `CobsDecoder.Decoder.Feed` | src/lib/ludlc_cobs.c:445-517 | does what the automaton does on any octets, touches nothing above the capacity, and stops at the delimiter of a packet without consuming it |
| `CobsDecoder.PacketTaken` | src/lib/ludlc_cobs.c:496-503 | the delimiter seen again after preparation yields nothing more |
| `CobsDecoder.Decoder.Receive` | src/lib/platform/posix/ludlc_posix_serial.c:497-525 | the receive loop yields the packets of the stream it read |
| `CobsDecoder.Decoder.ReceiveAll` | src/lib/platform/posix/ludlc_posix_serial.c:480-525 | reads of any sizes yield what one read would |
| `CobsExact.JudgesEveryFrame` | src/lib/ludlc_cobs.c:479-513 | for all octets between two delimiters: a packet comes out if and only if they decode to a message with no group cut short that fits the buffer, is long enough and passes the checksum |
| `CobsExact.YieldsOnlySealed` | src/lib/ludlc_cobs.c:488-513 | with a checksum that seals exactly, a packet comes out if and only if the octets decode to that packet sealed |
| `CobsExact.DecodeUndoes` | src/lib/include/ludlc_cobs.h:34-46 | decoding a whole encoding gives the message |
| `Hdlc.FlipIsXor` | src/lib/include/ludlc_hdlc.h:44-60 | an escaped octet differs by the mask 0x20, bit for bit |
| `Hdlc.MarksMustDiffer` | src/lib/include/ludlc_hdlc.h:30-60 | no escaped frame contains the boundary octet, if and only if boundary and escape differ and the masked escape is not the boundary |
| `Hdlc.FrameLength` | src/lib/ludlc_hdlc.c:180-295 | a frame is longer than its body and checksum and at most twice that and two |
| `HdlcEncoder.Encoder.Fill` | src/lib/ludlc_hdlc.c:180-295 | writes the front of what is owed, whatever room a call has; with a size and no header it writes boundaries only, fills all the room and stays busy |
| `HdlcEncoder.Encoder.FillAll` | src/lib/ludlc_hdlc.c:180-295 | over any sequence of buffers the output is the frame as far as they have room; with room to spare the encoder ends up idle if and only if it is not stuck |
| `HdlcEncoder.Encoder.Prep` | src/lib/ludlc_hdlc.c:154-171 | what is owed is a boundary, the escaped header, payload and checksum, and a closing boundary if asked for; the encoder is stuck if and only if there is a size and no header |
| `HdlcDecoder.StreamRoundTrip` | src/lib/ludlc_hdlc.c:328-415 | from any decoder state, any list of frames that fit, padded with boundaries or not, boundaries shared or not and the last one closed, yields exactly those packets behind at most the one that was in progress |
| `HdlcDecoder.StreamDecodes` | doc/ludlc.md:703-720 | without a closing boundary the last packet waits for the next one |
| `HdlcDecoder.EscapedRead` | src/lib/ludlc_hdlc.c:381-407 | reading an escaped message gathers that message |
| `HdlcDecoder.Decoder.Feed` | src/lib/ludlc_hdlc.c:328-415 | does what the automaton does on any octets, touches nothing above the capacity, and consumes the boundary that completes a packet |
| `HdlcDecoder.Decoder.ReceiveAll` | src/lib/platform/posix/ludlc_posix_serial.c:480-525 | reads of any sizes yield what one read would |
| `HdlcExact.JudgesEveryFrame` | src/lib/ludlc_hdlc.c:328-415 | for all octets between two boundaries: a packet comes out if and only if the message they stand for fits the buffer, is long enough and passes the checksum |
| `HdlcExact.YieldsOnlySealed` | src/lib/ludlc_hdlc.c:340-379 | with a checksum that seals exactly, a packet comes out if and only if the octets stand for that packet sealed |
| `HdlcExact.UnescapeUndoes` | src/lib/ludlc_hdlc.c:381-407 | undoing the escapes of an escaped message gives the message |
| `Transfer.CobsTransfer` | src/lib/platform/posix/ludlc_posix_serial.c:464-532 | packets filled into buffers of any sizes and received in reads of any sizes come back, all of them and in order |
| `Transfer.HdlcTransfer` | src/lib/platform/posix/ludlc_posix_serial.c:464-532 | the same over the escaped framing, the last frame closed |
| `Checksum.SumAppend` | src/lib/include/ludlc_private.h:599-624 | folding is the same in one go or in parts |
| `Crc.CrcByte` | src/lib/platform/posix/ludlc_posix_serial.c:905-914 | the eight-turn loop computes the step the laws are about |
| `Crc.KermitResidual` | src/lib/platform/posix/ludlc_posix_serial.c:905-920 | every message and its CRC-16/KERMIT, low octet first, leave 0 |
| `Crc.FcsResidual` | src/lib/platform/linux/ludlc_csum.c:61-101 | every message and its complemented FCS-16 (section C.2 of RFC 1662) leave 0xf0b8 |
| `Crc.KermitCheckValue` | src/lib/platform/posix/ludlc_posix_serial.c:900-920 | of the digits 1 to 9 the published check value, 0x2189 |
| `Crc.FcsCheckValue` | src/lib/platform/linux/ludlc_csum.c:80-101 | the published check value of CRC-16/X-25, which the FCS-16 is, 0x906e |
| `CrcExact.BothExact` | src/include/ludlc_proto.h:430-438 | what leaves the residual, of either checksum, is a message and its own checksum, and nothing else |
| `Crc.OneChangeIsSeen` | src/include/ludlc_proto.h:430-438 | an intact frame changed in one octet, anywhere, is not intact |
| `Crc.BothReversible` | src/lib/platform/posix/ludlc_posix_serial.c:905-914 | the step loses neither the register nor the octet |
| `Raw.Decoder.Feed` | src/lib/ludlc_raw.c:279-329 | gathers up to the announced length and delivers there exactly an intact frame of legal size |
| `Raw.Decoder.FeedAll` | src/lib/ludlc_raw.c:279-329 | in pieces of any sizes, likewise |
| `Raw.SealedIsDelivered` | src/lib/ludlc_raw.c:310-325 | a frame its sender sealed is delivered as its body |
| `Raw.OnlySealedIsDelivered` | src/lib/ludlc_raw.c:310-325 | a frame is delivered if and only if it is long enough and the rest of it, sealed |
| `Raw.SixteenBitExactly` | src/lib/ludlc_raw.c:310-325 | that holds of the two 16-bit checksums |
| `Raw.ChangedIsNotDelivered` | src/lib/ludlc_raw.c:310-325 | a frame of any length changed in one octet is never delivered |
| `Raw.SixteenBitFrames` | src/lib/platform/linux/ludlc_csum.c:80-101 | both hold of the two 16-bit checksums |
| `Kfifo.ReadsWhatWasWritten` | src/lib/platform/posix/kfifo.h:109-310 | in every interleaving of one producer and one consumer, every octet fetched is the one written at its position, also when others were released unread; the fill level never exceeds the size, and the wrapped index difference is that level |
| `Kfifo.InOrderReadsPrefix` | src/lib/platform/posix/kfifo.h:164-220 | a consumer that fetches in order, as the copying calls do, has read a prefix of what was written |
| `Kfifo.ClaimsFit` | src/lib/platform/posix/kfifo.h:236-310 | in every interleaving a claim is granted exactly if the stream has that much room, or that much was published when the consumer looked |
| `Kfifo.ClaimMissesUnread` | src/lib/platform/posix/kfifo.h:236-264 | an outstanding write claim never overlaps an octet not yet released |
| `Kfifo.StepKeeps` | src/lib/platform/posix/kfifo.h:236-310 | each load or store keeps the indices, the contents and both claims in step with unbounded positions |
| `Kfifo.FetchKeeps` | src/lib/platform/posix/kfifo.h:164-182 | an octet fetched is the one written at that position |
| `Kfifo.PlaceIs` | src/lib/platform/posix/kfifo.h:109-127 | wrapping by the index range and then by the size finds the place of the unbounded position |
| `KfifoRing.ByteRing.In` | src/lib/platform/posix/kfifo.h:134-154 | the copy in two parts appends as much as fits |
| `KfifoRing.ByteRing.Out` | src/lib/platform/posix/kfifo.h:193-220 | the copy in two parts takes the oldest octets |

## Left out

- Linux bus, configfs, serdev and SPI drivers, Zephyr transports and the SPI exchange loops: plumbing over code that is not part of this model.
- Timers, the watchdog, timestamps and ping periods: a keep-alive and an expiry may come at any time.
- `LUDLC_STATE_TERMINATE`, creation, destruction, allocation and static pools.
- Transmission requests and the return flags of the receive path: hints to a transport.
- Runs across several sessions of two nodes: frames of one session arriving in the next.
- Re-entrant callbacks, and calls overlapping on one node in the inline build.
- Channel tags, configuration defaults, statistics, logging, the demo and the samples.
- Memory ordering of the byte ring below sequential consistency: a load sees the last store.
- The raw encoder and the CRCs of other widths: they would add no harder claim.
- COBS delimiters other than zero.
- Checksum register widths: a register is the type the algorithm computes in.
- ReporterRuns.GiveUpFollows: with several receiving threads, give-ups of different threads are not ordered among themselves.
- ReporterInvariant.StepKeeps: an ACK is taken for what it newly covers; counting it is `ConnectionModel.Connection.HandleAck`'s.
- GiveUp.GiveUpIsSafe: one way only; a run with a repeat that is not in quiet may satisfy it too, for instance when no TTL is near its end.
- CobsEncoder.Encoder.SendSome: the re-arming of an exhausted checksum inside a group (src/lib/ludlc_cobs.c:350-357) cannot be reached and has no counterpart.
- Handshake.LinkComesUp: exchanges in which no frame is lost; what came before them may have lost any.
- RepeatedNak.RepeatLosesPackets: a single run, with four IDs and a window of two; so is SettledRepeat.SettledRepeatDelivers.
