# A verified model of the stream transport and the relay above it

This project models, in Dafny, the protocol logic of a networking stack and proves what it is for. `dafny verify dfyconfig.toml` checks everything.

**The transport.** Applications queue byte buffers on numbered streams. The sender cuts them into fragments of at most 1350 bytes, gives every transmission a fresh packet number, and keeps each fragment as in flight, lost or acked until its stream's acked prefix has passed it. The receiver reassembles slices that arrive in any order and remembers the packet numbers it accepted as alternating runs of seen and unseen numbers, which it sends back. `Delivery` puts one sender and one receiver around a network that may lose, delay, reorder and repeat every datagram ever sent in either direction. `EndToEnd` holds the results about all runs: what is delivered is a prefix of what was sent, what is acked or handed back was delivered, every unacked byte has exactly one holder, an idle sender means complete delivery, the flight counters equal the sums they stand for, nothing outstanding is ever left without a timer, and a timer that fires makes the sender transmit. `Loss` and `Pacing` say exactly which packets an ACK or a probe declares lost, what that does to the window, and when a pacing tick may stop.

**The connection.** `Handshake` has the reactions to DIAL, DIALCONF, CONF, DATA and RST in every connection state, with simultaneous open, timers, close and reset. `Agreement` runs two such endpoints against each other, with every datagram of every earlier attempt still in the network, and proves that endpoints Established at the same time hold mirrored ids. `Reactions` fixes what an endpoint answers and ignores. `Recovery` says from which reachable states they can still be connected.

**Framing and relay.** `Framing` has the two incremental parsers of length-prefixed messages and proves that the one that passes bytes through refines the one that stores whole messages. `MessageDelivery` composes the framing with the transport. `Relay`, `Witness` and `PubSub` model the relaying of a published message: its layout, the Bloom filter in which every hop leaves its key, and cut-through forwarding, which emits the bytes that store-and-forward would. `Dedup` is the ring of 256 buckets of recent ids, `Flood` the spreading of ids through a network of nodes with such rings.

**Compression.** `Compression` is the block encoder that replaces cached transactions by their ids, with its decoder; `Blocks` says which inputs the decoder accepts.

## How the model is built

Most handlers are written twice. A class has the handler in the form the program gives it, with loops over mutable fields and arrays (`AckRanges`, `Transport.StreamTransport`, `Receiving.Receiver` and its `RecvStream`s, `Handshake.Connection`, the two parser buffers, `PubSubNode`, `BloomWitnesser`, `BlockCompressor`). A function on values says what the handler does in one step, and a method's contract equates the new state, its results and its output with that function of the old state (for the run list, with the relation `Recorded`, which `RecordedDetermines` shows to fix the list). The protocol results are lemmas about the functions, over all runs.

| file | content |
|---|---|
| Bytes | integer fields, slices, writing in place |
| AckRanges | the run list of seen packet numbers, its denotation, and the class |
| Messages | layouts of DATA and ACK |
| Sending, Transport | sender on values; sender as a class |
| Tiling, TilingSteps, AckSteps, SendingRuns, AckRuns | the partition invariant and its preservation by every step |
| Receiving | reassembly, on values and as a class |
| Flight, Scheduling | flight counters, window, queue and timers |
| Loss, Pacing | which packets are lost, the window; what a pacing tick achieves |
| Progress | a probe followed by a pacing tick transmits |
| Delivery, EndToEnd | two endpoints and a network; the results about runs |
| Dangling | what empty buffers do to the send iterator |
| Handshake, Reactions | the handshake of one endpoint; what it answers and ignores |
| Agreement, Recovery | two endpoints and a network; getting connected from any state |
| Trace, Framing, MessageDelivery | starts, chunks and ends of messages; the two parsers; messages over the transport |
| Witness, Relay, PubSub, Dedup, Flood | the relay |
| Compression, Blocks | the block compressor; what its decoder accepts |

Conventions: a data item is named by its ordinal in its stream's queue instead of a list node; an item whose buffer has been handed back keeps its ordinal. A packet carries its packet number as its key. Ordered maps are iterated in ascending order of their keys. Times and random ids are parameters. A collaborator's outcome (whether a sealed field opens, whether a peer has a free stream) is a parameter too.

## Results about behaviour worth knowing

- `flush_stream` subtracts the bytes of lost packets a second time; the counters stay right if and only if the stream has none (`Flight.FlushConservesIff`).
- A buffered slice that is shorter than a later one at the same offset makes the later one, although acknowledged, disappear (`Receiving.KeptIff`, `Receiving.ShadowedTailIsLost`). The sender's fixed cuts rule this out (`Delivery.NotShadowed`).
- An empty buffer given to `send` can leave the send iterator on an erased item, exactly when an ack completes all that was sent while the iterator stands at an empty item in front of more data (`Dangling.DanglesIff`, `Dangling.EmptySendDangles`). The other sender results are about non-empty buffers.
- A stream that has been read to its marked end is erased, so a late copy of its first packet starts it anew and is delivered again (`Receiving.DeliveredOnceIff`, `Receiving.DuplicateAfterEnd`). The modelled sender never marks an end.
- A simultaneous open whose two answers are lost leaves both endpoints waiting, with no timer and nothing to send; from every other reachable state they can be connected (`Recovery.RecoversIff`, `Recovery.StuckReachable`).
- A node that makes up the id of a message does not record it, so the message can come back to it and be sent a second time (`Flood.MadeUpIdReturns`).
- A message created with an empty attestation carries the two octets 0, 0, which the next hop reads as an attestation of no octets; it then fails to find the witness and rejects the message. Attestations survive exactly when they start with their own length (`Relay.CreateParseIff`).
- `compress` sets 8 bytes aside for each transaction where an entry takes 9 plus its data, none for the lengths of the misc buffers, and relies on its slack of 10000 bytes; its check in front of an uncached transaction also asks for 8 bytes for every transaction of the block, so it can throw although the encoding fits (`Compression.FitsIff`, `Compression.ThrowsThoughItFits`).
- `send` of a framed message accepts any length, the parsers only 5000000 bytes (`Framing.AcceptedIff`).
- Store-and-forward records a message id only once its header has parsed, cut-through before it parses the header; both are modelled as written (`PubSub.PubSubNode.DidRecvMessage`, `PubSub.PubSubNode.CutThroughRecvBytes`).

## Model

| member | source | states |
|---|---|---|
| `EndToEnd.DeliveredIsPrefix` | stream/include/marlin/stream/StreamTransport.hpp:2077-2123 | In every state of every run, over any loss, duplication and reordering, what the peer application received on a stream is a prefix of what was given to `send` on it, of length the read offset |
| `EndToEnd.AckedIsDelivered` | stream/include/marlin/stream/StreamTransport.hpp:1442-1465 | In every state the sender's `acked_offset` of a stream is at most the number of bytes the peer application received |
| `EndToEnd.HandedBackIsDelivered` | stream/include/marlin/stream/StreamTransport.hpp:1466-1487 | The buffers returned through `did_send`, concatenated, are always a prefix of what the peer application received |
| `EndToEnd.PartitionHolds` | stream/include/marlin/stream/StreamTransport.hpp:1432-1490 | In every state a byte lies in `[acked_offset, sent_offset)` exactly when some record in `sent_packets`, `lost_packets` or `outstanding_acks` holds it, and no two do; every sent or lost record designates an item still in `data_queue` |
| `EndToEnd.IdleMeansDelivered` | stream/include/marlin/stream/StreamTransport.hpp:574-579 | When nothing is in flight, lost or queued, everything given to `send` has been delivered |
| `EndToEnd.AllAcceptedMeansRead` | stream/include/marlin/stream/StreamTransport.hpp:1326-1343 | If some accepted datagram carried each sent byte, the peer application has received all of them: the first packet kept at an offset never costs a byte |
| `EndToEnd.AccountsHold` | stream/include/marlin/stream/StreamTransport.hpp:431-442 | In every state `bytes_in_flight` equals the sum over `sent_packets`, overall and per stream; the window is at least 10000; `send_queue` has no duplicates and agrees with `send_queue_ids`; every stream with unsent data is queued; the TLP timer is armed unless idle |
| `EndToEnd.PacingHolds` | stream/include/marlin/stream/StreamTransport.hpp:534-565 | A pacing tick in any reachable state adds at most 401350 bytes and, if it sends, leaves the flight within the window |
| `EndToEnd.AtMostSixProbes` | stream/include/marlin/stream/StreamTransport.hpp:636-645 | The probe interval doubles with each probe no ACK follows, and the sixth in a row resets the connection |
| `EndToEnd.AckNames` | stream/include/marlin/stream/StreamTransport.hpp:1347-1358 | The transmitted ranges name exactly the remembered numbers if there are at most 171 ranges, otherwise just those above the cut |
| `EndToEnd.AckAgreement` | stream/include/marlin/stream/StreamTransport.hpp:1408-1436 | Whenever an ACK arrives, however late, each packet it takes off the sender's books was accepted before the ACK was made; and if at most 171 ranges were remembered then, it takes out exactly those packets in flight that were remembered |
| `EndToEnd.RememberedIsAccepted` | stream/include/marlin/stream/protocol/AckRanges.hpp:19-103 | As long as the range list stays short of its limit, the receiver remembers exactly the numbers it accepted |
| `Delivery.NextOk` | stream/include/marlin/stream/StreamTransport.hpp:1945-1988 | Every step of the two-endpoint system (send, pacing, TLP, arrival of DATA or ACK, emission of an ACK) keeps the system invariant |
| `Delivery.RunOk` | stream/include/marlin/stream/StreamTransport.hpp:1945-1988 | The system invariant holds in every state of every run |
| `Delivery.DataArrivesOk` | stream/include/marlin/stream/StreamTransport.hpp:1240-1343 | The arrival of any datagram ever sent, however often, keeps the invariant |
| `Delivery.AckArrivesOk` | stream/include/marlin/stream/StreamTransport.hpp:1388-1607 | The arrival of any ACK ever sent, however stale, keeps the invariant |
| `Delivery.NotShadowed` | stream/include/marlin/stream/StreamTransport.hpp:1331 | Because retransmission repeats the same cuts, no longer slice ever arrives for an offset already buffered |
| `EndToEnd.ProbeMakesProgress` | stream/include/marlin/stream/StreamTransport.hpp:573-646 | In every state that is not idle the TLP timer is armed; unless its firing gives up, the pacing tick it arms sends again if anything was in flight or lost, and if it sends nothing then everything given to `send` was delivered |
| `Progress.ProbeFreesWindow` | stream/include/marlin/stream/StreamTransport.hpp:587-634 | A probe files every packet in flight as lost, leaving no byte in flight and a pacing tick armed |
| `Progress.TickTransmits` | stream/include/marlin/stream/StreamTransport.hpp:534-565 | With nothing in flight a pacing tick transmits, or leaves the sender idle |
| `Tiling.TiledExactlyOnce` | stream/include/marlin/stream/StreamTransport.hpp:1432-1490 | Under the invariant every unacked sent byte of a stream has one holder and every other byte none |
| `TilingSteps.SendKeeps` | stream/include/marlin/stream/StreamTransport.hpp:2077-2123 | `send` of a non-empty buffer keeps the partition |
| `TilingSteps.FragmentKeeps` | stream/include/marlin/stream/StreamTransport.hpp:494-523 | Sending one fragment of new data keeps the partition |
| `TilingSteps.RetransmitKeeps` | stream/include/marlin/stream/StreamTransport.hpp:456-483 | Sending a lost packet again keeps the partition: its new number takes over the stretch |
| `TilingSteps.MarkLostKeeps` | stream/include/marlin/stream/StreamTransport.hpp:1555-1559 | Moving a packet from `sent_packets` to `lost_packets` keeps the partition |
| `AckSteps.AckPacketKeeps` | stream/include/marlin/stream/StreamTransport.hpp:1437-1517 | Acking one packet keeps the partition; the acked offset moves only over acked bytes and no live record loses its data item |
| `AckSteps.RegionFacts` | stream/include/marlin/stream/StreamTransport.hpp:1442-1487 | None of a live record's bytes was acked before, so the "already acked" branch is never taken; after the ack the stream is well formed and every live record stays above `acked_offset` |
| `AckSteps.MergeBounds` | stream/include/marlin/stream/StreamTransport.hpp:1449-1464 | Folding the outstanding acks consumes exactly the entries that continue the acked offset without a hole, and stops below the first hole |
| `AckSteps.MergeCover` | stream/include/marlin/stream/StreamTransport.hpp:1449-1464 | Each byte is covered by the acked offset or the remaining outstanding acks exactly as before the folding |
| `AckSteps.PopFacts` | stream/include/marlin/stream/StreamTransport.hpp:1466-1487 | Erasing acked items hands back exactly the bytes in front of the first item with unacked bytes and keeps every other item |
| `Dangling.DanglesIff` | stream/include/marlin/stream/StreamTransport.hpp:1442-1487 | Over queues that may hold empty items: an ack leaves `next_item_iterator` at an erased item of a non-empty queue if and only if it completes all that was sent while the iterator stands at an empty item with data queued behind it; otherwise the queue stays in order |
| `Dangling.EnqueueLax` | stream/include/marlin/stream/StreamTransport.hpp:2096-2107 | Queueing any buffer, empty or not, keeps the queue in order |
| `Dangling.EmptySendDangles` | stream/include/marlin/stream/StreamTransport.hpp:1466-1487 | A run of `send`, a pacing tick and an ACK after which the iterator dangles |
| `AckRuns.AckRemovesExactly` | stream/include/marlin/stream/StreamTransport.hpp:1408-1436 | The numbers an ACK removes from `sent_packets` are exactly those in the denotation of its ranges |
| `AckRuns.AckPacketSound` | stream/include/marlin/stream/StreamTransport.hpp:1437-1517 | Acking a packet the receiver holds keeps acked offset at or below the read offset, and the buffers handed back equal the newly acked items |
| `SendingRuns.PacingKeeps` | stream/include/marlin/stream/StreamTransport.hpp:534-565 | A pacing tick keeps the partition, and each datagram it sends carries queued bytes under the next number |
| `SendingRuns.SendLostKeeps` | stream/include/marlin/stream/StreamTransport.hpp:453-484 | The same for the loop over lost packets |
| `SendingRuns.SendNewKeeps` | stream/include/marlin/stream/StreamTransport.hpp:490-526 | The same for the loops over a stream's new data |
| `SendingRuns.TlpKeeps` | stream/include/marlin/stream/StreamTransport.hpp:573-646 | A tail-loss probe keeps the partition or ends in the reset state |
| `SendingRuns.LoseAndBackOffKeeps` | stream/include/marlin/stream/StreamTransport.hpp:1537-1601 | Time-based loss detection keeps the partition and leaves acks alone |
| `Flight.SendConserves` | stream/include/marlin/stream/StreamTransport.hpp:2077-2123 | `send` leaves the flight counters equal to the sums |
| `Flight.PacingConserves` | stream/include/marlin/stream/StreamTransport.hpp:480-481 | A pacing tick keeps `bytes_in_flight` equal to the sum over `sent_packets`, overall and per stream |
| `Flight.TlpConserves` | stream/include/marlin/stream/StreamTransport.hpp:587-593 | A tail-loss probe, or its reset, keeps the sums |
| `Flight.RecvAckConserves` | stream/include/marlin/stream/StreamTransport.hpp:1493-1494 | Any ACK, even with arbitrary ranges, keeps the sums |
| `Flight.FlushConservesIff` | stream/include/marlin/stream/StreamTransport.hpp:2250-2282 | `flush_stream` keeps the sums if and only if none of the stream's packets is marked lost |
| `Flight.AckWindow` | stream/include/marlin/stream/StreamTransport.hpp:1500-1516 | No ACK takes the congestion window below 10000 |
| `Flight.TlpWindow` | stream/include/marlin/stream/StreamTransport.hpp:611-624 | No probe takes it below 10000 |
| `Flight.BackOffOnce` | stream/include/marlin/stream/StreamTransport.hpp:1572-1597 | Packets sent before a congestion event cause no second back-off; a back-off keeps at least three fifths of the window |
| `Flight.LostBounded` | stream/include/marlin/stream/StreamTransport.hpp:461-473 | The lost loop adds at most 400000 bytes less one, plus one fragment, and each send stays within the window |
| `Flight.NewBounded` | stream/include/marlin/stream/StreamTransport.hpp:506-521 | The new-data loop sends only within the window and within the pacing limit plus one fragment |
| `Flight.TickBounded` | stream/include/marlin/stream/StreamTransport.hpp:534-565 | Both loops together add at most 401350 bytes and leave the flight within the window |
| `Loss.LostByAck` | stream/include/marlin/stream/StreamTransport.hpp:1390-1563 | After any ACK: a packet in flight that it does not name becomes lost, as it is, exactly when it and every lower one it does not name was sent more than 50 ms before the sending time of the largest packet it newly names, or else of the one taken before; nothing else becomes lost |
| `Loss.WindowByAck` | stream/include/marlin/stream/StreamTransport.hpp:1498-1601 | After any ACK: the window grows by the named packets sent since the last congestion event, not at all when less than four fifths were in use and by all their bytes within the threshold; then, if the highest newly lost packet was sent since that event, it is reduced |
| `Loss.EventReduces` | stream/include/marlin/stream/StreamTransport.hpp:1572-1596 | A congestion event takes the window to three quarters, or three fifths if it was below the one remembered, rounded down, never below 10000 and always smaller above it; the window becomes the threshold, the old one is remembered, and the event dates from now |
| `Loss.LostByProbe` | stream/include/marlin/stream/StreamTransport.hpp:587-639 | A probe files every packet in flight as lost, as it is; the window is reduced exactly when the highest was sent since the last congestion event; the next probe is due after twice the time |
| `Loss.PacketGrows` | stream/include/marlin/stream/StreamTransport.hpp:1498-1517 | One acked packet: no growth if application-limited or older than the last event, its length in slow start, otherwise 1500 times its length over the window, rounded down |
| `Loss.GivesUp` | stream/include/marlin/stream/StreamTransport.hpp:640-645 | A probe due after 25000 ms or more resets everything, with a window of 100000 in slow start |
| `Loss.NothingToDo` | stream/include/marlin/stream/StreamTransport.hpp:574-579 | A probe that finds the sender idle only stops the timer and restores its interval; without a connection an ACK changes nothing |
| `Loss.FlushForgets` | stream/include/marlin/stream/StreamTransport.hpp:2250-2289 | Flushing a stream forgets exactly its packets and its data |
| `Pacing.TickAttends` | stream/include/marlin/stream/StreamTransport.hpp:534-565 | A tick stops only with nothing lost or queued, with another tick due after at least 400000 bytes, or with the lowest lost packet or the next fragment not fitting the window |
| `Pacing.AlwaysAttended` | stream/include/marlin/stream/StreamTransport.hpp:534-565 | In every state of every run nothing is lost or queued, or a pacing tick is due, or what comes next does not fit the window |
| `Pacing.LostGoFirst` | stream/include/marlin/stream/StreamTransport.hpp:534-565 | While lost packets remain no new data is sent and the queue stands still; otherwise queued streams are served in turn from the front |
| `Pacing.TickStamps` | stream/include/marlin/stream/StreamTransport.hpp:1161-1170 | A tick leaves what is in flight alone, and every packet it sends, for the first time or again, bears a new number and the time of the tick |
| `Pacing.FragmentsFull` | stream/include/marlin/stream/StreamTransport.hpp:500-505 | Every fragment of new data has 1350 bytes, or fewer and ends a buffer |
| `Pacing.SendAnswers` | stream/include/marlin/stream/StreamTransport.hpp:2081-2120 | In every state `send` answers -2 without a connection, -1 with more than 20000000 bytes queued and unacked, else 0, and only then queues the buffer and the stream |
| `Pacing.Relied` | stream/include/marlin/stream/StreamTransport.hpp:534-565 | In every state of every run the hypotheses of the loss and pacing laws hold |
| `Scheduling.SendSchedules` | stream/include/marlin/stream/StreamTransport.hpp:2109-2120 | After `send` every stream with unsent data is queued once and both timers are armed |
| `Scheduling.SendNewOne` | stream/include/marlin/stream/StreamTransport.hpp:490-526 | `send_new_data` touches one stream, and returns 0 only with its iterator at the end |
| `Scheduling.PacingSchedules` | stream/include/marlin/stream/StreamTransport.hpp:534-565 | A pacing tick drops a stream from the queue only when all its data is sent |
| `Scheduling.TlpSchedules` | stream/include/marlin/stream/StreamTransport.hpp:573-646 | A probe leaves the timer armed unless idle, and keeps the queue in order |
| `Scheduling.RecvAckSchedules` | stream/include/marlin/stream/StreamTransport.hpp:1603-1607 | An ACK keeps the queue in order and arms the TLP timer |
| `Receiving.ArriveReassembles` | stream/include/marlin/stream/StreamTransport.hpp:1276-1343 | On an arriving slice of a byte string, the chunks given to the delegate are exactly the bytes the read offset moves over; buffered packets stay strictly above it and AllRecv is not entered |
| `Receiving.RunReassembles` | stream/include/marlin/stream/StreamTransport.hpp:1240-1343 | Over any arrivals on any streams, with ends marked anywhere: on each stream the application has received, for every time the stream was completed and erased, the bytes below its size, and since then exactly the bytes below the read offset |
| `Receiving.DeliveredOnceIff` | stream/include/marlin/stream/StreamTransport.hpp:1323-1327 | Until a stream is completed the application has received exactly the bytes below the read offset; afterwards it has received exactly the bytes below the size if and only if no non-empty packet for the beginning of the stream arrives later |
| `Receiving.RestartIff` | stream/include/marlin/stream/StreamTransport.hpp:1282-1291 | From a stream with nothing read, something is delivered exactly when a non-empty packet for its beginning arrives |
| `Receiving.DuplicateAfterEnd` | stream/include/marlin/stream/StreamTransport.hpp:1323-1327 | A one-byte stream whose only packet, marked as the end, is duplicated is delivered twice |
| `Receiving.NeverFinished` | stream/include/marlin/stream/protocol/RecvStream.hpp:96-116 | With a packet buffered above the read offset, `check_finish` is false |
| `Receiving.DrainKeeps` | stream/include/marlin/stream/StreamTransport.hpp:1290-1320 | What stays buffered is untouched and above the read offset; what goes was read in full |
| `Receiving.KeptIff` | stream/include/marlin/stream/StreamTransport.hpp:1326-1343 | An acknowledged slice is kept if and only if no shorter one was buffered at its offset |
| `Receiving.ShadowedTailIsLost` | stream/include/marlin/stream/StreamTransport.hpp:1331 | A concrete run in which an acknowledged slice is lost behind a shorter one |
| `Receiving.AcknowledgedIff` | stream/include/marlin/stream/StreamTransport.hpp:1241-1268 | A packet is acknowledged exactly if the stream is open, not waiting for a flush, and the length is right |
| `Receiving.FirstEndCounts` | stream/include/marlin/stream/StreamTransport.hpp:1252-1265 | The end of a stream is fixed by the first packet marked as the end, even one with a wrong length |
| `Receiving.CompletesIff` | stream/include/marlin/stream/StreamTransport.hpp:1282-1327 | A packet completes its stream exactly if it lets the application read on up to the known end |
| `Receiving.CompletedAtEnds` | stream/include/marlin/stream/StreamTransport.hpp:1252-1327 | Over any run a stream is only completed at an offset at which one of its packets was marked as the end |
| `Receiving.FinishedIff` | stream/include/marlin/stream/protocol/RecvStream.hpp:104-115 | With the end known, `check_finish` is true exactly if every byte from the read offset to the end is buffered and no packet goes beyond |
| `Receiving.RecvStream.CheckFinished` | stream/include/marlin/stream/protocol/RecvStream.hpp:96-116 | The loop computes the specification of `check_finish` |
| `Receiving.RecvStream.DidRecvData` | stream/include/marlin/stream/StreamTransport.hpp:1241-1343 | On one stream object, the handler leaves the state, the chunks and the verdict of the specification of an arrival; erasing the object is left to its owner |
| `Receiving.Receiver.DidRecvData` | stream/include/marlin/stream/StreamTransport.hpp:1239-1343 | On all streams: the object is created on first use, handles the packet, and is erased when it has been read to its end |
| `Receiving.RecvStream.ReadBuffered` | stream/include/marlin/stream/StreamTransport.hpp:1290-1320 | The loop over buffered packets drains exactly what the specification drains |
| `Transport.StreamTransport.constructor` | stream/include/marlin/stream/StreamTransport.hpp:321-369 | A new object is in the reset state |
| `Transport.StreamTransport.Reset` | stream/include/marlin/stream/StreamTransport.hpp:321-369 | Reset clears streams, packets, queue, counters and timers |
| `Transport.StreamTransport.RegisterSendIntent` | stream/include/marlin/stream/StreamTransport.hpp:431-442 | Queues a stream at most once |
| `Transport.StreamTransport.Send` | stream/include/marlin/stream/StreamTransport.hpp:2077-2123 | -2 unless Established, -1 on an overfull queue, else appends the buffer, queues the stream and arms timers |
| `Transport.StreamTransport.SendData` | stream/include/marlin/stream/StreamTransport.hpp:1114-1171 | The datagram of a record under a fresh number, and the record in `sent_packets` |
| `Transport.StreamTransport.SendLostData` | stream/include/marlin/stream/StreamTransport.hpp:453-484 | The loop over `lost_packets` has the new state, code and datagrams of its specification |
| `Transport.StreamTransport.SendNewData` | stream/include/marlin/stream/StreamTransport.hpp:490-526 | The nested loops over items and fragments have the effect of the one-fragment-at-a-time specification |
| `Transport.StreamTransport.PacingTimerCb` | stream/include/marlin/stream/StreamTransport.hpp:534-565 | Lost data first, then the queued streams in turn |
| `Transport.StreamTransport.TlpTimerCb` | stream/include/marlin/stream/StreamTransport.hpp:573-646 | Idle stop, everything lost, back-off, doubling or abort |
| `Transport.StreamTransport.LosePackets` | stream/include/marlin/stream/StreamTransport.hpp:1537-1601 | Marks a prefix of the packets in flight lost, in order, with at most one congestion event |
| `Transport.StreamTransport.AckOne` | stream/include/marlin/stream/StreamTransport.hpp:1437-1517 | Acks one packet with the buffers it completes and the window change |
| `Transport.StreamTransport.AckBetween` | stream/include/marlin/stream/StreamTransport.hpp:1427-1436 | Acks the packets in flight within a closed range in order |
| `Transport.StreamTransport.AckAll` | stream/include/marlin/stream/StreamTransport.hpp:1408-1535 | Walks the alternating ranges downwards |
| `Transport.StreamTransport.DidRecvAck` | stream/include/marlin/stream/StreamTransport.hpp:1361-1607 | The whole handler against the specification of an ACK |
| `Transport.StreamTransport.FlushStream` | stream/include/marlin/stream/StreamTransport.hpp:2250-2282 | Drops a stream's packets and data, subtracting as the code does |
| `Transport.FoldOutstanding` | stream/include/marlin/stream/StreamTransport.hpp:1449-1464 | The loop over `outstanding_acks` yields the merged offset and remaining entries |
| `Transport.EraseAcked` | stream/include/marlin/stream/StreamTransport.hpp:1466-1487 | The loop over `data_queue` yields the remaining items and the buffers handed back |
| `Transport.Fragmented` | stream/include/marlin/stream/StreamTransport.hpp:490-526 | Leaving an exhausted item at once or at the next turn of the outer loop gives the same result |
| `AckRanges.AckRanges.AddPacketNumber` | stream/include/marlin/stream/protocol/AckRanges.hpp:19-103 | Keeps the list odd-length with positive entries; the seen set becomes the old one plus `num`, or, if trimmed, its part above the new bottom |
| `AckRanges.AckRanges.InsertInGap` | stream/include/marlin/stream/protocol/AckRanges.hpp:47-93 | A number inside a gap joins the run above, both, the run below, or splits the gap |
| `AckRanges.AckRanges.AppendAtEnd` | stream/include/marlin/stream/protocol/AckRanges.hpp:94-103 | A number below all runs extends the list at the end, with the trim to 1001 entries |
| `AckRanges.Canonical` | stream/include/marlin/stream/protocol/AckRanges.hpp:19-103 | Two well-formed lists with the same largest number and the same seen set are equal: the list is a canonical form |
| `AckRanges.RecordedDetermines` | stream/include/marlin/stream/protocol/AckRanges.hpp:19-103 | When nothing is trimmed, the prescribed set determines the resulting list |
| `AckRanges.JoinBoth` | stream/include/marlin/stream/protocol/AckRanges.hpp:47-93 | Filling a gap of one number merges the runs on both sides and adds just that number |
| `AckRanges.SplitGap` | stream/include/marlin/stream/protocol/AckRanges.hpp:47-93 | A number strictly inside a gap splits it and adds just that number |
| `AckRanges.AtEnd` | stream/include/marlin/stream/protocol/AckRanges.hpp:94-103 | Recording below every run adds just that number, or after the trim keeps just what lies above the new bottom |
| `AckRanges.EndLimit` | stream/include/marlin/stream/protocol/AckRanges.hpp:91-102 | Recording a number below all runs leaves at most 1001 entries |
| `AckRanges.Prefix` | stream/include/marlin/stream/StreamTransport.hpp:1347-1358 | The first k runs denote the seen numbers above their bottom |
| `Messages.DataRoundTrip` | stream/include/marlin/stream/Messages.hpp:159-183 | A DATA datagram reads back as written, with the connection ids exchanged |
| `Messages.AckRoundTrip` | stream/include/marlin/stream/Messages.hpp:187-230 | An ACK reads back with the ids exchanged and the first 171 ranges |
| `Messages.RangesRoundTrip` | stream/include/marlin/stream/Messages.hpp:193-216 | The range array reads back as written |
| `Messages.DataDecodesIff` | stream/include/marlin/stream/Messages.hpp:159-183 | The DATA handler reads exactly the datagrams laid out field by field with room for tag and nonce, each with the ids exchanged |
| `Messages.AckDecodesIff` | stream/include/marlin/stream/Messages.hpp:224-229 | The ACK handler reads exactly the datagrams laid out with as many ranges as they announce |
| `Messages.SetRanges` | stream/include/marlin/stream/Messages.hpp:136-148 | Writes ranges in place for as long as they fit and touches nothing before them |
| `Messages.BuildAck` | stream/include/marlin/stream/StreamTransport.hpp:1347-1358 | Builds exactly the encoding of the ACK in a fresh buffer |
| `MessageDelivery.AckCrossesWire` | stream/include/marlin/stream/Messages.hpp:187-230 | The ACK a receiver builds from its range list is the one the sender's handler processes |
| `Handshake.Connection.DidDial` | stream/include/marlin/stream/StreamTransport.hpp:1899-1920 | Effect, datagrams and report as specified |
| `Handshake.Connection.DidRecvDial` | stream/include/marlin/stream/StreamTransport.hpp:691-827 | Listening, dialling, simultaneous open and duplicate DIAL branches as specified |
| `Handshake.Connection.DidRecvDialConf` | stream/include/marlin/stream/StreamTransport.hpp:846-988 | As specified for every connection state |
| `Handshake.Connection.DidRecvConf` | stream/include/marlin/stream/StreamTransport.hpp:1000-1074 | As specified for every connection state |
| `Handshake.Connection.DidRecvRst` | stream/include/marlin/stream/StreamTransport.hpp:1089-1111 | Resets on a matching pair of ids, or when listening |
| `Handshake.Connection.DidRecvData` | stream/include/marlin/stream/StreamTransport.hpp:1174-1233 | Id check of DATA: drops, answers RST, or completes the handshake |
| `Handshake.Connection.DidRecvAck` | stream/include/marlin/stream/StreamTransport.hpp:1364-1386 | The id check of ACK, once Established |
| `Handshake.Connection.DidRecvCtrl` | stream/include/marlin/stream/StreamTransport.hpp:1625-1650 | The id check of stream control |
| `Handshake.Connection.DidRecv` | stream/include/marlin/stream/StreamTransport.hpp:1945-1988 | Hands each kind of datagram to its handler; CLOSE to none |
| `Handshake.Connection.StateTimerCb` | stream/include/marlin/stream/StreamTransport.hpp:373-392 | Repeats DIAL with doubled interval, or gives up |
| `Handshake.Connection.CloseConnection` | stream/include/marlin/stream/StreamTransport.hpp:2126-2141 | Keeps the ids, sends CLOSE and enters Closing |
| `Agreement.EstablishedAgree` | stream/include/marlin/stream/StreamTransport.hpp:691-827 | In every reachable state with both endpoints Established, each one's ids mirror the other's |
| `Agreement.NextOk` | stream/include/marlin/stream/StreamTransport.hpp:1945-1988 | Every dial, datagram (fresh or stale), timer, close and reset keeps the handshake invariant |
| `Agreement.DialCompletes` | stream/include/marlin/stream/StreamTransport.hpp:846-988 | Dialling a listening endpoint establishes both with mirrored ids, by CONF or by the first DATA, and reports to the one that dialled |
| `Agreement.SimultaneousOpenCompletes` | stream/include/marlin/stream/StreamTransport.hpp:691-827 | Two endpoints that dial each other at once both become Established with mirrored ids |
| `Agreement.RepeatCompletes` | stream/include/marlin/stream/StreamTransport.hpp:373-392 | A repeated DIAL whose first answer was lost completes the handshake |
| `Agreement.StaleIsReplaced` | stream/include/marlin/stream/StreamTransport.hpp:1077-1111 | An endpoint left in an old connection is reset by the exchange a new DIAL causes, and the repeated DIAL completes |
| `Recovery.RecoversIff` | stream/include/marlin/stream/StreamTransport.hpp:691-1111 | From every reachable state, whatever was lost, the endpoints can still be connected with mirrored ids by what is sent from now on, if and only if they are not both in DialRcvd |
| `Recovery.StuckReachable` | stream/include/marlin/stream/StreamTransport.hpp:760-806 | A run of a simultaneous open after which both endpoints are in DialRcvd |
| `Agreement.ReportedOnce` | stream/include/marlin/stream/StreamTransport.hpp:846-988 | Over every run `did_dial` is reported at most once per connection id |
| `Agreement.ReportOnEntry` | stream/include/marlin/stream/StreamTransport.hpp:1000-1074 | A report comes only with the step into Established of a connection this endpoint dialled |
| `Reactions.StrangerIsReset` | stream/include/marlin/stream/StreamTransport.hpp:846-1074 | An endpoint that is not closing answers DIALCONF, CONF, DATA or stream control (and ACK when Established) that names a connection it does not hold with one RST, stays as it is, and that RST resets the sender; it answers no others with RST |
| `Reactions.ResetIff` | stream/include/marlin/stream/StreamTransport.hpp:1089-1111 | A RST resets exactly the endpoint that holds both its ids |
| `Reactions.EstablishedIff` | stream/include/marlin/stream/StreamTransport.hpp:846-1074 | An endpoint becomes Established exactly by the answer to its DIAL or by DIALCONF, CONF or DATA that confirms its own answer; it reports so exactly if it had dialled, and answers a DIALCONF with CONF |
| `Reactions.EstablishedStays` | stream/include/marlin/stream/StreamTransport.hpp:691-1111 | Once Established only a RST with its ids changes anything; duplicates of DIAL and DIALCONF are answered again |
| `Reactions.DialAnswered` | stream/include/marlin/stream/StreamTransport.hpp:691-827 | What a DIAL does in each state, and the DIALCONF that answers it |
| `Reactions.SealNeeded` | stream/include/marlin/stream/StreamTransport.hpp:691-988 | A DIAL with a destination id, or a DIAL or DIALCONF whose seal does not open, changes nothing while dialling or listening |
| `Reactions.ClosingIsSilent` | stream/include/marlin/stream/StreamTransport.hpp:691-1074 | A closing endpoint ignores handshake datagrams and acks, and answers only DATA and stream control of another connection, with RST |
| `Reactions.Ignored` | stream/include/marlin/stream/StreamTransport.hpp:1368-1370 | Before it is Established an endpoint ignores acks, it never reacts to CLOSE, and only one that listens dials |
| `Reactions.DialGivesUp` | stream/include/marlin/stream/StreamTransport.hpp:373-392 | An unanswered DIAL is repeated six times with doubled intervals from 1 s, and 64 s after the last the endpoint listens again |
| `Reactions.CloseGivesUp` | stream/include/marlin/stream/StreamTransport.hpp:2126-2163 | A close names the ids held, is repeated three times, and then the endpoint listens again |
| `Framing.PassRefinesTake` | lpf/include/marlin/lpf/CutThroughBuffer.hpp:18-78 | On any bytes from any state the cut-through trace is bracketed, its chunks total the announced lengths, and it collapses to the messages of the storing parser |
| `Framing.PassAllRefines` | lpf/include/marlin/lpf/CutThroughBuffer.hpp:18-78 | The same for any chunking of any byte stream |
| `Framing.TakeSplit` | lpf/include/marlin/lpf/StoreThenForwardBuffer.hpp:22-78 | Feeding a then b equals feeding a + b in messages, verdict and state |
| `Framing.ChunkingIrrelevant` | lpf/include/marlin/lpf/StoreThenForwardBuffer.hpp:22-78 | Any chunking of a byte stream gives the same messages, verdict and state |
| `Framing.FramesRoundTrip` | lpf/include/marlin/lpf/LpfTransport.hpp:341-350 | Feeding what `send` writes for a list of messages delivers that list; a final empty message waits for the next byte |
| `Framing.AcceptedIff` | lpf/include/marlin/lpf/LpfTransport.hpp:341-350 | A list arrives whole exactly when each message has at most 5000000 bytes, though `send` accepts any |
| `Framing.PrefixDelivers` | lpf/include/marlin/lpf/StoreThenForwardBuffer.hpp:22-78 | Any prefix of the frames, in any chunking, yields only a prefix of the messages |
| `Framing.StoreThenForwardBuffer.DidRecv` | lpf/include/marlin/lpf/StoreThenForwardBuffer.hpp:22-78 | The object follows the parser specification, filling its buffer in place |
| `Framing.CutThroughBuffer.DidRecv` | lpf/include/marlin/lpf/CutThroughBuffer.hpp:18-78 | The object follows the specification and makes exactly its delegate calls |
| `Framing.ShiftIn` | lpf/include/marlin/lpf/CutThroughBuffer.hpp:26-33 | The byte loop reads a big-endian number |
| `MessageDelivery.MessagesArriveInOrder` | lpf/include/marlin/lpf/LpfTransport.hpp:341-350 | Over any run of the transport, the parser at the peer completes a prefix of the messages sent on a stream |
| `MessageDelivery.IdleMeansMessagesArrived` | lpf/include/marlin/lpf/LpfTransport.hpp:341-350 | Once the sender is idle all messages have come out, except a final empty one |
| `Relay.CutThroughMatches` | pubsub/include/marlin/pubsub/PubSubNode.hpp:1776-1958 | The frame of a fresh message comes in, in any chunks. If the first chunk of its body holds the whole header, each target is announced the length of the message, is given chunks that total it, and is told to end; what is written downstream is the frame of the message that parsing and rebuilding would give. Otherwise nothing is sent to anyone |
| `Relay.MessageCalls` | pubsub/include/marlin/pubsub/PubSubNode.hpp:1806-1925 | The calls on one peer's connection for a message, by whether its first chunk holds the header and whether the peer is a target |
| `Relay.KnownIsSwallowed` | pubsub/include/marlin/pubsub/PubSubNode.hpp:1819-1825 | A message whose id is known, in any chunks of which the first holds the fixed header, is swallowed: every call returns 0, no connection is called, no id is recorded, and what follows on the connection is handled as if it had not been there |
| `Relay.MessageStands` | pubsub/include/marlin/pubsub/PubSubNode.hpp:1806-1882 | The verdict on any message by its first chunk: -1 if it has fewer than 11 octets, or its id is new and the header does not parse; 0 otherwise; the id is recorded in all cases but the first |
| `Trace.WholeTrace` | lpf/include/marlin/lpf/LpfTransport.hpp:438-503 | A start, chunks that total its length and an end amount to one message, and write its frame |
| `Trace.OneMessage` | lpf/include/marlin/lpf/CutThroughBuffer.hpp:18-78 | A trace that amounts to one message has exactly that form |
| `Framing.FrameTrace` | lpf/include/marlin/lpf/CutThroughBuffer.hpp:18-78 | On the frame of a message, in any chunks, the cut-through parser makes the calls of that one message |
| `Relay.CreateParseIff` | pubsub/include/marlin/pubsub/PubSubNode.hpp:1180-1205 | A created message parses back to its fields exactly when its attestation starts with its own length; in particular not from an empty attestation |
| `Relay.EmptyIsRefused` | pubsub/include/marlin/pubsub/attestation/LpfAttester.hpp:26-44 | A message created with an empty attestation carries the octets 0, 0 in its place and is rejected by every node |
| `Relay.CreateIsRewitness` | pubsub/include/marlin/pubsub/PubSubNode.hpp:1180-1205 | Rebuilding a parsed message is the message with the relay's witness written over the old one |
| `Relay.ParsedSelfDescribing` | pubsub/include/marlin/pubsub/attestation/LpfAttester.hpp:59-62 | Every attestation a parse yields starts with its own length |
| `Relay.ParseIff` | pubsub/include/marlin/pubsub/PubSubNode.hpp:986-1043 | Parsing accepts exactly the messages laid out with a self-describing attestation and a witness of 34 octets, and reads their parts |
| `Relay.HopKeeps` | pubsub/include/marlin/pubsub/PubSubNode.hpp:992-1043 | One hop keeps id, channel, attestation and payload, and the next node can parse the result |
| `Relay.ChainKeeps` | pubsub/include/marlin/pubsub/PubSubNode.hpp:992-1043 | The same for any number of hops, and the witness holds every key of the chain |
| `Relay.Targets` | pubsub/include/marlin/pubsub/PubSubNode.hpp:1884-1921 | The peers that are not the sender, not in the filter and have a free stream |
| `Witness.EnterHolds` | pubsub/include/marlin/pubsub/witness/LpfBloomWitnesser.hpp:32-43 | After entering a key the filter holds it and all it held before |
| `Witness.SetBit` | pubsub/include/marlin/pubsub/witness/LpfBloomWitnesser.hpp:24-30 | Setting a bit changes the answer of `test_bit` for that index alone |
| `Witness.WithBitSets` | pubsub/include/marlin/pubsub/witness/LpfBloomWitnesser.hpp:25 | `x | (1 << k)` has the bits of x and bit k, and no other |
| `Witness.BloomWitnesser.Contains` | pubsub/include/marlin/pubsub/witness/LpfBloomWitnesser.hpp:33-43 | The loop decides whether all eight bits of a key are set |
| `Witness.BloomWitnesser.WriteWitness` | pubsub/include/marlin/pubsub/witness/LpfBloomWitnesser.hpp:46-67 | Writes the fresh or copied filter with the own bits set, and touches nothing else |
| `PubSub.PubSubNode.MessageIdTimerCb` | pubsub/include/marlin/pubsub/PubSubNode.hpp:663-673 | Advances the ring and forgets exactly the ids of the bucket it enters |
| `PubSub.PubSubNode.SendMessageOnChannel` | pubsub/include/marlin/pubsub/PubSubNode.hpp:1516-1532 | Sends exactly if the id is not remembered, and remembers it |
| `PubSub.PubSubNode.CreateMessage` | pubsub/include/marlin/pubsub/PubSubNode.hpp:1180-1205 | Builds in place the message layout that the relay results are about |
| `PubSub.PubSubNode.DidRecvMessage` | pubsub/include/marlin/pubsub/PubSubNode.hpp:982-1052 | Result code, parsed message and recorded id in every branch; an id is recorded only after the header parsed |
| `PubSub.PubSubNode.OnParserCall` | pubsub/include/marlin/pubsub/PubSubNode.hpp:1776-1958 | For each call of the parser: result code, the calls made on every target (with the announced length), the targets, and the recorded id |
| `PubSub.PubSubNode.CutThroughRecvBytes` | pubsub/include/marlin/pubsub/PubSubNode.hpp:1794-1942 | Result code, the calls made on every target, the targets and the recorded id in every branch; an id is recorded before its header parses |
| `PubSub.PubSubNode.FindTargets` | pubsub/include/marlin/pubsub/PubSubNode.hpp:1884-1921 | The loop collects exactly the specified targets |
| `Dedup.RunOk` | pubsub/include/marlin/pubsub/PubSubNode.hpp:663-673 | After any run the id set is the disjoint union of the 256 buckets and holds exactly the ids recorded since the 256th-last tick |
| `Dedup.BucketsAreTheSet` | pubsub/include/marlin/pubsub/PubSubNode.hpp:657-659 | An id is in the set exactly when it is in a bucket, and then in one only |
| `Dedup.AcceptedOncePerWindow` | pubsub/include/marlin/pubsub/PubSubNode.hpp:1007-1052 | Two acceptances of one id are at least 256 ticks apart |
| `Dedup.RefusedIffRecent` | pubsub/include/marlin/pubsub/PubSubNode.hpp:1524-1529 | An id is refused exactly while its last acceptance is within the window |
| `Flood.OfferedOnce` | pubsub/include/marlin/pubsub/PubSubNode.hpp:1543-1587 | However a node chooses the clusters it sends to, it goes through no connection-set entry twice |
| `Flood.RelaysToAll` | pubsub/include/marlin/pubsub/PubSubNode.hpp:1543-1587 | A node that forwards sends along exactly the entries that do not lead back, of all clusters if there are at most five and of the sampled ones otherwise, and of the unsolicited connections; one that cuts through leaves out the skipped ones |
| `Flood.OneSendPerEntry` | pubsub/include/marlin/pubsub/PubSubNode.hpp:1524-1587 | Over any run of the network, with rings that tick, copies that are lost or reordered, and nodes that store and forward or cut through, two sends of one id along the same entry are at least 256 ticks of the sender apart, unless it made up the id itself |
| `Flood.EntryOncePerWindow` | pubsub/include/marlin/pubsub/PubSubNode.hpp:1524-1587 | While its node ticks fewer than 256 times an entry carries an id at most once, unless the node made it up |
| `Flood.MadeUpIdReturns` | pubsub/include/marlin/pubsub/PubSubNode.hpp:1495-1505 | The overload of `send_message_on_channel` that makes up an id does not record it: a run of three nodes in which the originator takes its own message for new and uses an entry twice within one tick |
| `Flood.FloodTerminates` | pubsub/include/marlin/pubsub/PubSubNode.hpp:1543-1587 | As long as no node ticks 256 times and none makes the id up, the copies of an id that arrive are at most those under way and one for each connection-set entry of the network |
| `Compression.RoundTrip` | compression/include/marlin/compression/BlockCompressor.hpp:110-184 | Decompressing under any second cache returns the misc buffers and each transaction or an empty marker; markers stand exactly for cached-encoded ids missing there, and `holes` maps each to its last index |
| `Blocks.DecodesIff` | compression/include/marlin/compression/BlockCompressor.hpp:110-184 | Under any cache the decoder accepts exactly the blocks laid out as sized misc buffers and transactions in full or by id |
| `Blocks.DecodeLaidOut` | compression/include/marlin/compression/BlockCompressor.hpp:110-184 | Of a laid-out block it returns the misc buffers, each transaction in full, from the cache or as an empty marker, and for each missing id its last index |
| `Compression.FitsIff` | compression/include/marlin/compression/BlockCompressor.hpp:59-99 | For every block: the encoding is produced exactly when 8 + 8 per misc buffer + 1 per transaction + the size of the uncached ones is at most 10000, and before each uncached one 8 + 8 per misc buffer + 9 per transaction so far + the uncached size so far is, too |
| `Compression.ThrowsThoughItFits` | compression/include/marlin/compression/BlockCompressor.hpp:82-83 | 1200 cached transactions and a short uncached one make `compress` throw although the encoding is well within its buffer |
| `Compression.BlockCompressor.AddTxn` | compression/include/marlin/compression/BlockCompressor.hpp:19-31 | Keeps the first transaction of an id and the last timestamp |
| `Compression.BlockCompressor.RemoveTxn` | compression/include/marlin/compression/BlockCompressor.hpp:33-41 | Forgets just that transaction |
| `Compression.BlockCompressor.RemoveTxnById` | compression/include/marlin/compression/BlockCompressor.hpp:43-46 | Forgets just that id |
| `Compression.BlockCompressor.Compress` | compression/include/marlin/compression/BlockCompressor.hpp:48-104 | Produces the encoding exactly when it fits and no guard throws; throws exactly when a guard does before anything is written past the buffer |
| `Compression.BlockCompressor.Decompress` | compression/include/marlin/compression/BlockCompressor.hpp:110-184 | Decodes every input, rejecting exactly the malformed ones |
| `Bytes.LeRoundTrip` | stream/include/marlin/stream/Messages.hpp:207-213 | A little-endian field reads back |
| `Bytes.BeRoundTrip` | pubsub/include/marlin/pubsub/PubSubNode.hpp:1191-1192 | A big-endian field reads back |

## Left out

- The sender's FIN path and the early return that removes a stream in the ACK handler: `done_queueing` is never set, so no sender emits FIN. The receiver's reaction to FIN is modelled.
- CLOSE and CLOSECONF handlers, which `did_recv` does not dispatch; sending CLOSE and its retries are part of the handshake model.
- SKIPSTREAM, FLUSHSTREAM and FLUSHCONF: the jump in `read_offset` changes what delivery means. `flush_stream` is kept for the conservation result; in the handshake model these are datagrams that change no id.
- Cryptography: sealed fields are opaque and opening one is a flag; connection ids are assumed fresh and non-zero; the 8-byte hash of a transaction is a function, assumed free of collisions where it is said.
- RTT estimation and the CUBIC value `k`, which nothing in the model reads.
- Wrap-around of 64-bit offsets, counters, packet numbers and of lengths read from malformed datagrams or blocks: numbers are unbounded. Connection ids, stream ids and field widths matter only in the layouts, where they are bounded.
- Exact double rounding of the factors 0.6 and 0.75, taken as floors of 3/5 and 3/4; the comparison with 0.8 of the window is taken exactly.
- The int accumulator in which `compress` sums misc sizes, which could overflow.
- One class for the whole transport: the sending half, a receive stream, the run list and the handshake are classes of their own, so their interplay through shared fields appears in `Delivery` and `Agreement` only.
- Streams, data items and packet records as heap objects: they are values inside the transport's maps, so aliasing of list nodes and iterators is not captured beyond the naming by ordinals.
- The state of a send stream (Ready, Send): it influences nothing once FIN is left out.
- The reverse direction of the same connection: one direction is modelled, the other is its mirror image.
- A delegate that rejects received data or calls back into the transport; the model's delegate accepts and returns.
- Framing.StoreThenForwardBuffer.DidRecv: does not model the result -2 of a delegate that rejects a message, and the parser's state after it; the modelled delegate accepts.
- Framing.CutThroughBuffer.DidRecv: does not model the result -2 of a delegate that rejects a chunk, and the parser's state after it; at the relay, a rejection ends the calls made for the message.
- Exact timer durations except the probe and dial back-off; a timer that is armed may fire at any time.
- Connection-set management, subscriptions, heartbeats, and the path of external messages through block analysis; connection sets are fixed. With more than five clusters, the random sample is a parameter that names no cluster twice.
- Flushes and skips of cut-through streams at the relay, which only forward a call, and the ids of the streams it sends on.
- StreamFiber, framing fibers, sockets, event loop, beacon, simulator and the remaining components: they repeat this logic or hold little of it.
- EncodeData: the authentication tag and nonce are trailing octets of fixed length with no meaning.
- Eventual delivery, which would need fairness of the network and of the timers: progress is stated as an armed timer whose firing transmits.
