# A verified model of the BBR sender

This project models the sender side of a small QUIC-like transport: the manager of sent packets with its loss detection, the
bandwidth sampler, the congestion controllers BBRv1 and BBRv2, the containers they rest on, the round-trip estimator and the
text form of a packet. What the code changes in place is a class here; each class is proved, method by method, to do the
steps of a state machine on values, and the properties are proved of every run of that state machine. Methods that only
mirror one such step are not listed under "Model"; the functions and lemmas about the step are.

| file | holds |
|---|---|
| `Base.dfy`, `Gains.dfy`, `Samples.dfy` | constants, exact gains, what the sampler hands to a controller |
| `RttStats.dfy` | the round-trip estimator |
| `UnackedPackets.dfy`, `LossDetection.dfy`, `SentPacketManager.dfy` | packet map, loss algorithm and manager as objects |
| `SendEngine.dfy`, `EngineRuns.dfy`, `EngineLaws.dfy` | the state machine of sends, acks, alarms and timeouts, its runs, and the runs against their own events |
| `PacketNumberQueue.dfy`, `CircularDeque.dfy`, `WindowedFilter.dfy`, `FilterExactness.dfy` | containers |
| `AckPoints.dfy`, `BandwidthSampler.dfy`, `SamplerPruning.dfy`, `SamplerHistory.dfy` | the pruned log of ack points, the sampler, the two together, and the sampler against a log of what happened |
| `Bbr2Model.dfy`, `Bbr2Modes.dfy`, `Bbr2Invariants.dfy`, `Bbr2Runs.dfy`, `Bbr2Laws.dfy`, `Bbr2Sender.dfy` | BBRv2: network model, modes, what each step keeps, runs, laws of every event, object |
| `Bbr1.dfy`, `Bbr1Runs.dfy`, `Bbr1Laws.dfy`, `BbrSender.dfy` | BBRv1: steps, runs, laws of every event, object |
| `PacketText.dfy` | printer and parser |

## What the callers are assumed to do

- The clock is positive and does not run backwards. Packet numbers increase; gaps are allowed.
- An ack frame names packets that are still recorded, in order. It may name packets that are no longer in flight: the code
  does not filter them, so the model follows what it does with them. Byte conservation then has an exact error term;
  `EngineRuns.BooksBalanceExactly` says for which runs it is zero, and `SendEngine.DuplicateAckBreaksTheBooks` shows one for
  which it is not.
- An ack frame that acknowledges nothing comes only after one that acknowledged something; before that the code would
  compare packet numbers with an uninitialised one.
- Random picks, the ack-height tracker's answers and, for the two controllers, the sampler's samples are arbitrary inputs.
  The random picks are below their limits and round-trip samples are positive.
- Integers are unbounded, except where a 64-bit word is part of the behaviour: the sum of window and ack height, the
  queuing threshold, `BytesInFlight`, the sentinels for "unset" and "infinite", and the printed words.
- Gains are exact ratios. The code holds them as single-precision floats.

## Where the code and its comments disagree

- `chrome_windowed_filter.h:85-98` speaks of a quarter and a half of the window, but the code tests for more than 0 and more
  than 1 time unit. The model follows the code. The filter is an approximation under either rule:
  `FilterExactness.ReportsTheMaximumIff` says exactly when it reports the largest sample of the window under the code's, and
  `WindowedFilter.CanMissTheWindowMaximum` gives histories for which it does not.
- `bbr2_probe_bw.cc:362-365` computes a term of the queuing threshold and drops it. The model follows the code: the threshold
  is two segments and the ack height.
- `bandwidth_sampler.h:63-67` says that a snapshot's in-flight bytes equal sent less acked, lost and neutered bytes. That is
  true exactly under the conditions of `EngineRuns.SnapshotBalancesIff`; `EngineRuns.GivenUpBytesUnbalanceTheNext` is a run
  without them.
- `general_loss_algorithm.cc` with its shift of 2 waits a quarter of a round trip, where section 6.1.2 of RFC 9002
  recommends an eighth.
- RTT smoothing rounds twice, so the average can leave the range of the samples, by one microsecond and upward only
  (`RttEstimation.LeavesTheRangeIff` and `HistoryLeavesTheRangeIff` say when; two samples of 4 are the smallest case).

## Model

| member | source | states |
|---|---|---|
| `SendEngine.BytesAreConserved` | bbr_chrome/src/quic/quic_sent_packet_manager.cc:63-178 | In every run, acked + lost + in flight + given up by timeouts equals sent plus the bytes of acks that named a packet no longer in flight; so the books balance exactly when there were none; the map's totals are the sum and the count over its entries |
| `SendEngine.EveryStateIsSound` | bbr_chrome/src/quic/quic_sent_packet_manager.cc:63-178 | In every state of every run: in flight exactly when OUTSTANDING; nothing below the cached `least_in_flight_` in flight; an armed alarm belongs to a packet in flight that an ack has passed; without timeouts and duplicates every held snapshot has in-flight = sent - acked - lost |
| `SendEngine.EveryAckDetectsExactly` | bbr_chrome/src/congestion_control/general_loss_algorithm.cc:33-137 | In every run, detection after an ack frame reports, ascending, exactly the in-flight packets at or below the largest newly acked that meet a threshold, and its timeout is the earliest deadline of the rest. In numbers: a reported packet is 3 or more behind the largest newly acked, or its age is more than five quarters of the longest of 1 ms, the previous average and the latest round trip; no other is; the alarm stands at five quarters, rounded down |
| `SendEngine.EveryAlarmDetectsExactly` | bbr_chrome/src/congestion_control/general_loss_algorithm.cc:33-137 | The same, in the same numbers, for detection when the loss alarm fires, at any time |
| `SendEngine.DetectionIsExact` | bbr_chrome/src/congestion_control/general_loss_algorithm.cc:63-136 | In every state in which detection may be invoked the report and the alarm are exact, by 3 packets and five quarters of a round trip |
| `EngineLaws.EveryEventMeasures` | bbr_chrome/src/quic/quic_sent_packet_manager.cc:192-221 | In every run an event measures a round trip exactly if it is an ack whose largest packet is still in flight, and then from the send of that packet in the run, which is unique, to the ack; the minimum is the smaller, the average seven eighths old and one eighth new |
| `EngineLaws.EveryAckIsSampledFromTheLog` | bbr_chrome/src/congestion_control/bandwidth_sampler.cc:236-329 | In every run of the engine the totals, the held snapshots and the sample of every acked packet are read from the log of the run's sends, acks and losses |
| `EngineLaws.StepKeepsRecord` | bbr_chrome/src/quic/quic_unacked_packet_map.cc:125-154 | Every entry of the map that is not a gap carries the time and size with which the packet was sent in the run; no number is used twice |
| `SendEngine.AlarmMakesProgress` | bbr_chrome/src/quic/quic_sent_packet_manager.cc:223-233 | An alarm that fires at or after its time declares lost the packet it was set for, so fewer packets are in flight |
| `SendEngine.AlarmsAreBounded` | bbr_chrome/src/quic/quic_connection_stats.h:89-91 | Alarms that follow each other and are due cannot outnumber the packets in flight |
| `SendEngine.StepKeepsInv` | bbr_chrome/src/quic/quic_sent_packet_manager.cc:63-271 | Send, ack frame, loss alarm and retransmission timeout all keep the whole invariant |
| `SendEngine.SaturationNeedsDuplicates` | bbr_chrome/src/congestion_control/bbr2_misc.cc:123-134 | For an ack frame, the saturating branch is avoided exactly when the duplicates of the frame are at most what is left in flight, and the figure computed is the map's exactly when there are no duplicates or nothing is left |
| `SendEngine.AckOfLandedPacketCountsTwice` | bbr_chrome/src/quic/quic_sent_packet_manager.cc:146-162 | An ack of a recorded packet that is no longer in flight is accepted and its bytes are counted a second time |
| `SendEngine.DuplicateAckBreaksTheBooks` | bbr_chrome/src/quic/quic_sent_packet_manager.cc:180-184 | A run of two sends and two acks of the second packet after which more is acked and in flight than was sent |
| `SendEngine.NoSaturationOnAlarms` | bbr_chrome/src/congestion_control/bbr2_misc.cc:123-134 | On a loss alarm the saturating branch is never taken and the figure is the map's |
| `EngineRuns.BooksBalanceExactly` | bbr_chrome/src/quic/quic_sent_packet_manager.cc:63-178 | The books of a run balance without an error term exactly when every ack named only packets in flight, or skipped numbers, when it arrived |
| `EngineRuns.RunDuplicates` | bbr_chrome/src/quic/quic_sent_packet_manager.cc:117-162 | From any state the duplicates grow exactly when some ack was not fresh |
| `EngineRuns.EveryAckSweepsTheMap` | bbr_chrome/src/quic/quic_sent_packet_manager.cc:164-178 | A run that ends in an ack frame naming a packet ends with an empty map or a front entry in flight |
| `EngineRuns.ConsecutiveRunsAreSwept` | bbr_chrome/src/packet/packet_maker.cc:16-26 | For packets numbered 1, 2, 3 and so on the same holds in every state of every run |
| `EngineRuns.EveryStateIsSwept` | bbr_chrome/src/quic/quic_unacked_packet_map.cc:125-154 | The same for any numbering in which a send that finds the map empty takes the next number |
| `EngineRuns.StepNext` | bbr_chrome/src/quic/quic_unacked_packet_map.cc:125-154 | Only a send changes the number that comes next |
| `EngineRuns.SnapshotBalancesIff` | bbr_chrome/src/congestion_control/bandwidth_sampler.h:63-67 | After a run in which timeouts gave nothing up the next snapshot has in-flight = sent - acked - lost exactly when every ack was fresh; after one with fresh acks, exactly when timeouts gave nothing up |
| `EngineRuns.GivenUpBytesUnbalanceTheNext` | bbr_chrome/src/congestion_control/bandwidth_sampler.h:63-67 | A run, send then timeout, after which the snapshot of the next send does not balance |
| `EngineRuns.RunGivesUp` | bbr_chrome/src/quic/quic_sent_packet_manager.cc:241-262 | From any state bytes are given up exactly when a retransmission timeout finds some in flight |
| `EngineRuns.StepSweeps` | bbr_chrome/src/quic/quic_sent_packet_manager.cc:63-271 | An ack frame naming a packet sweeps the map; every other event keeps a swept map swept |
| `SendEngine.FinishingKeeps` | bbr_chrome/src/quic/quic_sent_packet_manager.cc:164-178 | After a congestion event the front entry is in flight or the map is empty; totals move by exactly the acked and lost bytes |
| `SendEngine.LostPacketsAreForgotten` | bbr_chrome/src/quic/quic_sent_packet_manager.cc:79-115 | Every packet declared lost is swept out of the map within the same event |
| `SendEngine.RtoEmptiesTheMap` | bbr_chrome/src/quic/quic_sent_packet_manager.cc:241-262 | After a retransmission timeout the map is empty, nothing is in flight, and `least_unacked` is the largest sent plus one |
| `SendEngine.CreditMatchesMap` | bbr_chrome/src/congestion_control/bandwidth_sampler.cc:236-258 | The bytes the sampler credits for a list of acks are the bytes the map records for them |
| `SendEngine.LostBytesMatchMap` | bbr_chrome/src/quic/quic_sent_packet_manager.cc:100-115 | The bytes reported lost are exactly the in-flight bytes of the lost packets |
| `SentPacketManager.QuicSentPacketManager.OnPacketSent` | bbr_chrome/src/quic/quic_sent_packet_manager.cc:63-77 | Does the Send step of the state machine on the four objects |
| `SentPacketManager.QuicSentPacketManager.MaybeUpdateRTT` | bbr_chrome/src/quic/quic_sent_packet_manager.cc:192-221 | Takes a round-trip sample exactly when the packet is unacked and has a send time |
| `SentPacketManager.QuicSentPacketManager.OnAckFrameStart` | bbr_chrome/src/quic/quic_sent_packet_manager.cc:187-191 | Records whether the frame gave a round-trip sample |
| `SentPacketManager.QuicSentPacketManager.OnAckRange` | bbr_chrome/src/quic/quic_sent_packet_manager.cc:180-184 | Appends the packet to the list of acked packets, unfiltered |
| `SentPacketManager.QuicSentPacketManager.MarkPacketsHandled` | bbr_chrome/src/quic/quic_sent_packet_manager.cc:117-162 | Takes every listed packet out of flight and marks it acked |
| `SentPacketManager.QuicSentPacketManager.MarkPacketsLost` | bbr_chrome/src/quic/quic_sent_packet_manager.cc:100-115 | Takes every lost packet out of flight and marks it never sent |
| `SentPacketManager.QuicSentPacketManager.DetectAndMarkLosses` | bbr_chrome/src/quic/quic_sent_packet_manager.cc:100-115 | Detection by the loss algorithm object followed by the marking equals the step stated with the plain scan |
| `SentPacketManager.QuicSentPacketManager.InvokeLossDetection` | bbr_chrome/src/quic/quic_sent_packet_manager.cc:100-115 | The same, after the largest newly acked packet is taken from the list |
| `SentPacketManager.QuicSentPacketManager.MaybeInvokeCongestionEvent` | bbr_chrome/src/quic/quic_sent_packet_manager.cc:164-178 | Tells the sampler, cleans the map and empties both lists |
| `SentPacketManager.QuicSentPacketManager.HandleAckedPackets` | bbr_chrome/src/quic/quic_sent_packet_manager.cc:117-162 | Reverses the list and handles each packet |
| `SentPacketManager.QuicSentPacketManager.PostProcessNewlyAckedPackets` | bbr_chrome/src/quic/quic_sent_packet_manager.cc:79-98 | Loss detection and the congestion event |
| `SentPacketManager.QuicSentPacketManager.OnAckFrameEnd` | bbr_chrome/src/quic/quic_sent_packet_manager.cc:117-144 | Completes the Ack step begun in an earlier state |
| `SentPacketManager.QuicSentPacketManager.OnAckFrame` | bbr_chrome/src/quic/quic_sent_packet_manager.cc:117-191 | A whole frame, ranges in descending order, is the Ack step |
| `SentPacketManager.QuicSentPacketManager.AbandonOutstandingPackets` | bbr_chrome/src/quic/quic_sent_packet_manager.cc:241-262 | The loop that gives up every outstanding packet |
| `SentPacketManager.QuicSentPacketManager.RetransmitRtoPackets` | bbr_chrome/src/quic/quic_sent_packet_manager.cc:241-262 | The retransmission-timeout step |
| `SentPacketManager.QuicSentPacketManager.OnRetransmissionTimeout` | bbr_chrome/src/quic/quic_sent_packet_manager.cc:223-240 | The Timeout step: a loss alarm when one is armed, otherwise the retransmission timeout |
| `UnackedPackets.AddSentKeepsInv` | bbr_chrome/src/quic/quic_unacked_packet_map.cc:125-154 | Recording a packet, with gaps for skipped numbers, keeps in flight = OUTSTANDING, the totals, and the end at the largest sent |
| `UnackedPackets.SettleKeepsInv` | bbr_chrome/src/quic/quic_unacked_packet_map.cc:183-197 | Taking a packet out of flight keeps the same and moves the totals by exactly that packet |
| `UnackedPackets.SettleAllChanges` | bbr_chrome/src/quic/quic_sent_packet_manager.cc:117-162 | Settling a list changes exactly the entries it names |
| `UnackedPackets.SettleAllBytes` | bbr_chrome/src/quic/quic_unacked_packet_map.cc:183-191 | Settling distinct packets takes exactly their in-flight bytes out of the total |
| `UnackedPackets.DropObsoleteKeepsInv` | bbr_chrome/src/quic/quic_unacked_packet_map.cc:336-370 | The clean-up drops no packet in flight and leaves the front in flight or the map empty |
| `UnackedPackets.UnackedPacketMap.constructor` | bbr_chrome/src/quic/quic_unacked_packet_map.cc:109-121 | An empty map starting at packet 1 |
| `UnackedPackets.UnackedPacketMap.AddSentPacket` | bbr_chrome/src/quic/quic_unacked_packet_map.cc:125-154 | The loop of gaps and the new entry |
| `UnackedPackets.UnackedPacketMap.RemoveFromInFlight` | bbr_chrome/src/quic/quic_unacked_packet_map.cc:183-197 | Only a packet in flight changes the totals |
| `UnackedPackets.UnackedPacketMap.SetPacketState` | bbr_chrome/src/quic/quic_unacked_packet_map.cc:208-211 | Changes one entry's state and nothing else |
| `UnackedPackets.UnackedPacketMap.RemoveObsoletePackets` | bbr_chrome/src/quic/quic_unacked_packet_map.cc:336-345 | Drops exactly the longest useless prefix |
| `LossDetection.DetectReports` | bbr_chrome/src/congestion_control/general_loss_algorithm.cc:81-134 | The plain scan reports every lost packet and no other, ascending, and the earliest remaining deadline |
| `LossDetection.LossesAreAPrefix` | bbr_chrome/src/congestion_control/general_loss_algorithm.cc:81-130 | A lost packet makes every earlier in-flight packet lost |
| `LossDetection.SurvivorEndsScan` | bbr_chrome/src/congestion_control/general_loss_algorithm.cc:115-126 | Nothing after the first surviving packet is lost: the early break is sound |
| `LossDetection.NothingToDetect` | bbr_chrome/src/congestion_control/general_loss_algorithm.cc:43-53 | When every packet from the cached start to the largest was acked the plain scan finds nothing: the fast path is sound |
| `LossDetection.SkipLanded` | bbr_chrome/src/congestion_control/general_loss_algorithm.cc:65-79 | Starting at the cached packet number finds what starting at the front finds |
| `LossDetection.GeneralLossAlgorithm.AdvanceLeastInFlight` | bbr_chrome/src/congestion_control/general_loss_algorithm.cc:43-61 | Moves the cached start exactly as far as the acked packets run on from it, and past none in flight |
| `LossDetection.GeneralLossAlgorithm.ScanFrom` | bbr_chrome/src/congestion_control/general_loss_algorithm.cc:65-134 | The loop with its early break computes the losses, the deadline and the next start of the plain scan from there |
| `LossDetection.GeneralLossAlgorithm.DetectLosses` | bbr_chrome/src/congestion_control/general_loss_algorithm.cc:33-137 | Cached start, fast path and early break together give the plain scan's result; with threshold 3 and shift 2 a packet is reported exactly when it is 3 or more behind the largest newly acked or late by more than a quarter of the longest round trip, and the alarm stands at the earliest such deadline of the rest |
| `LossDetection.DetectsByTheThresholds` | bbr_chrome/src/congestion_control/general_loss_algorithm.cc:81-134 | The report and the alarm in numbers: 3 packets, five quarters of the longest round trip, rounded down to the microsecond |
| `LossDetection.GeneralLossAlgorithm.Reset` | bbr_chrome/src/congestion_control/general_loss_algorithm.cc:181-184 | Clears the alarm and the cached start |
| `RttEstimation.SmoothedStaysInRange` | bbr_chrome/src/congestion_control/rtt_stats.cc:38-84 | For every history the smoothed value lies between the smallest adjusted sample and the largest plus one microsecond, is never zero again, and the latest sample is never below the minimum |
| `RttEstimation.LeavesTheRangeIff` | bbr_chrome/src/congestion_control/rtt_stats.cc:62-83 | One update leaves the range of average and sample exactly when they are equal and 4 modulo 8, by one microsecond upward |
| `RttEstimation.HistoryLeavesTheRangeIff` | bbr_chrome/src/congestion_control/rtt_stats.cc:38-84 | Over any history the average stands above the bound of the samples exactly when it had come up to it, the last sample is the bound, and the bound is 4 modulo 8 |
| `RttEstimation.MaxRtt` | bbr_chrome/src/congestion_control/general_loss_algorithm.cc:25-28 | The largest of the alarm granularity, the previous smoothed and the latest round trip |
| `RttEstimation.AcceptedMeasurement` | bbr_chrome/src/congestion_control/rtt_stats.cc:38-84 | One accepted call: the first sample is the average; a later one is weighed in at seven eighths old and one eighth new, to within rounding; the sample is the delay less the peer's ack delay exactly where that leaves no less than the minimum |
| `RttEstimation.MinimumIsTheLeastDelay` | bbr_chrome/src/congestion_control/rtt_stats.cc:49-53 | Over every history the minimum is the least delay reported |
| `RttEstimation.RepeatedSamplesDrawTheAverage` | bbr_chrome/src/congestion_control/rtt_stats.cc:76-83 | Samples of one value, repeated, take the distance of the average from it down by an eighth each time, to within rounding |
| `RttEstimation.RttStats.UpdateRtt` | bbr_chrome/src/congestion_control/rtt_stats.cc:38-84 | Does one update: the average becomes seven eighths of the old one and one eighth of the sample, to within rounding |
| `PacketNumberQueue.PacketNumberIndexedQueue.constructor` | bbr_chrome/src/quic/packet_number_indexed_queue.h:41-41 | An empty queue is the empty map with no high-water mark |
| `PacketNumberQueue.PacketNumberIndexedQueue.Emplace` | bbr_chrome/src/quic/packet_number_indexed_queue.h:145-173 | Succeeds exactly when the number is initialised and the queue is empty or the number is above the mark; then the map gains the entry |
| `PacketNumberQueue.PacketNumberIndexedQueue.Remove` | bbr_chrome/src/quic/packet_number_indexed_queue.h:175-196 | Succeeds exactly when the entry is present; then the map loses it |
| `PacketNumberQueue.PacketNumberIndexedQueue.RemoveUpTo` | bbr_chrome/src/quic/packet_number_indexed_queue.h:198-209 | The map keeps exactly the entries at or above the number |
| `PacketNumberQueue.PacketNumberIndexedQueue.PopUpTo` | bbr_chrome/src/quic/packet_number_indexed_queue.h:198-209 | The loop pops a prefix, keeps the count of present entries true and reaches the number or the end |
| `PacketNumberQueue.PacketNumberIndexedQueue.Cleanup` | bbr_chrome/src/quic/packet_number_indexed_queue.h:211-220 | Restores: first slot present, no present entry exactly when the deque is empty, map unchanged |
| `PacketNumberQueue.PacketNumberIndexedQueue.GetEntry` | bbr_chrome/src/quic/packet_number_indexed_queue.h:125-142 | Looks the number up in the map; an uninitialised number finds nothing |
| `PacketNumberQueue.PacketNumberIndexedQueue.LastPacket` | bbr_chrome/src/quic/packet_number_indexed_queue.h:86-91 | Is the high-water mark |
| `PacketNumberQueue.PacketNumberIndexedQueue.IsEmpty` | bbr_chrome/src/quic/packet_number_indexed_queue.h:69-69 | Holds exactly when the map is empty |
| `AckPoints.ChooseIsLastAtOrBelow` | bbr_chrome/src/congestion_control/bandwidth_sampler.cc:331-356 | The chosen candidate is the last at or below the key, or the first if none is |
| `AckPoints.RecentPointsAre` | bbr_chrome/src/congestion_control/bandwidth_sampler.h:350-365 | Of acks in order of time the newer recent point is the last, and the older the last of an earlier time |
| `AckPoints.PrunedChoice` | bbr_chrome/src/congestion_control/bandwidth_sampler.cc:331-356 | Dropping a prefix leaves the choice unchanged exactly when the key is at or above the first candidate kept |
| `AckPoints.QueryAgrees` | bbr_chrome/src/congestion_control/bandwidth_sampler.cc:331-356 | A query on the pruned log answers, and prunes to, what the whole log gives |
| `AckPoints.PruningIsInvisible` | bbr_chrome/src/congestion_control/bandwidth_sampler.cc:331-356 | For all runs of additions and queries with nondecreasing keys the pruned log answers as the whole log does |
| `AckPoints.CandidatesBelowTotal` | bbr_chrome/src/congestion_control/bandwidth_sampler.cc:213-234 | No candidate is above the bytes acked, so the subtraction for the ack rate cannot underflow |
| `BandwidthSampling.EventKeepsInv` | bbr_chrome/src/congestion_control/bandwidth_sampler.cc:142-211 | One event keeps the sampler's invariant, keeps the snapshots, and moves the totals by exactly the credited and lost bytes |
| `BandwidthSampling.SentKeepsInv` | bbr_chrome/src/congestion_control/bandwidth_sampler.cc:96-140 | A send keeps snapshots below the totals and in packet order, and candidates sorted |
| `BandwidthSampling.CreditedKeepsInv` | bbr_chrome/src/congestion_control/bandwidth_sampler.cc:250-273 | Crediting a packet keeps the invariant and the start point at or below the new total |
| `SamplerPruning.PruningNeverShows` | bbr_chrome/src/congestion_control/bandwidth_sampler.cc:331-356 | For every run of the sampler in which packets are acked in ascending order, all event samples are those of a sampler that keeps the whole log of candidates |
| `SamplerPruning.EventAgrees` | bbr_chrome/src/congestion_control/bandwidth_sampler.cc:142-234 | One event reports the same with and without pruning, and leaves the pruned log behind the keys to come |
| `SamplerPruning.AckOneAgrees` | bbr_chrome/src/congestion_control/bandwidth_sampler.cc:250-329 | One ack gives the same sample with and without pruning |
| `BandwidthSampling.AckAllCredits` | bbr_chrome/src/congestion_control/bandwidth_sampler.cc:142-211 | A list of acks adds exactly the sizes of its tracked packets to the total |
| `BandwidthSampling.SampleIsTheSmallerSlope` | bbr_chrome/src/congestion_control/bandwidth_sampler.cc:275-329 | There is a sample exactly when the packet knew of an ack and this ack is later than the start point; it is the largest rate within both the ack slope and the send slope |
| `BandwidthSampling.EventReportsTheBestSample` | bbr_chrome/src/congestion_control/bandwidth_sampler.cc:167-189 | The event's bandwidth is the largest among its packets' valid samples, and the event is app limited exactly if the first sample as large was |
| `BandwidthSampling.EventReportsTheLeastRtt` | bbr_chrome/src/congestion_control/bandwidth_sampler.cc:167-189 | The event's round trip is the least among its packets' valid samples, zeros apart; infinite when there is none |
| `BandwidthSampling.EventReportsTheMostInflight` | bbr_chrome/src/congestion_control/bandwidth_sampler.cc:167-189 | The event's inflight is the most that was acked between the send and the ack of one of its packets |
| `BandwidthSampling.EventReportsTheLastState` | bbr_chrome/src/congestion_control/bandwidth_sampler.cc:167-189 | The send state of the acks is that of the last valid sample |
| `BandwidthSampling.EventReports` | bbr_chrome/src/congestion_control/bandwidth_sampler.cc:142-211 | The report of an event: best bandwidth, least round trip, most inflight; the send state of the larger of the last lost and the last acked packet; the ack height only when bytes were acked |
| `SamplerHistory.EveryRunAgrees` | bbr_chrome/src/congestion_control/bandwidth_sampler.cc:96-140 | In every run of sends, acks, losses and application limits the totals are the sums over the log; every snapshot held carries the totals at its send, whether the sender was app limited then, and the send time, ack time and total sent at its send of the last packet acked before, or its own when nothing was in flight |
| `SamplerHistory.EverySampleIsReadFromTheLog` | bbr_chrome/src/congestion_control/bandwidth_sampler.cc:236-329 | In every run the sample of every acked packet is the smaller of two slopes read from the log: bytes acked since the last ack before the packet was sent over the time since that ack, and bytes sent since the packet behind that ack over the time between the two sends. When overestimates are avoided the first slope starts at a point of the curve of bytes acked |
| `SamplerHistory.SendAgrees` | bbr_chrome/src/congestion_control/bandwidth_sampler.cc:96-140 | A send keeps sampler and log in agreement |
| `SamplerHistory.CreditAgrees` | bbr_chrome/src/congestion_control/bandwidth_sampler.cc:250-273 | So does an ack of a tracked packet |
| `SamplerHistory.SampleIsReadFromTheLog` | bbr_chrome/src/congestion_control/bandwidth_sampler.cc:275-329 | From any state that agrees with a log, one packet's sample is read from that log |
| `SamplerHistory.EventPrunesAndAdds` | bbr_chrome/src/congestion_control/bandwidth_sampler.cc:213-234 | An event prunes the candidates from the front, and adds one, on the curve of bytes acked, exactly when overestimates are avoided, bytes were acked and no extra bytes were |
| `SamplerHistory.AcksCurve` | bbr_chrome/src/congestion_control/bandwidth_sampler.cc:213-273 | Every candidate for a start point is on the curve of bytes acked |
| `BandwidthSampling.BandwidthSampler.OnPacketSent` | bbr_chrome/src/congestion_control/bandwidth_sampler.cc:96-140 | A send keeps snapshots below the totals and in packet order, and candidates sorted |
| `BandwidthSampling.BandwidthSampler.OnPacketLost` | bbr_chrome/src/congestion_control/bandwidth_sampler.cc:358-373 | Adds the lost bytes and returns the packet's send state |
| `BandwidthSampling.BandwidthSampler.ChooseA0Point` | bbr_chrome/src/congestion_control/bandwidth_sampler.cc:331-356 | The loop chooses the candidate and prunes those before it |
| `BandwidthSampling.BandwidthSampler.Credit` | bbr_chrome/src/congestion_control/bandwidth_sampler.cc:254-273 | An acked packet is added to the total, and its send time, its ack time and the total sent at its send are what later packets start from; the invariant is kept, and the start point of its slope stays at or below the new total |
| `BandwidthSampling.BandwidthSampler.MaybeExitAppLimited` | bbr_chrome/src/congestion_control/bandwidth_sampler.cc:263-273 | An app-limited phase ends when its end is not set or a later packet is acked |
| `BandwidthSampling.BandwidthSampler.MakeSample` | bbr_chrome/src/congestion_control/bandwidth_sampler.cc:275-329 | The sample and the pruned candidates |
| `BandwidthSampling.BandwidthSampler.OnPacketAcknowledged` | bbr_chrome/src/congestion_control/bandwidth_sampler.cc:236-329 | Untracked packets give no sample |
| `BandwidthSampling.BandwidthSampler.LoseEach` | bbr_chrome/src/congestion_control/bandwidth_sampler.cc:151-159 | The loop over lost packets |
| `BandwidthSampling.BandwidthSampler.AckEach` | bbr_chrome/src/congestion_control/bandwidth_sampler.cc:167-189 | The loop over acked packets |
| `BandwidthSampling.BandwidthSampler.OnCongestionEvent` | bbr_chrome/src/congestion_control/bandwidth_sampler.cc:142-211 | The whole event: new state, invariant kept, and the sample reports the best bandwidth, the least round trip and the most inflight among the packets' samples |
| `BandwidthSampling.BandwidthSampler.OnAckEventEnd` | bbr_chrome/src/congestion_control/bandwidth_sampler.cc:213-234 | Records the acked total and adds a candidate |
| `BandwidthSampling.BandwidthSampler.OnAppLimited` | bbr_chrome/src/congestion_control/bandwidth_sampler.cc:382-385 | Starts an app-limited phase; invariant kept |
| `BandwidthSampling.BandwidthSampler.RemoveObsoletePackets` | bbr_chrome/src/congestion_control/bandwidth_sampler.cc:387-394 | Forgets the snapshots below the number; invariant kept |
| `BandwidthSampling.BandwidthSampler.EnableOverestimateAvoidance` | bbr_chrome/src/congestion_control/bandwidth_sampler.cc:85-92 | Switches the candidate list on; invariant kept |
| `Bbr2Runs.EveryEventSettles` | bbr_chrome/src/congestion_control/bbr2_sender.cc:137-156 | In every run every event's mode loop ends with a mode that proposes itself, after at most three changes; the limit of four is never reached |
| `Bbr2Runs.ModeLoopSettles` | bbr_chrome/src/congestion_control/bbr2_sender.cc:137-156 | The same from any state of the loop, with the changes bounded by a measure of the mode and phase |
| `Bbr2Runs.EveryRunGuarantees` | bbr_chrome/src/congestion_control/bbr2_probe_bw.cc:32-73 | In every run: no lower bounds in STARTUP, REFILL and UP; window within its limits; upward steps paid for by acks, at one MSS or more per step and shift at most 30; one `Advance` per finished PROBE_DOWN; STARTUP exactly while full bandwidth is not reached; PROBE_RTT only with phase CRUISE or REFILL |
| `Bbr2Runs.EventKeepsInv` | bbr_chrome/src/congestion_control/bbr2_sender.cc:112-170 | A congestion event keeps the invariant and never enters STARTUP |
| `Bbr2Runs.SentKeepsInv` | bbr_chrome/src/congestion_control/bbr2_sender.cc:259-310 | Sending, with leaving quiescence, keeps the invariant, the window and the rate |
| `Bbr2Runs.EventPaysForItsWindow` | bbr_chrome/src/congestion_control/bbr2_sender.cc:235-252 | The window grows by at most the bytes acked and is at most the larger of the smallest window and the limit of the mode the event ended in |
| `Bbr2Runs.NewCwndWithin` | bbr_chrome/src/congestion_control/bbr2_sender.cc:93-106 | The new window is at most the larger of the limit of the mode and the smallest window, and at most the bytes acked above the old one |
| `Bbr2Runs.EveryRunProbesInTime` | bbr_chrome/src/congestion_control/bbr2_probe_bw.cc:211-270 | In every run, in PROBE_DOWN and PROBE_CRUISE, fewer than 63 rounds have gone by since the last probe |
| `Bbr2Runs.PhaseProbesInTime` | bbr_chrome/src/congestion_control/bbr2_probe_bw.cc:211-270 | After the update of any phase the next probe is due within 63 rounds |
| `Bbr2Runs.WindowGrowsByAcksOnly` | bbr_chrome/src/congestion_control/bbr2_sender.cc:235-252 | In every run the window is at most the initial one plus all bytes acked |
| `Bbr2Runs.StartupNeverShrinks` | bbr_chrome/src/congestion_control/bbr2_sender.cc:202-252 | Along every run still in STARTUP the window never shrank and the pacing rate never fell after the first ack |
| `Bbr2Runs.StartupEventNeverShrinks` | bbr_chrome/src/congestion_control/bbr2_sender.cc:202-252 | The same for one event |
| `Bbr2Runs.StartupIsFinite` | bbr_chrome/src/congestion_control/bbr2_startup.cc:38-90 | With a baseline of 2 bit/s or more and bandwidth within a bound, only a computable number of non-app-limited rounds fits into STARTUP |
| `Bbr2Model.GrowthUsesUpRounds` | bbr_chrome/src/congestion_control/bbr2_misc.cc:377-402 | The measure behind it falls in a non-app-limited round exactly unless bandwidth is stuck at a baseline of at most 1 bit/s |
| `Bbr2Invariants.TurnKeeps` | bbr_chrome/src/congestion_control/bbr2_sender.cc:140-151 | One turn of the loop keeps the invariant and either stays or lowers the measure of mode changes left |
| `Bbr2Invariants.ProbeBwKeeps` | bbr_chrome/src/congestion_control/bbr2_probe_bw.cc:32-73 | PROBE_BW stays or gives way to PROBE_RTT, and that only as PROBE_DOWN ends in CRUISE or REFILL |
| `Bbr2Invariants.ProbeRttKeeps` | bbr_chrome/src/congestion_control/bbr2_probe_rtt.cc:11-34 | PROBE_RTT stays put right after it is entered |
| `Bbr2Invariants.StartupKeeps` | bbr_chrome/src/congestion_control/bbr2_startup.cc:38-113 | STARTUP proposes DRAIN exactly when full bandwidth is reached |
| `Bbr2Invariants.DrainKeeps` | bbr_chrome/src/congestion_control/bbr2_drain.cc:10-32 | DRAIN stays or proposes PROBE_BW |
| `Bbr2Invariants.ProbeUpwardKeeps` | bbr_chrome/src/congestion_control/bbr2_probe_bw.cc:272-317 | Raising `inflight_hi` keeps raised + pending bytes within the bytes acked since REFILL |
| `Bbr2Invariants.UpwardStepIsPaid` | bbr_chrome/src/congestion_control/bbr2_probe_bw.cc:299-312 | Segments added plus the remainder never exceed the bytes that paid for them |
| `Bbr2Invariants.UpdateDownKeeps` | bbr_chrome/src/congestion_control/bbr2_probe_bw.cc:97-144 | PROBE_DOWN ends in CRUISE or REFILL with the filter advanced exactly once |
| `Bbr2Invariants.UpdateUpKeeps` | bbr_chrome/src/congestion_control/bbr2_probe_bw.cc:338-375 | PROBE_UP keeps the invariant on each of its ways out |
| `Bbr2Invariants.LeftDownKeeps` | bbr_chrome/src/congestion_control/bbr2_probe_bw.cc:451-456 | Leaving PROBE_DOWN evens up visits and advances of the filter |
| `Bbr2Invariants.AdaptUpperBoundsChanges` | bbr_chrome/src/congestion_control/bbr2_probe_bw.cc:146-209 | Adapting the upper bound touches only that bound and one flag |
| `Bbr2Laws.EveryStepObeys` | bbr_chrome/src/congestion_control/bbr2_sender.cc:112-310 | In every run: each event takes its sample in, turns the mode loop at most three times and sets rate and window by laws stated in numbers, with the exact condition of every transition; afterwards the pacing gain is 2885/1000 in STARTUP, 1000/2885 in DRAIN, 1 in PROBE_RTT and, in PROBE_BW, 5/4 in UP, 3/4 in DOWN and 1 in CRUISE and REFILL; once bytes were acked the rate is above the estimate in UP from 2 bit/s on, below it in DOWN from 3 bit/s on and in DRAIN, and the estimate elsewhere at full bandwidth; the minimum round trip is one of the samples, none since is smaller, and a larger one comes only after 200 ms |
| `Bbr2Laws.EventSums` | bbr_chrome/src/congestion_control/bbr2_sender.cc:112-170 | The same for one event from any state |
| `Bbr2Laws.EventObeys` | bbr_chrome/src/congestion_control/bbr2_sender.cc:112-170 | Every event obeys the laws of sample, turns, rate and window |
| `Bbr2Laws.LoopGears` | bbr_chrome/src/congestion_control/bbr2_sender.cc:137-156 | Whatever turns the mode loop takes, it ends with the gains of the mode and phase it ends in |
| `Bbr2Laws.FinishPaces` | bbr_chrome/src/congestion_control/bbr2_sender.cc:202-233 | At full bandwidth the rate is above the estimate in UP exactly from 2 bit/s on, below it in DOWN exactly from 3 bit/s on, always below it in DRAIN, and equal to it in CRUISE, REFILL and PROBE_RTT |
| `Bbr2Laws.LoopKeepsTrips` | bbr_chrome/src/congestion_control/bbr2_misc.cc:298-311 | The minimum stays one of the round trips on record with none smaller since; it grows only after 200 ms or when it has no time |
| `Bbr2Laws.StartObeys` | bbr_chrome/src/congestion_control/bbr2_misc.cc:80-260 | What an event does before the mode loop: rounds, totals, losses, the two bandwidth slots, the minimum, latest values, and lower bounds of seven tenths after a round with losses that was not probing |
| `Bbr2Laws.TurnObeys` | bbr_chrome/src/congestion_control/bbr2_sender.cc:140-151 | One turn of the loop: each mode and phase moves on exactly under its stated conditions |
| `Bbr2Laws.PhaseObeys` | bbr_chrome/src/congestion_control/bbr2_probe_bw.cc:97-375 | One step of each phase of PROBE_BW, with its exact condition to move on |
| `Bbr2Laws.UpperBoundObeys` | bbr_chrome/src/congestion_control/bbr2_probe_bw.cc:146-209 | The upper bound falls, to what was in flight or seven tenths of the target, exactly when a probe lost too much, and rises exactly when more was in flight without that |
| `Bbr2Laws.UpwardObeys` | bbr_chrome/src/congestion_control/bbr2_probe_bw.cc:284-317 | Whole steps of acked bytes become segments and the rest is kept; a step is the window over a power of two |
| `Bbr2Laws.SwitchObeys` | bbr_chrome/src/congestion_control/bbr2_probe_bw.cc:14-30 | What leaving one mode and entering another changes |
| `Bbr2Laws.FinishObeys` | bbr_chrome/src/congestion_control/bbr2_sender.cc:202-252 | Rate and window after the mode loop: the estimate times the gain, the target and the limit of the mode |
| `Bbr2Laws.SendObeys` | bbr_chrome/src/congestion_control/bbr2_sender.cc:259-310 | Sending after quiescence puts off the expiry of the minimum in PROBE_BW and ends PROBE_RTT once its time is past |
| `Bbr2Laws.BeginLaw` | bbr_chrome/src/congestion_control/bbr2_sender.cc:53-90 | The sender as constructed: limited window, rate of 2885/1000 of a window per round trip, no bounds |
| `Bbr2SenderObject.Bbr2Sender.constructor` | bbr_chrome/src/congestion_control/bbr2_sender.cc:53-90 | A new sender, with the initial window limited |
| `Bbr2SenderObject.Bbr2Sender.EnterProbeDown` | bbr_chrome/src/congestion_control/bbr2_probe_bw.cc:377-409 | A new visit: one more than the advances of the filter so far, and its own still to come |
| `Bbr2SenderObject.Bbr2Sender.EnterProbeCruise` | bbr_chrome/src/congestion_control/bbr2_probe_bw.cc:411-420 | Visits and advances are even again; `inflight_lo` is unset or at most `inflight_hi` |
| `Bbr2SenderObject.Bbr2Sender.EnterProbeRefill` | bbr_chrome/src/congestion_control/bbr2_probe_bw.cc:422-438 | No lower bound on bandwidth or inflight is left, and visits and advances are even |
| `Bbr2SenderObject.Bbr2Sender.RaiseInflightHighSlope` | bbr_chrome/src/congestion_control/bbr2_probe_bw.cc:272-282 | The next slope keeps one MSS or more per step and the shift at most 30 |
| `Bbr2SenderObject.Bbr2Sender.EnterProbeUp` | bbr_chrome/src/congestion_control/bbr2_probe_bw.cc:440-449 | Starts probing upward with such a slope |
| `Bbr2SenderObject.Bbr2Sender.MaybeAdaptUpperBounds` | bbr_chrome/src/congestion_control/bbr2_probe_bw.cc:146-209 | Only `inflight_hi` and one flag can change, and the result says whether probing was too high |
| `Bbr2SenderObject.Bbr2Sender.ProbeInflightHighUpward` | bbr_chrome/src/congestion_control/bbr2_probe_bw.cc:284-317 | What it raises, with what is pending, stays within the bytes acked since REFILL; invariant kept |
| `Bbr2SenderObject.Bbr2Sender.DrainProbeDown` | bbr_chrome/src/congestion_control/bbr2_probe_bw.cc:116-143 | PROBE_DOWN is left only for CRUISE or REFILL; invariant kept |
| `Bbr2SenderObject.Bbr2Sender.UpdateProbeDown` | bbr_chrome/src/congestion_control/bbr2_probe_bw.cc:97-144 | PROBE_DOWN is left only for CRUISE or REFILL, with the filter advanced exactly once; invariant kept |
| `Bbr2SenderObject.Bbr2Sender.UpdateProbeCruise` | bbr_chrome/src/congestion_control/bbr2_probe_bw.cc:319-326 | Invariant kept, whether or not the next probe begins |
| `Bbr2SenderObject.Bbr2Sender.UpdateProbeRefill` | bbr_chrome/src/congestion_control/bbr2_probe_bw.cc:328-336 | Invariant kept, whether or not PROBE_UP begins |
| `Bbr2SenderObject.Bbr2Sender.UpdateProbeUp` | bbr_chrome/src/congestion_control/bbr2_probe_bw.cc:338-375 | Invariant kept on each way out |
| `Bbr2SenderObject.Bbr2Sender.UpdatePhase` | bbr_chrome/src/congestion_control/bbr2_probe_bw.cc:50-63 | Each phase keeps the invariant, and PROBE_DOWN leads only to CRUISE or REFILL |
| `Bbr2SenderObject.Bbr2Sender.ProbeBwOnCongestionEvent` | bbr_chrome/src/congestion_control/bbr2_probe_bw.cc:32-73 | Invariant kept; PROBE_RTT is proposed only as PROBE_DOWN ends; otherwise the pacing gain is 5/4 in UP, 3/4 in DOWN and 1 in CRUISE and REFILL, and the window gain 2 |
| `Bbr2SenderObject.Bbr2Sender.CheckBandwidthGrowth` | bbr_chrome/src/congestion_control/bbr2_misc.cc:377-402 | The baseline never falls nor exceeds the largest bandwidth; full bandwidth exactly on exit |
| `Bbr2SenderObject.Bbr2Sender.CheckExcessiveLosses` | bbr_chrome/src/congestion_control/bbr2_startup.cc:92-113 | When losses end STARTUP, `inflight_hi` is no less than what was delivered in the round |
| `Bbr2SenderObject.Bbr2Sender.StartupOnCongestionEvent` | bbr_chrome/src/congestion_control/bbr2_startup.cc:38-90 | DRAIN is proposed exactly when full bandwidth is reached; lower bounds are left alone |
| `Bbr2SenderObject.Bbr2Sender.DrainOnCongestionEvent` | bbr_chrome/src/congestion_control/bbr2_drain.cc:10-32 | PROBE_BW is proposed exactly when inflight is down to the target; invariant kept |
| `Bbr2SenderObject.Bbr2Sender.ProbeRttOnCongestionEvent` | bbr_chrome/src/congestion_control/bbr2_probe_rtt.cc:18-39 | PROBE_BW is proposed exactly when an exit time was set and is past; invariant kept |
| `Bbr2SenderObject.Bbr2Sender.SettleMode` | bbr_chrome/src/congestion_control/bbr2_sender.cc:137-156 | The loop with its limit ends settled after at most three changes |
| `Bbr2SenderObject.Bbr2Sender.UpdatePacingRate` | bbr_chrome/src/congestion_control/bbr2_sender.cc:202-233 | Before full bandwidth, and after the first ack, the rate never falls |
| `Bbr2SenderObject.Bbr2Sender.UpdateCongestionWindow` | bbr_chrome/src/congestion_control/bbr2_sender.cc:235-252 | At most the bytes acked more than before, at most the larger of the limit of the mode and the smallest window, within its own limits |
| `Bbr2SenderObject.Bbr2Sender.FinishEvent` | bbr_chrome/src/congestion_control/bbr2_sender.cc:158-168 | The invariant holds again between events |
| `Bbr2SenderObject.Bbr2Sender.StartEvent` | bbr_chrome/src/congestion_control/bbr2_misc.cc:80-175 | What the mode loop needs holds when it starts |
| `Bbr2SenderObject.Bbr2Sender.OnCongestionEvent` | bbr_chrome/src/congestion_control/bbr2_sender.cc:112-170 | The whole event keeps the invariant, in at most three mode changes, and obeys the laws of `Bbr2Laws`: the gains of each mode and phase, a rate above the estimate in UP and below it in DOWN and DRAIN, the minimum round trip replaced by a larger one only on expiry |
| `Bbr2SenderObject.Bbr2Sender.OnExitQuiescence` | bbr_chrome/src/congestion_control/bbr2_sender.cc:299-310 | Leaving quiescence |
| `Bbr2SenderObject.Bbr2Sender.OnPacketSent` | bbr_chrome/src/congestion_control/bbr2_sender.cc:259-272 | Sending keeps the invariant and the gains, and after quiescence puts off the expiry of the minimum or ends PROBE_RTT |
| `CircularDeque.RingReads` | bbr_chrome/src/common/quiche_circular_deque.h:318-390 | One slot is always free, `begin == end` means empty, and position `pos` is read with one conditional subtraction |
| `CircularDeque.AppendedAtEnd` | bbr_chrome/src/common/quiche_circular_deque.h:412-418 | Writing the free slot at the end and stepping over it appends, wrapped or not |
| `CircularDeque.PrependedAtFront` | bbr_chrome/src/common/quiche_circular_deque.h:401-407 | Stepping back and writing there prepends, wrapped or not |
| `CircularDeque.DroppedAtEnds` | bbr_chrome/src/common/quiche_circular_deque.h:426-448 | Moving `begin` forward or `end` back by k drops the first or last k elements |
| `CircularDeque.ShiftedIs` | bbr_chrome/src/common/quiche_circular_deque.h:704-710 | The remainder in `index_increment_by` is one conditional turn |
| `CircularDeque.ChargeKeepsPaid` | bbr_chrome/src/common/quiche_circular_deque.h:561-602 | Every operation keeps the potential: each free slot is worth six moves |
| `CircularDeque.GrowingIsAmortised` | bbr_chrome/src/common/quiche_circular_deque.h:561-602 | In every run of pushes, pops, bulk pops, resizes, clears and reserves, growing moves at most six elements per element put in, and without reserves these are all the copies; the copy loop does the counting |
| `CircularDeque.GrowthRule` | bbr_chrome/src/common/quiche_circular_deque.h:561-574 | Growing makes room for what is asked, for three elements more and a quarter more, and for no more than the largest of these |
| `CircularDeque.ReserveIsNotAmortised` | bbr_chrome/src/common/quiche_circular_deque.h:374-378 | The moves of `reserve` itself are unbounded per element put in |
| `CircularDeque.QuicheCircularDeque.constructor` | bbr_chrome/src/common/quiche_circular_deque.h:205-206 | An empty deque without a buffer |
| `CircularDeque.QuicheCircularDeque.Size` | bbr_chrome/src/common/quiche_circular_deque.h:385-390 | The length of the contents |
| `CircularDeque.QuicheCircularDeque.Empty` | bbr_chrome/src/common/quiche_circular_deque.h:383-383 | Exactly when the contents are empty |
| `CircularDeque.QuicheCircularDeque.At` | bbr_chrome/src/common/quiche_circular_deque.h:318-324 | The element at the position |
| `CircularDeque.QuicheCircularDeque.Front` | bbr_chrome/src/common/quiche_circular_deque.h:334-336 | The first element |
| `CircularDeque.QuicheCircularDeque.Back` | bbr_chrome/src/common/quiche_circular_deque.h:342-344 | The last element |
| `CircularDeque.QuicheCircularDeque.RelocateUnwrappedRange` | bbr_chrome/src/common/quiche_circular_deque.h:614-626 | The copy loop appends the range to what was copied before |
| `CircularDeque.QuicheCircularDeque.RelocateElements` | bbr_chrome/src/common/quiche_circular_deque.h:584-591 | Copies the contents, wrapped or not, to slot 0 on |
| `CircularDeque.QuicheCircularDeque.Relocate` | bbr_chrome/src/common/quiche_circular_deque.h:576-602 | Changes the buffer and not the contents |
| `CircularDeque.QuicheCircularDeque.MaybeExpandCapacity` | bbr_chrome/src/common/quiche_circular_deque.h:561-574 | The capacity rule; contents unchanged |
| `CircularDeque.QuicheCircularDeque.Reserve` | bbr_chrome/src/common/quiche_circular_deque.h:374-378 | Contents unchanged |
| `CircularDeque.QuicheCircularDeque.StoreBack` | bbr_chrome/src/common/quiche_circular_deque.h:415-416 | Appends when there is room |
| `CircularDeque.QuicheCircularDeque.EmplaceBack` | bbr_chrome/src/common/quiche_circular_deque.h:412-418 | Appends, growing if needed |
| `CircularDeque.QuicheCircularDeque.PushBack` | bbr_chrome/src/common/quiche_circular_deque.h:409-418 | Appends; keeps the potential |
| `CircularDeque.QuicheCircularDeque.StoreFront` | bbr_chrome/src/common/quiche_circular_deque.h:404-405 | Prepends when there is room |
| `CircularDeque.QuicheCircularDeque.PushFront` | bbr_chrome/src/common/quiche_circular_deque.h:398-407 | Prepends; keeps the potential |
| `CircularDeque.QuicheCircularDeque.PopFront` | bbr_chrome/src/common/quiche_circular_deque.h:420-424 | Drops the first element |
| `CircularDeque.QuicheCircularDeque.PopBack` | bbr_chrome/src/common/quiche_circular_deque.h:435-439 | Drops the last element |
| `CircularDeque.QuicheCircularDeque.PopFrontN` | bbr_chrome/src/common/quiche_circular_deque.h:426-433 | Drops up to `count` first elements and says how many |
| `CircularDeque.QuicheCircularDeque.PopBackN` | bbr_chrome/src/common/quiche_circular_deque.h:441-448 | Drops up to `count` last elements and says how many |
| `CircularDeque.QuicheCircularDeque.ClearAll` | bbr_chrome/src/common/quiche_circular_deque.h:552-555 | Empties, keeping the capacity |
| `CircularDeque.QuicheCircularDeque.ResizeTo` | bbr_chrome/src/common/quiche_circular_deque.h:643-658 | The first `count` elements, or all of them and copies of the value |
| `CircularDeque.QuicheCircularDeque.ShrinkTo` | bbr_chrome/src/common/quiche_circular_deque.h:650-655 | Keeps the first `count` elements |
| `CircularDeque.QuicheCircularDeque.GrowTo` | bbr_chrome/src/common/quiche_circular_deque.h:644-649 | Appends copies up to `count` elements |
| `WindowedFilter.EstimatesAreOrderedSamples` | bbr_chrome/src/congestion_control/chrome_windowed_filter.h:51-98 | For every history with nondecreasing times: three genuine samples ordered by value and by time, each at least every sample since; the best is inside the window and so never above the window's maximum |
| `WindowedFilter.UpdateKeepsInv` | bbr_chrome/src/congestion_control/chrome_windowed_filter.h:51-98 | One update keeps all of it |
| `WindowedFilter.SmallerSampleMoves` | bbr_chrome/src/congestion_control/chrome_windowed_filter.h:65-98 | A sample below the best, inside the window, takes the second or third place exactly when it equals or beats it or equal estimates are to be spread: after more than 0 and more than 1 time unit |
| `WindowedFilter.BestFallsOnlyByAge` | bbr_chrome/src/congestion_control/chrome_windowed_filter.h:51-98 | The best is replaced by a smaller sample only when it has left the window |
| `WindowedFilter.ExactWithinOneWindow` | bbr_chrome/src/congestion_control/chrome_windowed_filter.h:51-98 | Over a history that fits into one window the best is the largest of all samples |
| `FilterExactness.ReportsTheMaximumIff` | bbr_chrome/src/congestion_control/chrome_windowed_filter.h:51-98 | The best is the largest of the window always when that is the first sample or the newest, and otherwise exactly when it is one of the three estimates once the next sample has been submitted |
| `FilterExactness.LastLargestExists` | bbr_chrome/src/congestion_control/chrome_windowed_filter.h:51-98 | Every history has a last largest sample of its window, so the cases are all there are |
| `FilterExactness.HeldOrGone` | bbr_chrome/src/congestion_control/chrome_windowed_filter.h:51-98 | From the next sample on the largest is held by every update, or gone for good |
| `FilterExactness.UpdateKeepsHolding` | bbr_chrome/src/congestion_control/chrome_windowed_filter.h:61-98 | A smaller sample does not displace a held value while it is inside the window |
| `FilterExactness.FirstSmallerSample` | bbr_chrome/src/congestion_control/chrome_windowed_filter.h:69-98 | What the first smaller sample leaves among the estimates is held from then on |
| `WindowedFilter.CanMissTheWindowMaximum` | bbr_chrome/src/congestion_control/chrome_windowed_filter.h:85-98 | Instances of the other case: a family of five falling samples, the fourth inside the window, after which the newest is reported |
| `WindowedFilter.MaxFilter.constructor` | bbr_chrome/src/congestion_control/chrome_windowed_filter.h:37-42 | Three uninitialised estimates |
| `WindowedFilter.MaxFilter.Reset` | bbr_chrome/src/congestion_control/chrome_windowed_filter.h:119-122 | All estimates become the sample |
| `WindowedFilter.MaxFilter.UpdateEstimates` | bbr_chrome/src/congestion_control/chrome_windowed_filter.h:51-98 | The in-place update of the three estimates |
| `WindowedFilter.MaxFilter.Submit` | bbr_chrome/src/congestion_control/chrome_windowed_filter.h:51-98 | Keeps the estimates tied to everything submitted |
| `WindowedFilter.MaxFilter.GetBest` | bbr_chrome/src/congestion_control/chrome_windowed_filter.h:124-124 | A sample of the window that no later one beats |
| `WindowedFilter.MaxFilter.GetSecondBest` | bbr_chrome/src/congestion_control/chrome_windowed_filter.h:125-125 | The second estimate, a sample that no later one beats |
| `WindowedFilter.MaxFilter.GetThirdBest` | bbr_chrome/src/congestion_control/chrome_windowed_filter.h:126-126 | The third estimate, a sample that no later one beats |
| `Bbr1Runs.EveryStateGuarantees` | bbr_chrome/src/congestion_control/chrome_bbr_sender.cc:163-173 | In every state: usable window between 4 MSS and the maximum (from the start exactly when the initial window is); recovery, DRAIN and PROBE_BW only after full bandwidth, STARTUP only before; recovery window never visible below 4 MSS; window at most the initial one plus all bytes acked |
| `Bbr1Runs.DrainingFollowsProbing` | bbr_chrome/src/congestion_control/chrome_bbr_sender.cc:346-360 | Whenever a run comes to the gain 0.75 in PROBE_BW it was in PROBE_BW at 1.25 just before |
| `Bbr1Runs.NoFallBeforeFullBandwidth` | bbr_chrome/src/congestion_control/chrome_bbr_sender.cc:584-666 | Until full bandwidth neither window nor pacing rate falls, visits to PROBE_RTT included |
| `Bbr1Runs.ProbeRttLasts` | bbr_chrome/src/congestion_control/chrome_bbr_sender.cc:498-541 | A visit to PROBE_RTT lasts 200 ms or more and ends in PROBE_BW or STARTUP according to full bandwidth |
| `Bbr1Runs.EstimateIsARecentSample` | bbr_chrome/src/congestion_control/chrome_bbr_sender.cc:244-253 | The estimate is a sample of the last ten rounds that no later one beats, or 0 before any |
| `Bbr1Runs.RecoveryConservesPackets` | bbr_chrome/src/congestion_control/chrome_bbr_sender.cc:543-582 | In recovery as much may be sent as was acked; CONSERVATION gives up losses and gains nothing, GROWTH gains what was acked |
| `Bbr1Runs.EventKeepsInv` | bbr_chrome/src/congestion_control/chrome_bbr_sender.cc:205-304 | Every event keeps the invariant and makes only allowed moves |
| `Bbr1Runs.SentKeepsInv` | bbr_chrome/src/congestion_control/chrome_bbr_sender.cc:127-143 | Sending keeps the invariant |
| `Bbr1Runs.AcknowledgedKeeps` | bbr_chrome/src/congestion_control/chrome_bbr_sender.cc:543-582 | Recovery begins with a window of 0 and in CONSERVATION, and otherwise keeps its window |
| `Bbr1Runs.GainCycleKeeps` | bbr_chrome/src/congestion_control/chrome_bbr_sender.cc:390-430 | The gain cycle keeps gain and offset matched; 0.75 is entered only from 1.25 |
| `Bbr1Runs.EnterProbeBwKeeps` | bbr_chrome/src/congestion_control/chrome_bbr_sender.cc:346-360 | PROBE_BW is never entered at gain 0.75 |
| `Bbr1Runs.ExitStartupOrDrainKeeps` | bbr_chrome/src/congestion_control/chrome_bbr_sender.cc:456-467 | STARTUP is left as soon as full bandwidth is reached |
| `Bbr1Runs.ProbeRttKeeps` | bbr_chrome/src/congestion_control/chrome_bbr_sender.cc:498-541 | Entering PROBE_RTT never leaves it in the same event |
| `Bbr1Runs.WindowedKeeps` | bbr_chrome/src/congestion_control/chrome_bbr_sender.cc:633-697 | Windows are put in range and grow by at most the bytes acked |
| `Bbr1Laws.EveryStepObeys` | bbr_chrome/src/congestion_control/chrome_bbr_sender.cc:127-304 | In every run every event obeys laws stated in numbers: rounds, recovery with its window, the samples taken, full bandwidth after three rounds without growth by a quarter, the exact condition of every mode and gain-cycle change, the gains of each mode, rate and window; the minimum round trip is one of the samples, none since is smaller, and it is replaced by a larger one only after 10 s |
| `Bbr1Laws.EventObeys` | bbr_chrome/src/congestion_control/chrome_bbr_sender.cc:205-304 | The same for one event from any state |
| `Bbr1Laws.EventKeepsTrips` | bbr_chrome/src/congestion_control/chrome_bbr_sender.cc:376-388 | The minimum round trip stays one of the samples on record with none smaller since |
| `Bbr1Laws.StartLaw` | bbr_chrome/src/congestion_control/chrome_bbr_sender.cc:58-119 | The sender as constructed |
| `Bbr1Laws.TargetIs` | bbr_chrome/src/congestion_control/chrome_bbr_sender.cc:320-330 | The target window is the gain times the bandwidth-delay product, in whole bytes, never below 4 MSS |
| `Gains.ScaleRateIs` | bbr_chrome/src/quic/quic_bandwidth.h:138-141 | A rate times a gain is the nearest whole number |
| `BbrSenderObject.BbrSender.constructor` | bbr_chrome/src/congestion_control/chrome_bbr_sender.cc:58-119 | A new sender |
| `BbrSenderObject.BbrSender.GetCongestionWindow` | bbr_chrome/src/congestion_control/chrome_bbr_sender.cc:163-173 | The usable window, in range once an event has been handled |
| `BbrSenderObject.BbrSender.GetTargetCongestionWindow` | bbr_chrome/src/congestion_control/chrome_bbr_sender.cc:320-330 | The target, never below 4 MSS |
| `BbrSenderObject.BbrSender.OnPacketSent` | bbr_chrome/src/congestion_control/chrome_bbr_sender.cc:127-143 | Last packet sent and leaving quiescence; gains and windows stay |
| `BbrSenderObject.BbrSender.UpdateRecoveryState` | bbr_chrome/src/congestion_control/chrome_bbr_sender.cc:543-582 | Recovery begins with losses after full bandwidth, in CONSERVATION with its window to be set; it keeps its window and never ends on losses |
| `BbrSenderObject.BbrSender.TakeBandwidthSample` | bbr_chrome/src/congestion_control/chrome_bbr_sender.cc:237-253 | The filter stays tied to everything it was given |
| `BbrSenderObject.BbrSender.UpdateGainCyclePhase` | bbr_chrome/src/congestion_control/chrome_bbr_sender.cc:390-430 | Gain and offset stay matched; 0.75 is entered only from 1.25 |
| `BbrSenderObject.BbrSender.CheckIfFullBandwidthReached` | bbr_chrome/src/congestion_control/chrome_bbr_sender.cc:432-496 | Full bandwidth is declared only in a round without growth that is not app limited |
| `BbrSenderObject.BbrSender.EnterProbeBandwidthMode` | bbr_chrome/src/congestion_control/chrome_bbr_sender.cc:346-360 | PROBE_BW is never entered at gain 0.75 |
| `BbrSenderObject.BbrSender.MaybeExitStartupOrDrain` | bbr_chrome/src/congestion_control/chrome_bbr_sender.cc:456-467 | STARTUP is left as soon as full bandwidth is reached, and nothing before |
| `BbrSenderObject.BbrSender.MaybeEnterOrExitProbeRtt` | bbr_chrome/src/congestion_control/chrome_bbr_sender.cc:498-541 | PROBE_RTT is entered only on expiry and left 200 ms later or more |
| `BbrSenderObject.BbrSender.UpdateMode` | bbr_chrome/src/congestion_control/chrome_bbr_sender.cc:273-285 | All mode changes of an event keep the invariant and are among the allowed moves |
| `BbrSenderObject.BbrSender.CalculatePacingRate` | bbr_chrome/src/congestion_control/chrome_bbr_sender.cc:584-602 | Before full bandwidth the rate never falls |
| `BbrSenderObject.BbrSender.CalculateCongestionWindow` | bbr_chrome/src/congestion_control/chrome_bbr_sender.cc:633-666 | In range outside PROBE_RTT, at most the bytes acked more than before, never less before full bandwidth |
| `BbrSenderObject.BbrSender.CalculateRecoveryWindow` | bbr_chrome/src/congestion_control/chrome_bbr_sender.cc:668-697 | In recovery at least 4 MSS and at least what is in flight and was acked; CONSERVATION gains nothing, GROWTH what was acked |
| `BbrSenderObject.BbrSender.UpdateControls` | bbr_chrome/src/congestion_control/chrome_bbr_sender.cc:287-302 | Window in range, recovery window at least 4 MSS, nothing falls before full bandwidth |
| `BbrSenderObject.BbrSender.OnCongestionEvent` | bbr_chrome/src/congestion_control/chrome_bbr_sender.cc:205-304 | The whole event keeps the invariant and a usable window in range, and obeys the laws of `Bbr1Laws`: the minimum round trip is replaced exactly by a smaller sample or after 10 s |
| `PacketText.ParsesWhatWasPrinted` | bbr_chrome/src/packet/packet_parser.cc:10-24 | For every packet the parser returns number and time modulo 10^10 and the exact length |
| `PacketText.RoundTripIff` | bbr_chrome/src/packet/packet_parser.cc:10-24 | The round trip is the identity exactly for numbers and times in [0, 10^10) |
| `PacketText.SameTextIff` | bbr_chrome/src/packet/packet.cc:14-22 | Two packets print alike exactly when they agree modulo 10^10 and in length |
| `PacketText.PrintsWhatWasParsed` | bbr_chrome/src/packet/packet_parser.cc:10-24 | Any text with digits in its three fields parses; printing the result gives number and time back always, and the length exactly when it fits 16 bits |
| `PacketText.ParsesAnyText` | bbr_chrome/src/packet/packet_parser.cc:10-24 | What the parser makes of any text: three fields of ten characters, each blanks, a sign or none, digits and anything else; a time below zero comes out below zero, number and length as words; it fails exactly when a field does not read, for its range exactly when the text ends before it |
| `PacketText.NumeralIsRead` | bbr_chrome/src/packet/packet_parser.cc:17-19 | A numeral is read as the word it denotes, one with a minus as its complement, and one too large not at all |
| `PacketText.OnlyNumeralsAreRead` | bbr_chrome/src/packet/packet_parser.cc:17-19 | Nothing but a numeral is read |
| `PacketText.PrintedLayout` | bbr_chrome/src/packet/packet.cc:14-22 | Every text has 1471 digits: a zero, the fields where the parser looks, and zeros |
| `PacketText.PaddedDenotes` | bbr_chrome/src/common/utils.cc:9-25 | A number that fits is padded to a field that denotes it |
| `PacketText.PaddedOfValue` | bbr_chrome/src/common/utils.cc:9-25 | Every field of digits is the padded form of what it denotes |
| `PacketText.FillBuffer` | bbr_chrome/src/common/utils.cc:27-44 | The two character loops right-align the digits over zeros, or leave zeros when they do not fit |
| `PacketText.SizeTToString` | bbr_chrome/src/common/utils.cc:9-25 | Ten digits denoting the number modulo 10^10 |
| `PacketText.NumberToFixLenString` | bbr_chrome/src/common/utils.cc:27-44 | A field of the length asked for that denotes the number, or zero when it does not fit |
| `PacketText.Serialize` | bbr_chrome/src/packet/packet.cc:14-22 | The successive appends build the printed text |
| `PacketText.FieldParses` | bbr_chrome/src/packet/packet_parser.cc:17-19 | A field of ten digits is read as the number it denotes |
| `Samples.RateIsTheSlope` | bbr_chrome/src/quic/quic_bandwidth.h:51-65 | The whole part of bits over time, but 1 for bytes delivered too slowly for that |
| `SentPacketManager.QuicSentPacketManager.constructor` | bbr_chrome/src/quic/quic_sent_packet_manager.cc:28-43 | Begins in the state in which every run begins |
| `LossDetection.GeneralLossAlgorithm.constructor` | bbr_chrome/src/congestion_control/general_loss_algorithm.h:86-101 | No alarm, start at packet 1, threshold 3 and shift 2 |
| `RttEstimation.RttStats.constructor` | bbr_chrome/src/congestion_control/rtt_stats.cc:20-28 | No sample yet |
| `BandwidthSampling.BandwidthSampler.constructor` | bbr_chrome/src/congestion_control/bandwidth_sampler.cc:45-61 | An empty sampler |
| `BandwidthSampling.LoseAllKeepsInv` | bbr_chrome/src/congestion_control/bandwidth_sampler.cc:151-159 | Losses keep the invariant |
| `BandwidthSampling.ForgottenKeepsInv` | bbr_chrome/src/congestion_control/bandwidth_sampler.cc:387-394 | Forgetting snapshots keeps the invariant |
| `LossDetection.LostFromIsSound` | bbr_chrome/src/congestion_control/general_loss_algorithm.cc:81-130 | Only lost packets are reported, with their sizes, ascending |
| `LossDetection.LostFromIsComplete` | bbr_chrome/src/congestion_control/general_loss_algorithm.cc:81-130 | Every lost packet is reported |
| `UnackedPackets.SettleAllKeepsInv` | bbr_chrome/src/quic/quic_unacked_packet_map.cc:183-197 | Settling a list keeps the map's invariant |
| `Bbr2Runs.StartupEventUsesUpRounds` | bbr_chrome/src/congestion_control/bbr2_startup.cc:38-90 | An event that stays in STARTUP never adds to the rounds left and a full round uses one up |
| `Bbr2Runs.QuiescenceKeeps` | bbr_chrome/src/congestion_control/bbr2_sender.cc:299-310 | Leaving quiescence keeps the invariant |
| `Bbr2Runs.NewSenderInv` | bbr_chrome/src/congestion_control/bbr2_sender.cc:53-90 | A new sender satisfies the invariant |
| `Bbr2Invariants.EnterDownKeeps` | bbr_chrome/src/congestion_control/bbr2_probe_bw.cc:377-409 | Entering PROBE_DOWN keeps the invariant |
| `Bbr2Invariants.EnterCruiseKeeps` | bbr_chrome/src/congestion_control/bbr2_probe_bw.cc:411-420 | Entering PROBE_CRUISE keeps the invariant, from PROBE_DOWN or not |
| `Bbr2Invariants.EnterRefillKeeps` | bbr_chrome/src/congestion_control/bbr2_probe_bw.cc:422-438 | Entering PROBE_REFILL keeps the invariant and clears the lower bounds |
| `Bbr2Invariants.EnterUpKeeps` | bbr_chrome/src/congestion_control/bbr2_probe_bw.cc:440-449 | Entering PROBE_UP keeps the invariant |
| `Bbr2Invariants.SwitchToProbeRtt` | bbr_chrome/src/congestion_control/bbr2_probe_rtt.cc:11-16 | Entering PROBE_RTT leaves no mode change for this event |
| `Bbr2Invariants.SwitchFromProbeRtt` | bbr_chrome/src/congestion_control/bbr2_probe_bw.cc:14-30 | Leaving PROBE_RTT lands in CRUISE or REFILL and leaves no mode change for this event |
| `Bbr2Invariants.GrowthFacts` | bbr_chrome/src/congestion_control/bbr2_misc.cc:377-402 | The baseline never falls nor exceeds the largest bandwidth; full bandwidth exactly on exit |
| `Bbr1Runs.ModedKeeps` | bbr_chrome/src/congestion_control/chrome_bbr_sender.cc:273-285 | All mode changes of one event together |
| `Bbr1Runs.StepKeepsInv` | bbr_chrome/src/congestion_control/chrome_bbr_sender.cc:127-304 | Every step keeps the invariant |
| `Bbr1Runs.RunKeepsInv` | bbr_chrome/src/congestion_control/chrome_bbr_sender.cc:127-304 | Every run keeps the invariant |
| `Bbr1Runs.CheckFullBandwidthKeeps` | bbr_chrome/src/congestion_control/chrome_bbr_sender.cc:432-454 | Full bandwidth, once reached, stays |
| `SendEngine.RunKeepsInv` | bbr_chrome/src/quic/quic_sent_packet_manager.cc:63-271 | Every run keeps the whole invariant |
| `Bbr2Runs.RunKeepsInv` | bbr_chrome/src/congestion_control/bbr2_sender.cc:112-310 | Every run keeps the invariant of the sender |

## Left out

- Sockets, the client and server loops, logging, debug state and the statistics counters: input and output only.
- The clock classes: time is an input.
- The backed-off delay of the retransmission timer (`GetRetransmissionDelay`): a timeout may come at any time in the model.
- Cubic, hybrid slow start and PRR: not part of this model.
- The arithmetic of the ack-height tracker: its answer is an arbitrary number, and adding it may wrap around.
- Mean and standard deviation of the round trip, and its expiry and migration: single-precision arithmetic and calls that
  nothing here makes.
- Spurious-loss adaptation: no packet is ever marked LOST here, so it cannot be reached; the reordering threshold and shift
  are constants.
- The runt-packet option of the loss algorithm, non-default `bw_lo_mode_` and the connection options
  of BBRv2, and BBRv1's flags other than `drain_to_target_`: they keep their constructed values.
- Bytes per acked packet in the list of acked packets: nothing reads them.
- Allocators, copying and destructors of the deque, its iterators, `swap` and `assign`: a slot holds a value.
- The packet map, the packet-number queue and the sampler hold their deque as a sequence, and the sampler its queue as a
  map with a mark: the meanings proved for the containers.
- The two congestion controllers are not wired to the manager: they take any sample, and the manager carries only the
  sampler of its controller.
- Sixteen-bit truncation of the length when a packet is recorded, and 64-bit overflow of byte totals.
- FillBuffer: the buffer has room for the final null; in the second of the two functions it stands for the code allocates
  one character less, so the write of the null there is outside what the model describes.
- NumberToFixLenString: does not model that the code's buffer is one character short of the final null.
- The text given to the parser is what comes before the first null.
