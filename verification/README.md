# RDT ReliableSocket, modelled in Dafny

`ReliableSocket.cpp` implements a reliable data transport (RDT) connection
over UDP. It is a stop-and-wait protocol: one segment is in flight at a
time, and each segment is resent until the awaited reply comes back. A
connection starts in INIT and is ESTABLISHED by a handshake. The side
that receives the remote CLOSE moves to FIN. `close_connection` has no
state guard, so it ends CLOSED from INIT, ESTABLISHED or FIN alike. The
receive timeout comes from a Jacobson/Karels-style estimator: a smoothed
round-trip time and its deviation, with the timeout doubled on
consecutive receive timeouts. It differs from section 2 of RFC 6298 in
four ways:

- the deviation is measured from the new mean, not the previous one
  (line 275);
- the estimate starts from the defaults 100 ms and 10 ms (lines 36-37),
  not from the first sample;
- the distance from the mean is truncated to an `int` (line 275);
- the timeout `est + 4·dev` has no lower bound.

The model is the class `Rdt.ReliableSocket`, which has the source's
fields: `state`, `sequenceNumber`, `expectedSequenceNumber`,
`estimatedRtt`, `devRtt` and `currentRtt`. Every entry point is a method
whose loops consume a script of receive outcomes, the `inbox` field. Each
outcome is `Timeout` or `Seg(segment, elapsed)`, where `elapsed` is the
round trip measured for that reply. Three further fields record the
history:

- `sent` logs every segment sent;
- `timeouts` logs every receive timeout applied;
- `delivered` (ghost) logs the sequence numbers handed to the reader.

When the script runs out while a method is waiting, the method returns
`Blocked`; the real object would go on waiting. `exit(EXIT_FAILURE)` is
the outcome `Fatal`.

The files:

- `wire.dfy`: big-endian 32-bit fields (`htonl`/`ntohl`).
- `segments.dfy`: segments, receive outcomes, and facts about scripts.
- `estimator.dfy`: the RTT estimator and the exponential backoff.
- `rounds.dfy`: the specification of the retry loops. It says which
  outcomes a sequence of `reliable_send` rounds consumes, which reply ends
  a loop, and exactly which receive timeouts the rounds apply
  (`TimeoutLog`).
- `reliable_socket.dfy`: the connection object itself.
- `scenarios.dfy`: each entry point on a script where what it waits for
  does arrive, and a whole receiver and sender, reasoned from the
  contracts alone.

Each method is proved against these specifications.

The source does not compile as written. The model follows the evident
intent at each such point:

- line 205: the buffer cleared is `recv_data`;
- line 310: the segment sent is the one built in `send_seg`;
- line 336: the ACK number is compared, not assigned (see Findings);
- line 342: the increment at line 345 follows the retransmission loop;
- line 404: the field set is the header's sequence number;
- line 409: `nthol` is `ntohl`.

Each method's comment records the choice that applies to it.

Where the code departs from the usual stop-and-wait protocol it
implements, the model follows the code:

- `receive_data` compares the segment's number with `sequence_number`,
  not `expected_sequence_number` (line 409).
- `receive_data` acknowledges every segment that is not an ACK or a CLOSE,
  not only DATA segments.
- `connect_to_remote` does not wait for the SYNACK. Lines 171-175 inspect
  a buffer that nothing was received into. The initiator sends CONN once,
  then sends ACK by `timeout_send` until the line goes quiet.
- The third phase of `send_close_connection` resends its ACK after any
  arriving segment, not only after a CLOSE (lines 515-520).

## Model

| member | source | states |
|---|---|---|
| Wire.Htonl | ReliableSocket.cpp:311-312 | the four bytes are most significant first: their big-endian value is the number written |
| Wire.Ntohl | ReliableSocket.cpp:336 | reads four big-endian bytes as a 32-bit number; its low byte is the last byte |
| Wire.NtohlHtonl | ReliableSocket.cpp:311 | reading back a field written in network order gives the value written |
| Wire.HtonlNtohl | ReliableSocket.cpp:409 | every four-byte field is the network form of the number read from it |
| Segments.Replies | ReliableSocket.cpp:229-234 | an outcome yields at most one round-trip sample |
| Segments.RepliesAppend | ReliableSocket.cpp:229-234 | the samples of two scripts in a row are the first script's samples followed by the second's |
| Segments.TimeoutsYieldNoSample | ReliableSocket.cpp:207-220 | receive timeouts never contribute a round-trip sample: removing them leaves the samples unchanged |
| Estimator.TruncToInt | ReliableSocket.cpp:275 | the `int` conversion truncates toward zero, within one of the exact value |
| Estimator.Sample | ReliableSocket.cpp:269-279 | the new mean is 7/8 of the old plus 1/8 of the sample, between the two. The new deviation is within a quarter millisecond below 3/4·dev + 1/4·\|sample − new mean\|. Non-negative inputs stay non-negative |
| Estimator.SmoothSnoc | ReliableSocket.cpp:233 | one more reply updates the estimate reached so far exactly once |
| Estimator.SmoothNonNegative | ReliableSocket.cpp:269-279 | a non-negative mean and deviation stay non-negative under any samples |
| Estimator.SmoothWithin | ReliableSocket.cpp:271-272 | the smoothed mean stays within any range that holds the starting mean and every sample |
| Estimator.Backoff | ReliableSocket.cpp:210-217 | a wait with k timeouts applies k backed-off timeouts |
| Estimator.BackoffAt | ReliableSocket.cpp:210-217 | after the (i+1)-th consecutive timeout the timeout is 2^(i+1) times the round's starting timeout |
| Estimator.BackoffDoubles | ReliableSocket.cpp:212-213 | each backed-off timeout is twice the one before |
| Rounds.SmoothStep | ReliableSocket.cpp:229-233 | the estimate over a script is the estimate after its first outcome, carried over the rest |
| Rounds.PendingAppend | ReliableSocket.cpp:193-219 | the count of consecutive timeouts carries across a split of the script |
| Rounds.PendingOfTimeouts | ReliableSocket.cpp:207-219 | n timeouts add n to the count of consecutive timeouts |
| Rounds.TimeoutLogAppend | ReliableSocket.cpp:191-234 | the timeout log splits at any point; the rest starts from the estimate and the timeout count reached there |
| Rounds.TimeoutLogOfTimeouts | ReliableSocket.cpp:191-217 | n timeouts from the start of a round apply the round's timeout, then 2, 4, …, 2^n times it |
| Rounds.TimeoutLogOfRound | ReliableSocket.cpp:189-235 | a whole round logs its waits and the updated timeout, feeds exactly its reply's sample, and leaves no round open |
| Rounds.NextRound | ReliableSocket.cpp:189-235 | one more round after whole rounds adds its own log and exactly one sample to the estimator |
| Rounds.OpenRound | ReliableSocket.cpp:197-221 | a round still waiting has applied its waits and fed no sample |
| Rdt.AscendingExcludes | ReliableSocket.cpp:409-420 | no number at or above the counter is among the numbers delivered so far |
| Rdt.AcksForAnswers | ReliableSocket.cpp:400-407 | every acknowledgment `receive_data` logs is an ACK with no payload carrying one received segment's number in both number fields, and every received segment that is not an ACK or a CLOSE gets one |
| Rdt.AckTestAsWritten | ReliableSocket.cpp:336 | the test as written ends the loop only on a nonzero ACK, and leaves the ACK's number in the counter |
| Rdt.StaleAckEndsSendData | ReliableSocket.cpp:336-345 | as written, a late ACK of an earlier segment ends `send_data` and moves the counter backwards |
| Rdt.FirstAckNeverEndsSendData | ReliableSocket.cpp:336 | as written, the awaited ACK of segment 0 never ends `send_data` |
| Rdt.ReliableSocket.constructor | ReliableSocket.cpp:33-49 | a new connection is INIT, with both counters 0, estimate 100 and deviation 10, and empty logs |
| Rdt.ReliableSocket.Send | ReliableSocket.cpp:201 | the segment is appended to the sent log |
| Rdt.ReliableSocket.Recv | ReliableSocket.cpp:206 | takes the next outcome of the script, or nothing when it has run out |
| Rdt.ReliableSocket.SetTimeoutLength | ReliableSocket.cpp:284-295 | the timeout is appended to the applied-timeout log |
| Rdt.ReliableSocket.SetEstimatedRtt | ReliableSocket.cpp:269-282 | the fields are updated by exactly one sample of the measured round trip, and the new timeout `est + 4·dev` is applied |
| Rdt.ReliableSocket.ReliableSend | ReliableSocket.cpp:189-235 | the same segment is resent once per timeout. The timeouts are `est + 4·dev` and then the backoff. The first reply ends the round and feeds its sample exactly once. If the channel runs dry, the estimate is unchanged |
| Rdt.ReliableSocket.Retransmit | ReliableSocket.cpp:197-231 | the loop resends the segment after every timeout. The first timeout applies twice the starting timeout and each later one doubles again. It stops at the first reply and records its round trip |
| Rdt.ReliableSocket.TimeoutSend | ReliableSocket.cpp:237-261 | the segment is resent, with the timeout applied, after every arriving segment. The first receive timeout ends it |
| Rdt.ReliableSocket.SendUntil | ReliableSocket.cpp:113-124 | whole `reliable_send` rounds run until the first awaited reply. Sent log, timeout log and estimate follow the rounds' specification |
| Rdt.ReliableSocket.NextExchange | ReliableSocket.cpp:113-124 | one pass of a retry loop extends the whole rounds so far by one round, or by the open round the script ran out in. The logs and the estimate follow the rounds' specification, and whether the loop ends depends only on the round's reply |
| Rdt.ReliableSocket.Exchange | ReliableSocket.cpp:114-115 | one `reliable_send` round, with the updated timeout applied again in `accept_connection` |
| Rdt.ReliableSocket.AcceptConnection | ReliableSocket.cpp:51-129 | fatal outside INIT, and fatal unless the first outcome is a CONN; never refused. SYNACK is retransmitted until an ACK ends the loop, and then the connection is ESTABLISHED. It is `Blocked` only on an empty script or when no ACK follows the CONN |
| Rdt.ReliableSocket.ConnectToRemote | ReliableSocket.cpp:131-187 | outside INIT nothing changes and nothing is sent. Otherwise CONN is sent once, then ACK until the line is quiet, and the connection is ESTABLISHED |
| Rdt.ReliableSocket.SendData | ReliableSocket.cpp:298-346 | outside ESTABLISHED nothing changes. Otherwise the DATA segment with the counter is retransmitted until the ACK of exactly that number, and then the counter rises by one |
| Rdt.ReliableSocket.AwaitSegment | ReliableSocket.cpp:357-424 | ACKs and other-numbered segments are passed over, and every non-ACK, non-CLOSE segment is acknowledged. It stops at a timeout, a CLOSE, or the awaited number |
| Rdt.ReliableSocket.AnswerClose | ReliableSocket.cpp:384-397 | a CLOSE is answered with ACKs until the line is quiet, then the state is FIN. If the script runs out first, every outcome heard was a segment and each was answered |
| Rdt.ReliableSocket.Deliver | ReliableSocket.cpp:414-418 | returns the payload and its length, advances the counter by one, and records a number never delivered before |
| Rdt.ReliableSocket.ReceiveData | ReliableSocket.cpp:349-427 | outside ESTABLISHED it returns 0 with nothing changed. A CLOSE gives FIN and 0 with the counter unchanged. The awaited segment's payload is delivered once, and its ACK carries its own number. It is `Blocked` only when the script runs out before a timeout, a CLOSE or the awaited segment arrives, or when only segments follow the CLOSE |
| Rdt.ReliableSocket.ReceiveSegment | ReliableSocket.cpp:356-426 | past the guard: a timeout is fatal, a CLOSE gives FIN, and the awaited segment is delivered exactly once, with the acknowledgments of everything passed over logged in order. `Blocked` happens only when the script runs out before any of those, or while the CLOSE is being answered |
| Rdt.ReliableSocket.Arrived | ReliableSocket.cpp:370-420 | the first outcome not passed over decides `receive_data`: a timeout is fatal with nothing changed, a CLOSE is answered until quiet and gives FIN, and the awaited segment is delivered with its acknowledgment already logged |
| Rdt.ReliableSocket.CloseConnection | ReliableSocket.cpp:430-460 | sends CLOSE, then runs the receiver's close iff the state is FIN and the sender's close otherwise. It ends CLOSED with the socket closed exactly once. It is `Blocked` only when the phase it was in never got what it waits for |
| Rdt.ReliableSocket.SendClose | ReliableSocket.cpp:462-531 | CLOSE is retransmitted until an ACK or a CLOSE, then it waits for the remote CLOSE, then sends ACK with the TIME_WAIT timeout until the line is quiet. It is `Blocked` only when the script runs out in one phase without what that phase waits for |
| Rdt.ReliableSocket.AwaitClose | ReliableSocket.cpp:487-503 | receives until a CLOSE, ignoring timeouts and other segments |
| Rdt.ReliableSocket.ReceiveClose | ReliableSocket.cpp:533-554 | applies the current timeout, then retransmits CLOSE until an ACK |
| Scenarios.Accepted | ReliableSocket.cpp:51-129 | from INIT, a CONN and then an ACK give `Done` and an ESTABLISHED connection, consuming exactly those two outcomes |
| Scenarios.Connected | ReliableSocket.cpp:131-187 | from INIT, a silence right after the CONN gives `Done` and an ESTABLISHED connection |
| Scenarios.Delivered | ReliableSocket.cpp:349-427 | when the awaited DATA segment arrives first, `receive_data` delivers its payload and advances the counter |
| Scenarios.CloseAnswered | ReliableSocket.cpp:384-397 | a CLOSE followed by a silence moves an ESTABLISHED connection to FIN, with 0 returned |
| Scenarios.SentAndAcked | ReliableSocket.cpp:298-346 | the ACK of the segment's own number ends `send_data` with the counter advanced |
| Scenarios.ClosedFromFin | ReliableSocket.cpp:430-460 | from FIN, the ACK of the CLOSE ends the close with the connection CLOSED |
| Scenarios.ClosedFromEstablished | ReliableSocket.cpp:430-531 | from ESTABLISHED, an ACK, the remote CLOSE and a silence end the close with the connection CLOSED |
| Scenarios.ReceiverLifetime | ReliableSocket.cpp:131-460 | a receiver connects, takes segment 0's payload, answers the remote CLOSE and ends CLOSED |
| Scenarios.SenderLifetime | ReliableSocket.cpp:131-531 | a sender connects, sends segment 0 until its ACK, closes and ends CLOSED with the counter at 1 |

## Left out

- Socket system calls (`socket`, `bind`, `connect`, `send`, `recv`,
  `recvfrom`, `setsockopt`, `close`) are not modelled. The channel is the
  `inbox` script, and sending and closing are the `sent` log and the
  `closes` counter. Send failures, which are only logged, are not
  modelled. Neither is the `exit` at line 321.
- Receive errors other than a timeout are not modelled. The unreachable
  fatal branch at line 494 is left out.
- The wall clock (`current_msec`, `msec_to_timeval`) is not modelled. The
  round trip of a reply is given with the reply, as `elapsed`.
- Logging to `cerr` and `perror` is left out.
- The estimator is modelled over exact reals. Floating-point rounding is
  not modelled. Neither is the `uint32_t` truncation of
  `set_timeout_length`'s argument or of `doubled_timeout`.
- `get_estimated_rtt` (lines 264-267) is not modelled. It returns the mean
  truncated to 32 bits; `Estimate()` stands for the fields.
- Sequence numbers are unbounded naturals. The model has no 32-bit
  wrap-around of the counter; `Wire` models the 32-bit header fields on
  their own.
- The byte layout of `RDTHeader` and the `memcpy`/`memset` of raw buffers
  are not modelled, because `ReliableSocket.h` is not part of this model.
  A segment is a datatype. A payload's length is its sequence length,
  which stands for `recv_count - sizeof(RDTHeader)`.
- `TIME_WAIT` is defined in `ReliableSocket.h`, which is not part of this
  model. It is the constructor parameter `timeWait`.
- The failure of `socket()` in the constructor (line 43) is not modelled.
- A blocking wait that never ends is the outcome `Blocked`, reached when
  the script runs out. The model has no liveness claim about the real
  channel.

## Findings

| source | as written | input that shows it | evidently intended | confidence | as-written member | corrected member |
|---|---|---|---|---|---|---|
| ReliableSocket.cpp:336 | `this->sequence_number = ntohl(hdr->ack_number)` assigns the ACK's number to the counter. The loop ends whenever that number is nonzero | segment 5 in flight and a late ACK of segment 3: the loop ends and the counter becomes 4. With segment 0 in flight, its own ACK never ends the loop | end only on the ACK whose number equals the counter, then advance the counter by one | high (not executed) | Rdt.StaleAckEndsSendData | Rdt.ReliableSocket.SendData |
