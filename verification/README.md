# Verified model of a lawful-interception library

A Dafny model of the parts of a 5G lawful-interception library that keep state over unbounded
runs or transform unbounded byte sequences, and proofs about every input, run and interleaving
of them. `dafny verify dfyconfig.toml` checks the whole project.

The library implements the X1 tasking interface (ETSI TS 103 221-1), X2/X3 delivery (ETSI TS
103 221-2) and the xIRI records of 3GPP TS 33.128 encoded under ITU-T X.690.

| file | models |
|---|---|
| `Pdu`, `PduProperties`, `PduCodec` | the X2/X3 PDU codec, `x2x3/x2x3.go` |
| `StreamReader`, `Inbound` | the incremental reader of a delivery connection and what each PDU leads to, `x2x3/keepalive.go` |
| `Framing`, `Delivery`, `DeliveryClient` | batches, partial writes and resumption, `x2x3/client.go` |
| `Keepalive`, `Connection`, `ConnectionProperties`, `ConnectionSteps`, `ConnectionRuns` | everything that writes on a connection, interleaved |
| `Sequencer` | per-context sequence numbers, sequential and with double-checked locking |
| `AsyncQueue`, `AsyncProgress`, `AsyncCalls` | the bounded asynchronous queue: safety, coming to rest, and the object against the machine, `x2x3/async.go` |
| `DeliveryPipeline` | the queue in front of the client, from Send to what a peer decodes |
| `Types`, `TaskStore` | tasks and their index by target, `types/types.go`, `store/store.go` |
| `Tasking`, `TaskingProperties`, `TaskingAnswers`, `TaskingServer` | the X1 tasking state machine and the answer to every message, `x1/x1.go` |
| `Lapse` | the keepalive fail-safe against requests in flight, `x1/x1.go` |
| `FaultReporter`, `FaultWatch` | fault reports, retractions and the destination watcher, `x1/report.go`, `x1/faultwatch.go` |
| `Der`, `Schema`, `SchemaProperties`, `Names`, `Records`, `Constraints`, `Xiri`, `XiriBuilder` | the xIRI encoder and its constraint walk, `iri/` |
| `PayloadModule` | the encoder against the ASN.1 module of TS 33.128, `iri/testdata/asn1/` |

Code the source writes as objects and loops is modelled by classes and methods proved against
specification functions; the properties are proved about those functions. Concurrent code is
also a state machine whose steps are the regions the source holds a lock for (or a single
channel or atomic operation), and the properties hold over every sequence of enabled steps.
Clocks are integers that do not go back, a network write is "takes n bytes, then succeeds or
fails", a read is an arbitrary chunk, and authentication and the point of interception's own
check are given with each message.

Four places where the code is not what its text or a reader might expect, modelled as the
code is, each with an input that shows it and the exact condition:

- `Marshal` does not check that its lengths fit in 32 bits (`PduProperties.RoundTrip`,
  `PduProperties.OversizePayloadIsNotRecovered`).
- The reader looks for an oversize PDU once per read, so the error may come one read late
  (`StreamReader.VerdictLagsExactlyWhen`, `StreamReader.LagAtOnePdu`).
- `Send` and `SendBatch` accept a Keepalive from a caller, which then stands among the
  connection's own with a number of the caller's (`ConnectionRuns.NumberingHoldsExactlyWhen`,
  `ConnectionRuns.CallersKeepaliveSeven`).
- A batch can arrive whole and still be answered with an error (`Delivery.DeliveredExactlyWhen`,
  `Delivery.ErrorAfterFullArrival`).

`validateEvent` refuses an empty endpoint list in two records only; the two others that have such a
list are encoded with it (`Xiri.EmptyEndpointsAreEncoded`).

A comment in `createDestination` says no destination extension is recognised; the check it
calls accepts the 3GPP identifier-association extension there too, and so does `Tasking.Provision`.

Tasks are provisioned only through the modelled server, over a store that starts empty.

## Model

| member | source | states |
|---|---|---|
| `PduProperties.RoundTrip` | x2x3/x2x3.go:196-306 | for every PDU Marshal accepts and every suffix, decoding returns the same PDU and exactly its length if and only if header and payload lengths fit in 32 bits, which Marshal does not check |
| `PduProperties.OversizePayloadIsNotRecovered` | x2x3/x2x3.go:196-238 | the length condition is needed: some PDU is marshalled without error and not decoded back |
| `PduProperties.StrictPrefixIsIncomplete` | x2x3/x2x3.go:243-289 | every strict prefix of a marshalled PDU decodes to Incomplete, never to an error or a PDU |
| `PduProperties.PrefixesIncompleteExactlyWhen` | x2x3/x2x3.go:196-289 | all strict prefixes of what Marshal wrote are incomplete if and only if both lengths fit in 32 bits |
| `PduProperties.DecodeIgnoresSuffix` | x2x3/x2x3.go:243-289 | bytes behind a decided PDU never change its verdict |
| `PduProperties.RemarshalReproduces` | x2x3/x2x3.go:196-306 | re-marshalling anything the decoder accepts reproduces the consumed bytes except that the minor version becomes the encoder's |
| `PduProperties.ParseInvertsRegion` | x2x3/x2x3.go:291-306 | the TLV loop recovers every attribute list whose values fit their 16-bit lengths |
| `PduProperties.RegionInvertsParse` | x2x3/x2x3.go:291-306 | an attribute region the TLV loop accepts is the region its attributes marshal to |
| `PduProperties.MarshalAcceptsExactlyWhen` | x2x3/x2x3.go:196-238 | Marshal accepts exactly the formats table 5.4.1-1 of TS 103 221-2 permits on X2 or on X3, listed by number, and attribute values of at most 65535 octets |
| `PduProperties.MarshalRefusal` | x2x3/x2x3.go:196-238 | a forbidden format is refused before any attribute, and the attribute named is the first that is too long |
| `PduProperties.HeaderFieldsStand` | x2x3/x2x3.go:196-238 | where each header field stands, octet by octet and most significant first: version 0.5, type, both lengths, format, direction, XID, correlation, then the attributes and the payload |
| `PduProperties.AttributeStands` | x2x3/x2x3.go:196-238 | each attribute is two octets of type, two of length and its value, in order |
| `PduProperties.VerdictFromHeader` | x2x3/x2x3.go:243-289 | a buffer is incomplete, too short a header or of another major version exactly by its first twelve octets and its size |
| `PduProperties.TruncatedAttributes` | x2x3/x2x3.go:291-306 | which error a region gives whose last attribute is cut in its header or in its value |
| `PduProperties.UnmarshalAcceptsExactlyWhen` | x2x3/x2x3.go:243-306 | Unmarshal accepts exactly the buffers that start with what Marshal writes, under any minor version, and says which PDU that was |
| `PduCodec.Marshal` | x2x3/x2x3.go:196-238 | the buffer filled in place at a moving offset holds the specified wire form, or the first refusal, nil receiver included |
| `PduCodec.ParseTlvs` | x2x3/x2x3.go:291-306 | the shrinking-slice loop equals the recursive parse of the region, errors included |
| `PduCodec.Unmarshal` | x2x3/x2x3.go:243-289 | the decoder equals the specification the round trips are proved about, on every input |
| `PduCodec.FillAttributes` | x2x3/x2x3.go:228-234 | the attribute area is written one TLV behind another and nothing before it changes |
| `StreamReader.SplitDoesNotMatter` | x2x3/keepalive.go:427-475 | for every split of a byte stream into reads of at most 512 bytes, the PDUs handed on are those of the whole-stream parse up to the first malformed or oversize PDU |
| `StreamReader.VerdictLagsByOneRead` | x2x3/keepalive.go:427-475 | a reader that missed an error is running with an oversize PDU at the head of its buffer, and any further read, of any bytes, reports it and hands nothing on |
| `StreamReader.VerdictLagsExactlyWhen` | x2x3/keepalive.go:427-475 | said of the reader before a read and the bytes read: the verdict differs from the whole stream's if and only if no oversize PDU was at the head of the buffer and the parse of it then stops at one whose declared header is not itself refused |
| `StreamReader.StoppedVerdictIsFinal` | x2x3/keepalive.go:427-475 | a reader that has stopped has the whole stream's verdict |
| `StreamReader.LagAtOnePdu` | x2x3/keepalive.go:427-475 | the lag at one input: a 40-byte acknowledgement and the head of a PDU declaring 4136 bytes, in one read or in two |
| `StreamReader.LagIsReal` | x2x3/keepalive.go:427-475 | the lag occurs: the same bytes in one read leave the reader running and in two reads stop it |
| `StreamReader.BufferStaysBounded` | x2x3/keepalive.go:427-475 | the buffer holds at most 4095 bytes between reads and 4607 just after one |
| `StreamReader.NothingOversizeIsHanded` | x2x3/keepalive.go:427-475 | no PDU declaring more than 4096 bytes is ever handed on |
| `StreamReader.WithinLimitIsHanded` | x2x3/keepalive.go:427-475 | a stream of sendable PDUs of at most 4096 octets each is handed on whole and in order, however it is split into reads of at most 512 |
| `StreamReader.NothingIsHandedAfterAStop` | x2x3/keepalive.go:427-475 | nothing is handed on after a PDU the handler stops at or after octets that are no PDU, however split |
| `StreamReader.ConnectionReader.OnRead` | x2x3/keepalive.go:427-475 | one read of the object's loop is one step of the reader the theorems are about |
| `Delivery.ResumeAt` | x2x3/client.go:227-256 | the scan over unit ends finds where a retry starts |
| `Delivery.ResumeIsAtFirstUnsentUnit` | x2x3/client.go:227-256 | a retry carries exactly the units the first write did not take whole |
| `Delivery.DeliveryIsPrefix` | x2x3/client.go:138-204 | whatever byte counts the first and the retried write accept, decoding what each connection received and concatenating gives a prefix of the batch, no unit repeated, for PDUs whose lengths fit in 32 bits, which Send and SendBatch do not check |
| `Delivery.DeliveredMeansAll` | x2x3/client.go:138-204 | a nil result means the peer decoded the whole batch, each unit once, for PDUs whose lengths fit in 32 bits, which Send and SendBatch do not check |
| `Delivery.ErrorAfterFullArrival` | x2x3/client.go:138-204 | the converse fails: a write that reported an error after taking everything, and a failed redial, answer an error for a batch that arrived |
| `Delivery.DeliveredExactlyWhen` | x2x3/client.go:138-204 | a nil result is returned if and only if the whole batch arrived and the last write it needed did not report an error after taking everything |
| `Delivery.OutcomeExactlyWhen` | x2x3/client.go:138-204 | each of the five answers exactly, from the network's answers and the units: a unit is reported dropped if and only if the retry failed after a write that took some unit whole and stopped inside another, any other failed retry is an ordinary error, and a dial that failed or a closed client is named as such |
| `Delivery.ResumingMeansCutInside` | x2x3/client.go:227-254 | the retry resends a unit exactly if the write stopped inside it, and skips units exactly if it took one whole |
| `Delivery.NothingLandedIsNoDrop` | x2x3/client.go:102-129 | a delivery of which no unit landed is never answered as a dropped unit, so the destination is marked unreachable |
| `Delivery.HeldExactlyWhenDelivered` | x2x3/client.go:138-204 | a connection is held afterwards exactly if the answer was nil, and one is dialled for a client without one and one for each retry |
| `DeliveryClient.MarshalBatch` | x2x3/client.go:347-392 | the buffer is the concatenated encodings of the entries that marshal, with the offset each ends at, and the first loss |
| `DeliveryClient.Client.DeliverBytes` | x2x3/client.go:138-204 | the object's connections, live index and outcome are those of the delivery the theorems are about, its five answers as `Delivery.OutcomeExactlyWhen` has them |
| `DeliveryClient.Client.SendBytes` | x2x3/client.go:102-129 | delivery as above, and the destination is marked unreachable exactly when the outcome is an error other than a dropped unit |
| `DeliveryClient.Client.SendBatch` | x2x3/client.go:347-392 | a batch is delivered as its marshalled entries, the destination marked unreachable as for a single send; an entry that did not marshal is reported even when the rest arrived, and a batch with nothing to send changes nothing |
| `DeliveryClient.Client.Close` | x2x3/client.go:314-330 | no connection is held afterwards, what was written stays as it was, and the answer is the held connection's, or nil if none was held |
| `DeliveryClient.BatchArrivesAsPrefix` | x2x3/client.go:347-392 | a batch reaches the peer as a prefix of the PDUs it keeps, and nil means every entry arrived, for PDUs whose lengths fit in 32 bits, which Send and SendBatch do not check |
| `DeliveryClient.BatchAnswer` | x2x3/client.go:347-392 | SendBatch answers the delivery's failure if anything was sent and failed, else the error of the first entry that could not be sent, and nil exactly if every entry could and arrived |
| `DeliveryClient.NothingArrivedIsFailure` | x2x3/client.go:102-129 | a batch nothing of which arrived is answered with an error that marks the destination unreachable |
| `ConnectionProperties.ConnectionsStayFramedAndNumbered` | x2x3/keepalive.go:328-420 | over every interleaving of deliveries of any sendable units, Keepalives, acknowledgements, expiry, protocol errors and Close, each connection carries whole PDUs then at most one partial one, a peer decodes exactly the units recorded, and the Keepalives its own timer wrote are numbered 0, 1, 2, ... modulo 2^32 with no gap; callers' units are those whose lengths fit in 32 bits, which Send and SendBatch do not check |
| `ConnectionProperties.TornConnectionIsFinal` | x2x3/client.go:138-204 | nothing more is ever written on a connection that ends in a partial PDU, whatever steps follow |
| `ConnectionProperties.OnlyLiveIsWritten` | x2x3/keepalive.go:404-420 | no step changes what a connection other than the live one carries, or makes it live again |
| `ConnectionProperties.DroppedIsFinal` | x2x3/client.go:295-308 | the same over every run: a connection no longer held is never written or held again |
| `ConnectionProperties.DeliveryIsSound` | x2x3/client.go:138-204 | a delivery of any sendable units keeps every connection framed and decoded as recorded |
| `ConnectionProperties.ClosedIsFinal` | x2x3/client.go:314-330 | after Close nothing is written or dialled again, whatever steps follow |
| `ConnectionProperties.RefreshesAreBounded` | x2x3/keepalive.go:91-154 | with fewer than 2^32 Keepalives issued, accepted acknowledgements strictly increase and were all issued, so deadline refreshes never exceed Keepalives issued |
| `ConnectionProperties.StepKeeps` | x2x3/keepalive.go:477-625 | every step of every party keeps framing, numbering and acknowledgement order together |
| `ConnectionSteps.ExpiryReplaces` | x2x3/keepalive.go:608-625 | when acknowledgements stop the timer ends and its connection is let go of; if it was the one held a new, empty one with its own numbering is dialled and held, and none if that fails |
| `ConnectionSteps.FaultDrops` | x2x3/keepalive.go:586-598 | a protocol error drops the connection it came on and no other |
| `ConnectionSteps.EndedIsFinal` | x2x3/keepalive.go:586-625 | over any later run a connection that expired or broke the protocol is never written or held again |
| `ConnectionSteps.CloseLetsGo` | x2x3/client.go:314-330 | after Close nothing is held, dialled or written, over any later run |
| `ConnectionSteps.KeepaliveGoesOut` | x2x3/keepalive.go:328-400 | a timer's turn on the held connection adds exactly one Keepalive to what a peer decodes, numbered by how many the timer wrote before |
| `ConnectionSteps.KeepaliveStops` | x2x3/keepalive.go:362-425 | a timer whose connection was replaced, or whose write failed, stops, and a replaced connection is not written |
| `ConnectionSteps.StaleTimerStops` | x2x3/keepalive.go:328-360 | a waiting timer whose connection was replaced stops and changes nothing else |
| `ConnectionSteps.AnswerGoesOut` | x2x3/keepalive.go:550-568 | a peer's Keepalive is answered by one acknowledgement carrying its number |
| `ConnectionSteps.AcceptedExactlyWhen` | x2x3/keepalive.go:140-154 | an acknowledgement is accepted exactly if its number was issued and is above all accepted before |
| `ConnectionSteps.AcceptedRefreshes` | x2x3/keepalive.go:328-360 | an accepted acknowledgement reaches the waiting timer and refreshes its deadline once |
| `Inbound.React` | x2x3/keepalive.go:477-568 | what a decoded PDU leads to: an acknowledgement is considered, a Keepalive answered, either without a number ignored, anything else a protocol error |
| `Inbound.FaultsExactlyWhen` | x2x3/keepalive.go:477-545 | a PDU is a protocol error exactly if it is neither a Keepalive nor an acknowledgement |
| `Inbound.ExchangedIsUnderstood` | x2x3/keepalive.go:477-568 | a Keepalive or acknowledgement as written here is read back with its number |
| `Inbound.PeersKeepalivesAreRead` | x2x3/keepalive.go:427-475 | Keepalives and acknowledgements of any numbers, in any order and split into any reads, are all handed on in order and the reader goes on |
| `Inbound.PeersKeepaliveIsAnswered` | x2x3/keepalive.go:550-568 | a Keepalive read on the held connection puts one acknowledgement with its number on the wire |
| `Inbound.PeersAcknowledgementIsAccepted` | x2x3/keepalive.go:477-540 | an acknowledgement of the last Keepalive issued is accepted if it was not before |
| `Inbound.FaultEndsTheReader` | x2x3/keepalive.go:427-475 | behind any Keepalives and acknowledgements, product or any other PDU is handed on once and nothing that follows it is |
| `ConnectionRuns.ProductArrivesInOrder` | x2x3/client.go:138-204 | over every run, decoding all connections in dial order and keeping the product gives what was there before and then, delivery by delivery, the product of each batch's landed prefix: nothing repeated, reordered or invented across redials and connections; the deliveries are of PDUs whose lengths fit in 32 bits |
| `ConnectionRuns.NumberingHoldsExactlyWhen` | x2x3/keepalive.go:36-65 | all Keepalives on every connection, whoever wrote them, count up in every run if and only if what callers may send includes no Keepalive |
| `ConnectionRuns.NumberedWithoutCallersKeepalives` | x2x3/keepalive.go:328-420 | if no caller sends a Keepalive, all Keepalives on every connection are numbered 0, 1, 2, ... |
| `ConnectionRuns.CallersKeepaliveBreaksNumbering` | x2x3/client.go:84-100 | every Keepalive a caller can send breaks that numbering in some run |
| `ConnectionRuns.CallersKeepaliveSeven` | x2x3/client.go:84-100 | one such input: a Keepalive numbered 7 sent on a new client is the first on its connection |
| `Keepalive.KeepaliveSequence` | x2x3/keepalive.go:67-75 | the loop finds the first well-formed Sequence Number attribute, if any |
| `Keepalive.KeepalivesAreSendable` | x2x3/keepalive.go:36-65 | a Keepalive or its acknowledgement always marshals, in 48 bytes, and carries the number it was made with |
| `Keepalive.KeepaliveOctetsAre` | x2x3/keepalive.go:36-65 | the 48 octets of a Keepalive and of an acknowledgement |
| `Keepalive.SequenceIsFirst` | x2x3/keepalive.go:67-75 | the number read is that of the first attribute of type 8 with four octets, most significant first, and there is none exactly if there is no such attribute |
| `Keepalive.Counter.Take` | x2x3/keepalive.go:108-113 | numbers are handed out in order, wrapping at 2^32 |
| `Keepalive.Counter.Accept` | x2x3/keepalive.go:140-154 | an acknowledgement is accepted exactly if its number was issued and is above every one accepted before |
| `Sequencer.DrawnNumbersAreExact` | x2x3/sequencer.go:62-84 | over every interleaving of lookup, create, increment and forget steps, one counter object draws 0..N-1 each once up to 2^32, and a context never has two objects unless it was forgotten between |
| `Sequencer.CountersCountSinceForgotten` | x2x3/sequencer.go:62-137 | a context's counter is the number of draws since it was last forgotten: Forget restarts exactly its XID's contexts, ForgetContext only its own |
| `Sequencer.NextDrawsCount` | x2x3/sequencer.go:62-84 | Next returns how many numbers the context drew since it was last forgotten |
| `Sequencer.UninterruptedCallIsNext` | x2x3/sequencer.go:62-84 | a call no other interrupts draws and leaves what the sequential Next does |
| `Sequencer.ForgettingLetsGo` | x2x3/sequencer.go:99-137 | between other calls' steps too, Forget lets go of exactly one XID's contexts and ForgetContext of exactly one, and no counter object changes |
| `Sequencer.CreatingStartsAtZero` | x2x3/sequencer.go:62-84 | a counter made for a context that has none starts by giving out zero |
| `Sequencer.Numbering.Next` | x2x3/sequencer.go:62-84 | one sequential draw, and no other context changes |
| `Sequencer.Numbering.Forget` | x2x3/sequencer.go:99-110 | exactly the contexts of one XID are removed by the loop over the map |
| `Sequencer.Numbering.ForgetContext` | x2x3/sequencer.go:132-137 | exactly one context is removed |
| `AsyncQueue.QueueIsFifoAndSafe` | x2x3/async.go:104-247 | over every interleaving of Send, worker and any number of Close calls no step sends on or closes a closed channel or delivers nil; what is taken is what was accepted, in order, each once, in batches of 1 to 32; refused calls are reported by one onDrop each; the inner sender's close comes once and last, and every Close call returns after it with its answer |
| `AsyncQueue.FinishedMeansDrained` | x2x3/async.go:229-247 | when Close has finished, every accepted PDU was handed to the inner sender before it was closed |
| `AsyncQueue.NothingAcceptedAfterClose` | x2x3/async.go:174-188 | once the closed flag is set nothing is accepted, whatever calls were already under way |
| `AsyncQueue.RefusedOnlyWhenFull` | x2x3/async.go:174-188 | over every run the queue holds at most its depth, and an offer is refused exactly when it holds that many |
| `AsyncQueue.StepKeeps` | x2x3/async.go:104-247 | every step keeps order, accounting, lock discipline and batch shape together, and none panics |
| `AsyncProgress.EveryRunSettles` | x2x3/async.go:104-247 | no run spins: with s Sends and c Closes begun it has at most 7 + 8s + 2c steps; one that cannot go on has every Send accepted or reported, everything accepted handed to the inner sender and every Close returned with the inner close's answer; and every run can go on to such a state with no further call |
| `AsyncProgress.CloseFinishes` | x2x3/async.go:229-247 | in every unending behaviour in which whoever can move from some point on does move, a Close that was entered finishes, however many Sends keep coming, with everything accepted handed over |
| `AsyncProgress.CloseIsNotHeldUp` | x2x3/async.go:229-247 | once Close has asked for the lock, the steps it waits for in any run, with any number of further Sends, are bounded by the queue, the batch, the readers inside and Close's own phase |
| `AsyncProgress.CloseCanMove` | x2x3/async.go:229-247 | while Close is entered and not finished, some step it waits for can be taken: no deadlock |
| `AsyncProgress.OthersDoNotDisable` | x2x3/async.go:174-247 | a step Close waits for, once possible, stays possible until its own party moves |
| `AsyncProgress.StepCosts` | x2x3/async.go:104-247 | every step uses up one unit of the measure, and only a Send or a Close begun adds to it |
| `AsyncCalls.UninterruptedSend` | x2x3/async.go:150-188 | the machine's Send with no other step between makes of queue, drops and log what the object's Send makes |
| `AsyncCalls.UninterruptedTurn` | x2x3/async.go:104-138 | the worker's steps alone, from receive to delivery, make what the object's TakeBatch makes |
| `AsyncCalls.UninterruptedClose` | x2x3/async.go:229-247 | the first Close's steps and the worker's alone make what the object's Close makes, and answer what the inner close answered |
| `AsyncCalls.UninterruptedSecondClose` | x2x3/async.go:229-247 | any later Close changes nothing and is answered as the first was |
| `DeliveryPipeline.PeersGetWhatWasAccepted` | x2x3/async.go:104-266 | over every interleaving of Sends, worker, connections, timers and Close, the product a peer decodes over all connections is drawn from different accepted Send calls, in the order they were accepted; for PDUs whose lengths fit in 32 bits and a client used by this queue alone |
| `DeliveryPipeline.NothingLostWithoutFailure` | x2x3/async.go:229-266 | if every delivery was answered nil, then once Close has finished the peer has the product of exactly the accepted PDUs that marshal, in order |
| `DeliveryPipeline.StepKeeps` | x2x3/async.go:249-266 | every step of queue or client keeps both invariants and what was delivered drawn, in order, from what was handed over |
| `AsyncQueue.DrainedHandsOver` | x2x3/async.go:104-138 | turn after turn of the worker hands over the queue in order and changes nothing else |
| `AsyncQueue.AsyncSender.constructor` | x2x3/async.go:88-102 | a depth that is not positive becomes 1024 |
| `AsyncQueue.AsyncSender.Send` | x2x3/async.go:150-168 | nil is answered as an error and nothing else; anything not accepted is reported as one drop |
| `AsyncQueue.AsyncSender.TakeBatch` | x2x3/async.go:104-141 | the drain loop takes exactly the first 32 queued PDUs, or all of them |
| `AsyncQueue.AsyncSender.Close` | x2x3/async.go:229-247 | everything queued is handed over in order, then the inner sender is closed once, however often Close is called, and every call returns that close's answer |
| `TaskStore.Store.Activate` | store/store.go:37-68 | the task replaces any earlier one under its XID, an empty XID is refused, and the target index stays exact |
| `TaskStore.Store.Deactivate` | store/store.go:72-81 | exactly one task goes and the index stays exact with no empty set |
| `TaskStore.Store.DeactivateAll` | store/store.go:108-113 | no task and no index entry is left |
| `TaskStore.Store.Snapshot` | store/store.go:151-160 | the one list of all tasks in strict XID order |
| `TaskStore.Store.Match` | store/store.go:174-187 | the tasks naming an identifier, each once, in strict XID order |
| `TaskStore.Unindexed` | store/store.go:88-103 | the loop removes a task from exactly the identifiers it names, repeated or not, and leaves no empty set |
| `TaskStore.Indexed` | store/store.go:54-65 | the loop adds a task under exactly the identifiers it names |
| `TaskStore.SortByXid` | store/store.go:191-195 | sorting keeps the tasks and orders them strictly by XID |
| `TaskStore.SortedIsUnique` | store/store.go:162-195 | a sorted answer does not depend on the order a map was iterated in |
| `TaskStore.BeforeIsLexicographic` | store/store.go:191-195 | the order of XIDs is lexicographic: by the first difference, a prefix first |
| `TaskStore.RunOperations` | store/store.go:37-195 | after any sequence of operations the index is exact and a look-up depends on the operations alone |
| `TaskingProperties.EndpointsNeverDrift` | x1/x1.go:1430-1514 | after any sequence of messages every held task's stored endpoints are exactly what its DIDs resolve to in the tables as they are now, with nothing unresolved |
| `TaskingProperties.StepKeeps` | x1/x1.go:1223-1376 | no message, of any kind and with any outcome, breaks that agreement |
| `TaskingProperties.ProvisionKeeps` | x1/x1.go:1430-1514 | creating a destination cannot change what any held task's DIDs resolve to |
| `TaskingProperties.RemoveAllKeeps` | x1/x1.go:1108-1125 | bulk removal cannot change what any held task's DIDs resolve to |
| `TaskingProperties.TransitionKeeps` | x1/x1.go:1135-1221 | an activation or modification stores endpoints that agree with the tables and leaves every other task agreeing |
| `TaskingProperties.EventsAddUpToTheStore` | x1/x1.go:1026-1067 | folding the events of any run gives the store, and each event's previous task is what the fold held |
| `TaskingProperties.StepFolds` | x1/x1.go:992-1067 | the same for each single message, bulk removals included |
| `TaskingProperties.EventsExactlyOnChange` | x1/x1.go:1026-1056 | events are sent if and only if the tasks changed |
| `TaskingProperties.ReplayTellsNobody` | x1/x1.go:1026-1056 | sending an acknowledged activation again, as activation or modification, changes nothing and emits nothing |
| `TaskingProperties.RefusalChangesNothing` | x1/x1.go:1223-1376 | a message answered with an error changes neither tasks nor destinations and emits nothing |
| `TaskingProperties.AcknowledgedIsCarriedOut` | x1/x1.go:1615-1726 | an acknowledged task is held as ordered: IRI exactly if X2 was ordered and content exactly if X3 was, each once; the record scope of the first extension that carries one; the number its correlation digits denote; every DID resolved; intercepted on exactly the identifiers its targets map to; an X3 destination where content needs one; and only a held task is modified |
| `TaskingProperties.CreatedThenNamed` | x1/x1.go:1529-1613 | a destination created and then named by a task is where that task delivers, on exactly the interfaces its type gives |
| `TaskingAnswers.TaskAnswer` | x1/x1.go:1135-1221 | the answer to every ActivateTask and ModifyTask: the first defect of the message in the order they are looked for, or an acknowledgement |
| `TaskingAnswers.TaskAcknowledgedExactlyWhen` | x1/x1.go:1655-1726 | a task is acknowledged if and only if its identifiers are UUIDs, nothing is asked for that would not be done, its targets map, its product is known, its correlation is a number below 2^64, every DID is held, content has an X3 destination where required, and the point of interception can apply it |
| `TaskingAnswers.UuidIsFiveGroups` | x1/x1.go:2440-2464 | the identifier format is 8, 4, 4, 4 and 12 lower-case hexadecimal digits with hyphens between, and nothing else |
| `TaskingProperties.ParsedIsDenoted` | x1/x1.go:1683-1690 | a correlation number is accepted exactly if it is decimal digits denoting less than 2^64, and is the number they denote by place |
| `TaskingAnswers.ResolvesOne` | x1/x1.go:1595-1613 | one DID resolves to its destination's interfaces, X2 before X3, the provisioned destination before a configured one, or to nothing |
| `TaskingAnswers.ResolvesInOrder` | x1/x1.go:1595-1613 | a list of DIDs resolves DID by DID in order, and so do the unresolved ones |
| `TaskingAnswers.MapTargetsTogether` | x1/x1.go:1655-1672 | a list of targets maps target by target in order, or not at all |
| `TaskingAnswers.DestinationAnswer` | x1/x1.go:1430-1514 | the answer to every CreateDestination, and the one destination an acknowledged one adds |
| `TaskingAnswers.OtherAnswers` | x1/x1.go:1223-1378 | the answer to every other message |
| `TaskingAnswers.AcknowledgedLeaves` | x1/x1.go:1223-1378 | an acknowledged message changes the task or the destinations it names and no others |
| `TaskingAnswers.RemovalsAreTold` | x1/x1.go:1010-1067 | each task removed is told of as changed to nothing and then as purged, with the reason, in XID order |
| `TaskingAnswers.ChangeIsTold` | x1/x1.go:1135-1221 | an activation or modification tells of the task held before and after, or of nothing if they are the same |
| `Tasking.ResolvedMeansFound` | x1/x1.go:1595-1613 | a DID list with nothing unresolved names only destinations that are held |
| `Tasking.ResolvedEndpointNamesItsDid` | x1/x1.go:224-241 | every resolved endpoint is one its own DID's destination serves |
| `Tasking.ResolveReadsOnlyItsDids` | x1/x1.go:1567-1613 | resolution depends on the tables only at the DIDs listed |
| `TaskingServer.ResolveDids` | x1/x1.go:1595-1613 | the loop gives the endpoints in the order named and the unresolved DIDs separately |
| `TaskingServer.MapEach` | x1/x1.go:1662-1674 | every identifier is mapped or the task is refused |
| `TaskingServer.Server.TaskFromDetails` | x1/x1.go:1655-1726 | the task `TaskingProperties.AcknowledgedIsCarriedOut` describes, or the refusal `TaskingAnswers.TaskAnswer` gives |
| `TaskingServer.Server.ApplyTaskTransition` | x1/x1.go:1135-1221 | read, replace and notify as one step of the model, with its answer and events |
| `TaskingServer.Server.Deactivate` | x1/x1.go:1397-1419 | one task withdrawn and both callbacks made, or the refusal and no change |
| `TaskingServer.Server.PurgeAllTasking` | x1/x1.go:977-1008 | the store is emptied and every task that was there is reported removed, in XID order |
| `TaskingServer.Server.DestinationsInUse` | x1/x1.go:1075-1093 | the number of provisioned destinations some held task names |
| `TaskingServer.Server.DidReferenced` | x1/x1.go:1517-1525 | whether some held task names the DID |
| `TaskingServer.Server.RemoveAll` | x1/x1.go:1108-1125 | destinations are emptied exactly when none is in use |
| `TaskingServer.Server.Create` | x1/x1.go:1430-1514 | one destination added, or the refusal and no change |
| `TaskingServer.Server.Apply` | x1/x1.go:1223-1376 | every message's new state, answer and callbacks are the model step's |
| `TaskingServer.Server.ApplyAuthenticated` | x1/x1.go:818-877 | a message that does not authenticate is told to the failure callback and changes nothing else, the activity time included; one that does records activity and then steps |
| `TaskingServer.Server.PurgeIfLapsed` | x1/x1.go:928-965 | tasking is purged exactly when the last activity is older than the timeout |
| `Lapse.LapseRemovesOnlyStaleTasks` | x1/x1.go:928-1008 | over every interleaving of recording, applying, clock and watcher steps, each task a lapse purge removes was last stored by a message recorded more than the timeout before the locked re-check, and every removal reported as a lapse is one of those |
| `Lapse.TaskingHoldsThroughPurges` | x1/x1.go:928-1067 | with purges interleaved, endpoints still never drift and the events still add up to the store |
| `Lapse.RecentTaskStopsPurge` | x1/x1.go:936-957 | a task stored within the window stops a purge that had already been decided on |
| `Lapse.PurgeAbandonedExactlyWhen` | x1/x1.go:928-965 | between finding the ADMF quiet and the locked re-check, over any steps, the purge is abandoned if and only if some activity was recorded in between and within the timeout of the re-check; refused messages, and messages only applied, never postpone it |
| `Lapse.SilenceIsPurged` | x1/x1.go:928-1008 | with no activity recorded in between the purge goes ahead and leaves no task |
| `Lapse.LockTakenExactlyWhen` | x1/x1.go:1223-1378 | apart from activations and modifications, the messages that wait for the transition lock are exactly those that can change anything |
| `Lapse.DecidesExactlyWhen` | x1/x1.go:928-936 | a look at the clock decides on a purge exactly if the last activity is more than the timeout ago |
| `Lapse.LapseTellsOfEach` | x1/x1.go:1010-1067 | a lapse purge leaves no task and tells of each, in XID order, as changed to nothing and as lapsed |
| `Lapse.RequestIsServed` | x1/x1.go:855-880 | an authenticated request records its activity and is then served, unless a purge holds the lock it needs |
| `FaultReporter.ReportsAreOrderly` | x1/report.go:400-528 | over every interleaving each key has at most one send in flight, reported and lastSent hold the same keys, and both say what the acknowledgements say |
| `FaultReporter.ClearFollowsFault` | x1/report.go:484-528 | every acknowledged clear follows an acknowledged fault with no acknowledged clear between |
| `FaultReporter.FaultsAreSpaced` | x1/report.go:400-435 | two acknowledged faults with no acknowledged clear between are at least 30 s apart |
| `FaultReporter.AdmittedExactlyWhen` | x1/report.go:400-418 | over every run, with nothing in flight for the key, a fault report is admitted if and only if every fault outstanding there was acknowledged at least 30 s ago, and a retraction if and only if one is outstanding |
| `FaultReporter.BusyKeyIsRefused` | x1/report.go:400-418 | while an attempt is in flight no other is admitted for its key, and settling it frees the key and is acknowledged exactly if delivered |
| `FaultReporter.RepeatAdmittedWhenDue` | x1/report.go:400-418 | a fault that stands may be reported again exactly from 30 s after its acknowledgement on |
| `FaultReporter.StepKeeps` | x1/report.go:400-528 | every reserve, settle, retract and clock step keeps all of that |
| `FaultReporter.Reporter.Reserve` | x1/report.go:400-418 | a key is reserved exactly if nothing is in flight for it and its last acknowledged report is at least 30 s ago |
| `FaultReporter.Reporter.Settle` | x1/report.go:459-466 | a delivered report is recorded with its time, an undelivered one leaves no trace |
| `FaultReporter.Reporter.Clearing` | x1/report.go:484-502 | a retraction is reserved exactly if the fault was reported and nothing is in flight |
| `FaultReporter.Reporter.SettleClear` | x1/report.go:521-528 | a delivered retraction forgets the fault and its throttle, an undelivered one keeps both |
| `FaultReporter.Reporter.NotifyFault` | x1/report.go:846-880 | a fault report start to end: sent if allowed when decided, recorded with the time it settled if delivered |
| `FaultReporter.Reporter.NotifyClear` | x1/report.go:888-914 | a retraction start to end |
| `FaultWatch.DestinationHealthOf` | x1/faultwatch.go:52-82 | each identifier and address pair some task delivers to, once, with its reachability, and nothing else, in the order of the tasks that first ask for it; addresses no identifier names appear under the empty one |
| `FaultWatch.SurveyedExactlyWhen` | x1/faultwatch.go:52-82 | an identifier is listed at an address exactly if some task using the address delivers there under it, and the empty one exactly if some task uses the address with no identifier |
| `FaultWatch.SurveyListsEachDidOnce` | x1/faultwatch.go:52-82 | for tasks whose endpoints agree with the tables, each non-empty DID is listed at most once |
| `FaultWatch.HeldTasksAreConsistent` | x1/x1.go:1430-1514 | the tasks of every reachable server state agree with the tables |
| `FaultWatch.SampleIgnoresTaskOrder` | x1/faultwatch.go:187-243 | with a fixed clock and a fixed outcome per key, a sample leaves the reporter in the same state for every order of such tasks |
| `FaultWatch.OrderMattersForSplitIdentifier` | x1/faultwatch.go:52-243 | without that agreement the order decides: of any two tasks whose one delivery puts one identifier at a reachable and at an unreachable address, the survey in one order leaves its fault reported and the survey in the other does not |
| `FaultWatch.ElementClearOnlyWhenAllUp` | x1/faultwatch.go:233-243 | the element is reported clear if and only if it has un-identified destinations and all are reachable, and at fault if and only if one is not |
| `FaultWatch.DestinationCalledExactlyWhen` | x1/faultwatch.go:187-232 | an identified destination is reported exactly if it is down and retracted exactly if it is up, under its own key |
| `FaultWatch.Sample` | x1/faultwatch.go:187-243 | the loop drives the reporter through exactly the specified calls |
| `Types.DeliveryDids` | types/types.go:378-388 | exactly the non-empty identifiers provisioned onto an address, each once, in the order the task first names them |
| `Types.DeliveryAddresses` | types/types.go:353-363 | exactly the addresses a product goes to, each once, in the order the task first names them |
| `Xiri.PayloadReadsBack` | iri/emit.go:829-838 | a successful payload is exactly one element with no trailing bytes, and reading it back by tag gives the event's kind and every member up to zero-means-absent |
| `Xiri.EncodingIsInjective` | iri/emit.go:829-838 | events that encode alike are of one kind and have one canonical form |
| `Xiri.EncodedRecordsAreSound` | iri/iri.go:817-826 | EncodeXIRI succeeds only on records whose every reachable value meets its restriction, and the record read back meets them too |
| `Xiri.GuardedEnumsDecodeInRange` | iri/constraints.go:389-441 | every enumerated value guarded by type or by member decodes from the output to a value in its range |
| `Xiri.EncodesExactlyWhen` | iri/iri.go:817-865 | EncodeXIRI delivers if and only if the event is one of the 17 records, its endpoint list is acceptable, every reachable restriction is met and every written CHOICE holds one of its alternatives; nil panics |
| `Xiri.EmptyEndpointsAreEncoded` | iri/iri.go:848-865 | only two of the records with an endpoint list are guarded: whenever an SMFPDUSessionModification or SMFUnsuccessfulProcedure encodes, so does the same record with a present list of no endpoints, and that list is written |
| `Xiri.EmptyListIsEncoded` | iri/iri.go:817-865 | no list of any record but the two guarded ones is refused for being present and empty |
| `Xiri.FirstErrorWins` | iri/emit.go:31-52 | a structure's refusal is that of its first member that cannot be written |
| `Xiri.CanonPasses` | iri/constraints.go:338-387 | what a reader recovers passes the walk whenever the record did |
| `SchemaProperties.ReadsBack` | iri/emit.go:54-137 | any value of a well-formed type that is written reads back as its canonical form, at any depth |
| `SchemaProperties.FieldsReadBack` | iri/emit.go:333-827 | members of a SEQUENCE with ascending tags are recovered, absent OPTIONAL ones at their zero |
| `SchemaProperties.AltReadsBack` | iri/emit.go:139-312 | the alternative of a CHOICE with distinct tags is recovered with its kind |
| `SchemaProperties.EmitsIffWritable` | iri/emit.go:128-137 | writing succeeds if and only if every CHOICE that is written holds one of its alternatives |
| `SchemaProperties.OmittedReadsAsItWas` | iri/emit.go:103-113 | an omitted member other than a CHOICE reads back as the value it had |
| `SchemaProperties.OmittedExactlyWhen` | iri/emit.go:103-130 | a member is left out exactly if it is OPTIONAL and at its type's zero, or a CHOICE that holds nothing or a zero |
| `SchemaProperties.EmittedShape` | iri/emit.go:54-101 | simple members are primitive; structures, CHOICEs and lists constructed, a CHOICE around one alternative under its own tag, a list around one element for each of its own, structures in it as universal SEQUENCEs |
| `Records.EventWellFormed` | iri/emit.go:265-312 | the 17 records have strictly ascending member tags and distinct CHOICE tags throughout |
| `PayloadModule.SNSSAIFollowsModule` | iri/testdata/asn1/TS33128Payloads.asn:6908-6914 | SNSSAI is written with the module's components in its order, each with its tag, presence and type |
| `PayloadModule.FTEIDFollowsModule` | iri/testdata/asn1/TS33128Payloads.asn:6538-6543 | FTEID is written with the module's components in its order, each with its tag, presence and type |
| `PayloadModule.FiveGSGTPTunnelsFollowsModule` | iri/testdata/asn1/TS33128Payloads.asn:2637-2642 | FiveGSGTPTunnels is written with the module's components in its order, each with its tag, presence and type |
| `PayloadModule.GTPTunnelInfoFollowsModule` | iri/testdata/asn1/TS33128Payloads.asn:3240-3244 | GTPTunnelInfo is written with the module's components in its order, each with its tag, presence and type |
| `PayloadModule.LocationInfoFollowsModule` | iri/testdata/asn1/TS33128Payloads.asn:7043-7051 | LocationInfo is written with the module's components in its order, each with its tag, presence and type |
| `PayloadModule.LocationFollowsModule` | iri/testdata/asn1/TS33128Payloads.asn:7025-7033 | Location is written with the module's components in its order, each with its tag, presence and type |
| `PayloadModule.FiveGSSubscriberIDsFollowsModule` | iri/testdata/asn1/TS33128Payloads.asn:6487-6490 | FiveGSSubscriberIDs is written with the module's components in its order, each with its tag, presence and type |
| `PayloadModule.UserIdentifiersFollowsModule` | iri/testdata/asn1/TS33128Payloads.asn:7013-7017 | UserIdentifiers is written with the module's components in its order, each with its tag, presence and type |
| `PayloadModule.PDUSessionResourceInformationFollowsModule` | iri/testdata/asn1/TS33128Payloads.asn:6751-6754 | PDUSessionResourceInformation is written with the module's components in its order, each with its tag, presence and type |
| `PayloadModule.FiveGGUTIFollowsModule` | iri/testdata/asn1/TS33128Payloads.asn:6467-6475 | FiveGGUTI is written with the module's components in its order, each with its tag, presence and type |
| `PayloadModule.SUCIFollowsModule` | iri/testdata/asn1/TS33128Payloads.asn:6922-6935 | SUCI is written with the module's components in its order, each with its tag, presence and type |
| `PayloadModule.PLMNIDFollowsModule` | iri/testdata/asn1/TS33128Payloads.asn:6732-6736 | PLMNID is written with the module's components in its order, each with its tag, presence and type |
| `PayloadModule.TAIFollowsModule` | iri/testdata/asn1/TS33128Payloads.asn:7180-7185 | TAI is written with the module's components in its order, each with its tag, presence and type |
| `PayloadModule.SMFServingNetworkFollowsModule` | iri/testdata/asn1/TS33128Payloads.asn:2601-2605 | SMFServingNetwork is written with the module's components in its order, each with its tag, presence and type |
| `PayloadModule.AMFIDFollowsModule` | iri/testdata/asn1/TS33128Payloads.asn:1955-1960 | AMFID is written with the module's components in its order, each with its tag, presence and type |
| `PayloadModule.AMFRegistrationFollowsModule` | iri/testdata/asn1/TS33128Payloads.asn:1741-1775 | AMFRegistration is written with the module's components in its order, each with its tag, presence and type |
| `PayloadModule.AMFDeregistrationFollowsModule` | iri/testdata/asn1/TS33128Payloads.asn:1778-1793 | AMFDeregistration is written with the module's components in its order, each with its tag, presence and type |
| `PayloadModule.AMFStartOfInterceptionWithRegisteredUEFollowsModule` | iri/testdata/asn1/TS33128Payloads.asn:1811-1834 | AMFStartOfInterceptionWithRegisteredUE is written with the module's components in its order, each with its tag, presence and type |
| `PayloadModule.SMFPDUSessionEstablishmentFollowsModule` | iri/testdata/asn1/TS33128Payloads.asn:2285-2317 | SMFPDUSessionEstablishment is written with the module's components in its order, each with its tag, presence and type |
| `PayloadModule.SMFPDUSessionModificationFollowsModule` | iri/testdata/asn1/TS33128Payloads.asn:2320-2346 | SMFPDUSessionModification is written with the module's components in its order, each with its tag, presence and type |
| `PayloadModule.SMFPDUSessionReleaseFollowsModule` | iri/testdata/asn1/TS33128Payloads.asn:2349-2367 | SMFPDUSessionRelease is written with the module's components in its order, each with its tag, presence and type |
| `PayloadModule.AMFLocationUpdateFollowsModule` | iri/testdata/asn1/TS33128Payloads.asn:1796-1808 | AMFLocationUpdate is written with the module's components in its order, each with its tag, presence and type |
| `PayloadModule.AMFUnsuccessfulProcedureFollowsModule` | iri/testdata/asn1/TS33128Payloads.asn:1837-1850 | AMFUnsuccessfulProcedure is written with the module's components in its order, each with its tag, presence and type |
| `PayloadModule.AMFIdentifierAssociationFollowsModule` | iri/testdata/asn1/TS33128Payloads.asn:5795-5805 | AMFIdentifierAssociation is written with the module's components in its order, each with its tag, presence and type |
| `PayloadModule.AMFIdentifierDeassociationFollowsModule` | iri/testdata/asn1/TS33128Payloads.asn:5807-5816 | AMFIdentifierDeassociation is written with the module's components in its order, each with its tag, presence and type |
| `PayloadModule.SMFStartOfInterceptionWithEstablishedPDUSessionFollowsModule` | iri/testdata/asn1/TS33128Payloads.asn:2370-2400 | SMFStartOfInterceptionWithEstablishedPDUSession is written with the module's components in its order, each with its tag, presence and type |
| `PayloadModule.SMFUnsuccessfulProcedureFollowsModule` | iri/testdata/asn1/TS33128Payloads.asn:2403-2426 | SMFUnsuccessfulProcedure is written with the module's components in its order, each with its tag, presence and type |
| `PayloadModule.AMFUEServiceAcceptFollowsModule` | iri/testdata/asn1/TS33128Payloads.asn:1936-1949 | AMFUEServiceAccept is written with the module's components in its order, each with its tag, presence and type |
| `PayloadModule.AMFUEPolicyTransferFollowsModule` | iri/testdata/asn1/TS33128Payloads.asn:1925-1933 | AMFUEPolicyTransfer is written with the module's components in its order, each with its tag, presence and type |
| `PayloadModule.AMFPositioningInfoTransferFollowsModule` | iri/testdata/asn1/TS33128Payloads.asn:1853-1864 | AMFPositioningInfoTransfer is written with the module's components in its order, each with its tag, presence and type |
| `PayloadModule.AMFRANHandoverCommandFollowsModule` | iri/testdata/asn1/TS33128Payloads.asn:1867-1874 | AMFRANHandoverCommand is written with the module's components in its order, each with its tag, presence and type |
| `PayloadModule.AMFRANHandoverRequestFollowsModule` | iri/testdata/asn1/TS33128Payloads.asn:1877-1890 | AMFRANHandoverRequest is written with the module's components in its order, each with its tag, presence and type |
| `PayloadModule.ChoicesFollowModule` | iri/emit.go:130-262 | the nested CHOICEs write their alternatives under the module's tags |
| `PayloadModule.AlternativesFollowModule` | iri/testdata/asn1/TS33128Payloads.asn:39-325 | each of the 17 records is the module's alternative of XIRIEvent with that tag |
| `PayloadModule.PayloadIsTagged` | iri/emit.go:829-838 | every payload is a SEQUENCE of its object identifier, octet by octet, under [1] and, under [2], the record under its tag |
| `PayloadModule.IntegersFollowModule` | iri/constraints.go:94-322 | an integer passes exactly if it is in the module's range or among its enumerated values, or is the zero of an enumeration that may be absent there, or is 28 for CauseRadioNetwork, which the range covers and the module leaves out |
| `PayloadModule.ZeroIsRefusedWhereMandatory` | iri/constraints.go:174-261 | zero is refused for an enumeration exactly in the records where its component is mandatory |
| `PayloadModule.ZeroIsRefusedWhereMandatoryInSessions` | iri/constraints.go:174-261 | the same in the session records |
| `PayloadModule.OctetStringsFollowModule` | iri/constraints.go:73-92 | an octet string passes exactly if it is empty or of the size the module asks for |
| `PayloadModule.StringsFollowModule` | iri/constraints.go:122-160 | a string passes exactly if it is empty or has the size in characters, and the digits, the module asks for |
| `PayloadModule.RunesAreCharacters` | iri/constraints.go:389-441 | the size of a UTF-8 text is the number of its characters |
| `PayloadModule.EndpointGuardIs` | iri/iri.go:848-865 | the guard looks at the member called UEEndpoint: mandatory and not empty in one record, absent or not empty in the other |
| `PayloadModule.OutcomeIs` | iri/iri.go:817-865 | which of its refusals EncodeXIRI gives: endpoints before restrictions, restrictions before the encoding |
| `Constraints.WalkPassesIffAllMet` | iri/constraints.go:338-472 | the walk accepts a record if and only if every value reachable through structures, lists, pointers and CHOICEs meets its size, range or alphabet |
| `Constraints.WalkNamesAnOffender` | iri/constraints.go:338-387 | the path the walk refuses with leads to a value that violates its restriction |
| `XiriBuilder.EncodePayload` | iri/emit.go:829-838 | the builder produces the specified bytes, whose octets `PayloadModule.PayloadIsTagged` and `Der.EncodingIsShortest` fix, or the first error and no bytes |
| `XiriBuilder.EmitInto` | iri/emit.go:54-137 | writing one member into a builder appends exactly its encoding, or sets the first error, or does nothing after one |
| `XiriBuilder.EmitElemsInto` | iri/emit.go:314-331 | the SEQUENCE OF loops append each element in order |
| `XiriBuilder.Builder.Wrap` | iri/emit.go:90-101 | an inner builder's error is taken over with nothing written, its bytes otherwise wrapped whole |
| `Der.ParseReads` | iri/emit.go:54-101 | under X.690 any nested element reads back exactly, whatever follows it |
| `Der.IntegerIsShortest` | iri/emit.go:53-57 | INTEGER contents are the shortest two's complement form of section 8.3.2 of X.690 |
| `Der.IdentifierReads` | iri/emit.go:265-312 | identifier octets read back for every tag, the high-tag-number form included |
| `Der.LengthReads` | iri/emit.go:64-68 | definite lengths read back, the long form included |
| `Der.EncodingIsShortest` | iri/emit.go:54-101 | what is written for any nested element is the shortest of all the octets that read as the same element, so every identifier and length is in its shortest form |
| `Der.LengthIsShortest` | iri/emit.go:64-68 | section 10.1 of X.690: no shorter length octets read as the same length, and there is one exactly below 128 |
| `Der.LengthOctetsAre` | iri/emit.go:64-68 | the length octets of contents below 65536, written out |
| `Der.IdentifierIsShortest` | iri/emit.go:54-68 | sections 8.1.2.2 and 8.1.2.4.2 of X.690: the one-octet form exactly for tags below 31, no shorter form that reads the same, and no leading empty group |
| `Der.IdentifierOctetsAre` | iri/emit.go:54-101 | the identifier octets of context tags below 16384 and of a SEQUENCE, written out |
| `Der.BooleanIsCanonical` | iri/emit.go:60-62 | section 11.1 of X.690: TRUE is FF and FALSE is 00 |

## Left out

- HTTP, TLS, certificates and the authentication decision itself: each message carries whether it authenticated.
- XML parsing, templates, response rendering, error codes and description texts: refusals are kinds, not codes.
- The arms of `mapTarget` and the value checks of target identifiers and addresses (`x1/x1.go:1820-2195`, `x1/x1.go:1529-1563`): what a target maps to, and whether it is well formed, is given with the message.
- `WithConfiguredDestinations` and its validity check: the configured table is any table.
- Fault probes, task fault suppliers and the contents of interrogation answers: they change nothing.
- `NotifyTask` and `ReportTaskIssue` called directly: they are not throttled and touch none of the reporter's records.
- Reports that arrived but whose answer was lost: the source treats them as not delivered, so the reporter's properties are over acknowledged sends.
- `ErrUnitDropped` as "exactly one unit lost": a retried write may fail with several units unsent, so only the prefix property is claimed.
- `accept` after the 32-bit wrap of keepalive numbers: the source assumes no wrap, and `ConnectionProperties.RefreshesAreBounded` is stated for connections below it.
- The `unreachable` flag and the acknowledgement-mismatch counter in interleavings: the flag is specified for single calls only.
- The liveness of the queue takes the inner sender's calls to return and waiting writers to keep new readers out, as sync.RWMutex documents; a Close caller's own last return is in `AsyncProgress.EveryRunSettles` and not in `AsyncProgress.CloseFinishes`.
- What a plain inner sender does with a batch after its first failed Send (`x2x3/async.go:250-266`): the queue's model ends where the batch is handed over, and `DeliveryPipeline` takes the delivery client as the inner sender.
- Go's distinction between nil and empty slices outside the xIRI records, and slice aliasing in the task store, which copies on the way in and out.
- `x2x3/pool.go`: a map from address to sender and a close deadline in wall-clock time; each sender it holds is modelled on its own.
- `x2x3/attributes.go`, and `Identifiers` and `UEEndpoint` of `iri/iri.go`: they build attribute lists and record members, and the codec and encoder results hold for every such list and record.
- DeliveryClient.Client.Close: does not model waiting for the connection's timer and reader to exit; `ConnectionProperties.ClosedIsFinal` says they write nothing after it.
- Xiri.PayloadReadsBack: requires the output to be shorter than 2^63 bytes, which every Go slice is.
- Xiri.EncodedRecordsAreSound: requires the output to be shorter than 2^63 bytes, which every Go slice is.
- Xiri.GuardedEnumsDecodeInRange: requires the output to be shorter than 2^63 bytes, which every Go slice is.
- Xiri.EncodingIsInjective: requires the output to be shorter than 2^63 bytes, which every Go slice is.
- Text of refusals in the xIRI encoder: a refusal names the member and kind, the walk's names the path.
