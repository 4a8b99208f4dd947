# Verified model of the IB API client

The client talks to a trading gateway over one TCP connection. This project models the path from socket bytes to
callbacks and from requests to socket bytes, and proves what that path is for:

- **Wire layer** (`Framing`, `Fields`, `Cursor`): the length-prefixed framers, the NUL-separated field writer, the two
  field readers and the encoding of unset values.
- **Connection lifecycle** (`Lifecycle`, `Footprints`, `Teardown`, `Shutdown`, `Exits`, `Confirmation`, `Handshake`,
  `HandshakeWait`, `HandshakeWitness`, `Client`): one connection epoch as a machine with a program counter for every
  goroutine and every interleaving of their atomic steps as a run, first while HandShake runs beside the receiver and then
  while the three workers do; the invariants of all runs; progress after shutdown and the exact condition under which it
  fails; how panics and failures end a worker; and the client object itself, whose methods change its fields the way the
  machine's record of shared fields says.
- **Versioned orders** (`Versions`, `Conditions`, `OrderLayout`, `Orders`, `Guards`, `OrderEncoding`, `OrderMeaning`,
  `OrderWriter`): what PlaceOrder refuses and sends for every server version, a reader of that layout that knows only the
  version, and which attribute that reader finds at which position.
- **Decoders** (`Items`, `OpenOrder`, `OpenOrderDecoder`, `GroupRoundTrips`, `OpenOrderRoundTrip`, `OpenOrderSheet`,
  `OpenOrderEncoding`, `Counted`): the open-order decoder with its gates, flags and counted groups, what each attribute it
  hands over is in the message, the condition hierarchy, and the messages with counted rows.

## How to read it

Loops and mutation are methods of classes (`Reader`, `MsgBuffer`, `IbClient`) or methods with loops; each is proved
against a function of its inputs or of the old state, and the laws are lemmas about those functions. A cursor in a message
is a position in its list of fields (`MsgBuffer.pos`); `XAt(ts, pos)` is what a decoder reads there and where it stops. A Go
panic inside a decoder is the value `Panic`. Bytes are `byte`, integers are `int64` with its range, and a frame header
wraps at 32 bits. A float is its 64-bit pattern; printing and parsing it is a parameter (`FloatCodec`) of which
only this is assumed: what is printed is not empty and has no NUL. Where a law needs ten digits to be enough for a
particular float, that is a hypothesis (`Exact`).

A decoder's run of reads without branches is one block of typed values; `OpenOrderSheet` and `Counted` say which attribute
each value becomes. Every gate, flag, count and loop is kept. A "natural" message is one written from the attributes by name,
field by field. Server and message versions are written as numbers where a law is about a position.

## What the code does that its documentation does not say

- `Disconnect` and `LoopUntilDone` return the recorded error, and the comment on `Disconnect` (client.go:226-234) has it
  delivered before the reset. The deferred calls run in the other order: `reset` clears the error before `done` is closed,
  so both always return nil (`Teardown.ErrorNeverReturned`, with a run in `Teardown.ErrorLostWitness`).
- After shutdown the workers can block for ever, and `Disconnect` with them. If no request is enqueued any more, they can
  do so exactly when the frames still buffered do not fit `msgChan` or the pending writes do not fit `errChan`
  (`Shutdown.SticksExactlyWithoutRoom`, with a run in `Shutdown.DisconnectCanHang`). But `enqueue` may still get a request
  into the channel after the signal is closed, and each one can fail: over all runs the workers can get stuck exactly when
  those frames do not fit or the requester has not left its loop (`Shutdown.SticksExactly`).
- A handshake that times out, is cancelled or panics calls `Disconnect`, which waits for the receiver while nobody drains
  `msgChan`. It can return exactly when the frames the receiver has at hand fit that channel together with what waits
  there (`HandshakeWait.ReturnsExactlyWithRoom`, with a run that never returns in `HandshakeWitness.HandshakeCanHang`).
- `HandShake` returns nil for a confirmed connection, and also when the peer closes the stream before the server info:
  `scanner.Err()` is nil there (`Handshake.ReturnsNilExactly`).
- A receiver that ends while the handshake still runs starts `Disconnect` itself. `HandShake` can then return nil on a
  client that has been torn down (`HandshakeWitness.NilFromTornDown`); Run finds the machine in its invariant exactly when
  that teardown has not yet passed its wait (`Handshake.RunKeepsInvariant`).
- `decode` and `setCondType` work on copies: a decoded condition keeps neither its values nor its type. An order with the
  conditions of a decoded open order is unreadable unless it has none (`Conditions.DecodedTagIsLost`,
  `GroupRoundTrips.DecodedConditionsUnsendable`).
- Below server version 66 every order is refused: guards fall through into the bodies of unrelated ones
  (`Client.IbClient.PlaceOrder`), and the error then names an attribute that the order need not set; when exactly it is the
  right one is `Guards.ComplaintHonest`. From 66 to 101 an order is accepted and never sent.
- The requester's "not connected" branch is never taken (`Teardown.RequestConservation`).
- An order's list of fields can be read back if and only if every condition's type tag declares as many fields as the
  condition writes and the printed scale increment is positive exactly if the increment is
  (`OrderEncoding.PlaceOrderReadable`); nothing in the code checks the tag, and printing keeps ten digits.

## Scope

The machine of the running client starts when Run has spawned its workers (`Lifecycle.Init`); the handshake's machine
starts after Connect (`Client.FreshIsBegin`), and `Handshake.RunStarts` leads from one to the other. Connect is a sequential
operation, called on a new client or after a completed Disconnect; what happens to the epoch otherwise is stated too
(`Client.IbClient.Connect`). User callbacks return or panic and do not call back into the client. The machines cover one
epoch; `Client.TeardownLeavesQuiet` and `HandshakeWait.FailedLeavesQuiet` say that the next Connect starts afresh.

## Model

| member | source | states |
|---|---|---|
| Framing.HeaderValue | utils.go:180 | the header holds the payload's length modulo 2^32, big-endian |
| Framing.HeaderOrder | utils.go:106 | headers compare byte by byte from the first as the lengths do: the first byte weighs most |
| Framing.ScanExtends | utils.go:97-116 | a complete token is never changed by more data |
| Framing.FramesSplit | utils.go:97-116 | scanning can stop anywhere and go on with what is left over |
| Framing.ConsumedBytes | utils.go:97-116 | the bytes consumed are the sum of 4 + length over the tokens, and the rest stays |
| Framing.WireFrames | utils.go:97-116 | scanning a sequence of framed payloads returns exactly them |
| Framing.ChunkingIndependence | utils.go:97-116 | any fragmentation of the stream gives the tokens of the whole stream at once |
| Framing.DeliverableIsFittingPrefix | client.go:432-434 | with a buffer limit the delivered frames are the longest prefix in which each length + 4 fits |
| Framing.LimitIsHarmless | client.go:432-434 | nothing is lost to the limit if and only if every frame fits |
| Framing.ScanAll | client.go:3126-3132 | the scan loop over any reader delivers exactly those frames and reports "too long" exactly when a limit's worth of bytes is left |
| Framing.ReadExactly | utils.go:63-72 | the partial-read loop terminates and returns exactly the next n bytes, or fails at the end of the stream |
| Framing.ReadMsgBytes | utils.go:59-94 | one pull returns what one scan would return |
| Framing.PullAll | utils.go:59-94 | the pull framer yields the frames of the push framer |
| Fields.IntRoundTrip | utils.go:155-170 | every int64, -2^63 included, survives formatting and parsing |
| Fields.MakeMsgBytes | utils.go:149-183 | the message is the header and the rendered fields, each terminated |
| Fields.SplitTerminated | utils.go:185-188 | splitting undoes terminating and drops an unterminated tail |
| Fields.SplitRebuilds | utils.go:185-188 | any buffer is the fields split from it, terminated, and a NUL-free tail |
| Fields.SplitsIntoFields | utils.go:185-188 | the payload made of NUL-free fields splits into the rendered fields |
| Fields.UnsetIntRoundTrip | utils.go:230-237 | the unset-aware reader undoes handleEmpty on every int64; the plain reader does so exactly off UNSETINT |
| Fields.UnsetFloatRoundTrip | utils.go:239-243 | the same for floats that ten digits describe |
| Fields.SmallTexts | utils.go:302-391 | what the empty field and a single digit mean to each reader |
| Fields.MsgBuffer.constructor | utils.go:406-411 | a new buffer stands at the first field of the split message |
| Fields.MsgBuffer.NextField | utils.go:292-300 | the next element of the split message, or a panic on an unterminated tail, which is consumed |
| Fields.MsgBuffer.ReadInt | utils.go:292-312 | the integer at the cursor, 0 for an empty field, a panic for anything else |
| Fields.MsgBuffer.ReadIntCheckUnset | utils.go:314-334 | the same with UNSETINT for an empty field |
| Fields.MsgBuffer.ReadFloat | utils.go:336-356 | the float at the cursor, 0 for an empty field |
| Fields.MsgBuffer.ReadFloatCheckUnset | utils.go:358-378 | the same with UNSETFLOAT for an empty field |
| Fields.MsgBuffer.ReadBool | utils.go:380-393 | false exactly for "0" and the empty field |
| Fields.MsgBuffer.ReadString | utils.go:395-403 | the text at the cursor |
| Fields.DrainFields | utils.go:395-403 | successive reads see exactly the elements of splitMsgBytes, then fail |
| Fields.MessageRoundTrip | utils.go:149-188 | the header is the payload's length, the payload splits into the fields, and each reads back as the value written |
| Cursor.WriteThenRead | utils.go:292-403 | a written message is read back value by value and leaves the buffer empty |
| Cursor.FieldReadsBack | utils.go:230-248 | for every kind of field the reader undoes the writer |
| Cursor.BlockReadsBack | utils.go:292-403 | a run of fields is read back equal, with the cursor at its end |
| Cursor.CountedReadsBack | decoder.go:695-733 | a counted loop reads back any number of items, with the cursor at their end |
| Cursor.ReadBlock | utils.go:292-403 | a run of reader calls returns the values at the cursor or panics at the first that fails |
| Cursor.ReadCounted | decoder.go:695-733 | the count-down loop appends exactly the items of the count; a negative count panics |
| Conditions.SizesAgree | orderCondition.go:26-200 | decode consumes as many fields as InitOrderCondition declares, and as many as toFields writes |
| Conditions.ShapeOfTag | orderCondition.go:167-200 | which condition each tag stands for and with which readers its fields are read; any other tag panics |
| Conditions.DecodedTagIsLost | orderCondition.go:42-44 | a decoded condition has no valid type |
| Conditions.ReadConditionsFit | orderCondition.go:167-200 | whatever is read has the declared sizes and moves the cursor by just the fields read |
| Conditions.ConditionsReadable | client.go:1404-1409 | written conditions are recovered if and only if every tag declares the size written |
| Teardown.InvRun | client.go:3057-3178 | the inductive invariant holds after every run |
| Teardown.OrderedTeardown | client.go:235-264 | at most one of each teardown event, in order; no double close; nobody returns before the last event |
| Teardown.WorkerIsolation | client.go:251-260 | once Disconnect passes wg.Wait no worker takes another step |
| Teardown.DeliveredInOrder | client.go:3126-3171 | what is interpreted is always an in-order prefix of the frames; the rest is in msgChan, in flight or unscanned |
| Teardown.RequestConservation | client.go:203-213 | accepted requests are those processed, in hand and queued, in FIFO order |
| Teardown.EnqueueBlocks | client.go:208-212 | enqueue is stuck exactly on a full channel whose signal is open |
| Teardown.ErrorNeverReturned | client.go:256-264 | no Disconnect or LoopUntilDone call returns a recorded error |
| Teardown.ErrorLostWitness | client.go:3203-3222 | a run that loses the receiver's error |
| Teardown.FirstErrorWins | client.go:191-196 | once the client's error is set no run replaces it: it stays up to reset, and from reset on it is nil |
| Exits.DecoderPanicEnds | client.go:3158-3164 | after a callback has panicked in the decoder no message is ever interpreted again, and the decoder is gone only with an error recorded and shutdown signalled |
| Exits.ReceiverPanicEnds | client.go:3110-3116 | the same for a callback that panics in the receiver; it scans nothing more and starts no Disconnect |
| Exits.ScanFailureRecorded | client.go:3134-3148 | a scanner error or a frame too long, met before shutdown, is recorded by the time the receiver is gone |
| Exits.CallPanicPropagates | client.go:256-262 | a Disconnect call whose callback panics never returns and one whose callback does not never panics |
| Exits.ErrorHasCause | client.go:191-196 | the recorded error is one that an earlier step of the run gives rise to |
| Exits.NobodyLeavesAlone | client.go:3110-3124 | a worker that is gone has signalled or seen shutdown, or, the receiver, has started a Disconnect |
| Exits.ScanEndsHonestly | client.go:3126-3148 | the scan ends without an error only with every frame delivered, and with a frame too long only at the first that is |
| Shutdown.WorkerDescends | client.go:3080-3178 | after shutdown every worker step, whatever select takes, lowers a measure |
| Shutdown.LiveWorkerMoves | client.go:3080-3178 | a live worker has an enabled step, except exactly at a full msgChan or errChan |
| Shutdown.RoomEmptiesWaitGroup | client.go:246-251 | with room every schedule of the workers is bounded, never stuck, and ends with the WaitGroup at zero |
| Shutdown.SticksExactlyWithoutRoom | client.go:3089-3131 | if no request is enqueued any more, the workers of a reachable state can get stuck if and only if there is no room |
| Shutdown.SticksExactly | client.go:208-212 | whatever anybody does: a reachable state can lead to a stuck one if and only if the frames at hand do not fit msgChan or the requester is still in its loop |
| Shutdown.StuckCall | client.go:241-263 | in a stuck state no Disconnect call has a step |
| Shutdown.StuckForever | client.go:246-263 | from a stuck state no Disconnect call ever returns |
| Shutdown.DisconnectCanHang | client.go:3131 | a reachable stuck state |
| Client.TeardownLeavesQuiet | client.go:241-263 | the first teardown of an epoch leaves a client on which Connect starts a fresh epoch |
| Client.MachineTearsDown | client.go:241-264 | a lone Disconnect call run to its end is exactly that teardown |
| Client.FreshIsBegin | client.go:159-176 | the shared fields of a fresh epoch are those the handshake's machine begins with |
| Confirmation.PlainReach | client.go:371-376 | messages the confirm loop gets through are interpreted once each, in order |
| Confirmation.EndsOnce | client.go:369-404 | how and when the handshake ends is determined by the arrivals |
| Confirmation.AllButFieldlessReach | client.go:373-377 | of all messages that arrive only one without a field, which ends the loop, is not interpreted |
| Confirmation.Turn | client.go:371-403 | what one more arrival does to the list of missing IDs and to the loop |
| Handshake.SoundRun | client.go:292-408 | the inductive invariant of the handshake and its receiver holds after every run |
| Handshake.HandshakeDelivers | client.go:324-374 | the frames of the stream are the server info, the messages taken by the loop in order, those in msgChan, the one in flight and those unscanned |
| Handshake.LoopFollows | client.go:369-404 | the loop's state and the ending of a failed handshake are those its arrivals determine |
| Handshake.ReturnsNilExactly | client.go:324-326 | HandShake returns nil if and only if the connection is confirmed or the server info met the end of the stream |
| Handshake.ReturnHasCause | client.go:310-404 | whatever HandShake returns, its run has the step that accounts for it: a failed write, a scan that ended, a short server info, the confirming message, or the deferred Disconnect |
| Handshake.RunKeepsInvariant | client.go:3187-3199 | Run after a confirmed handshake starts the running client in its invariant if and only if no Disconnect has passed its wait |
| Handshake.RunStarts | client.go:3187-3199 | with the receiver in its loop and no Disconnect around, handshake and Run lead to the machine's initial states, delivery included |
| HandshakeWait.ReturnsExactlyWithRoom | client.go:359-364 | a failed handshake can return if and only if the frames at hand fit msgChan |
| HandshakeWait.WaitNeverBlocks | client.go:241-251 | once the socket is closed room is never lost: the handshake has returned or still can |
| HandshakeWait.FailedLeavesQuiet | client.go:241-263 | a failed handshake that returns has torn the client down in order and left it ready for Connect |
| HandshakeWitness.HandshakeCanHang | client.go:3131 | a run after which an aborted handshake never returns |
| HandshakeWitness.NilFromTornDown | client.go:390-392 | a run in which HandShake returns nil and connected on a client that its receiver has torn down |
| Client.IbClient.constructor | client.go:82-94 | a new client is quiet |
| Client.IbClient.SignalShutdown | client.go:181-183 | closes the signal once |
| Client.IbClient.SetErr | client.go:191-196 | keeps the first error, ignores nil |
| Client.IbClient.Reset | client.go:420-449 | renews channels, signal and WaitGroup, clears the error, keeps done and the Onces |
| Client.IbClient.Connect | client.go:159-176 | starts a fresh epoch if and only if the client was quiet; a failed dial reports 502 and resets |
| Client.IbClient.Disconnect | client.go:235-264 | the first call tears down and loses the error, every other call changes nothing |
| Client.IbClient.Enqueue | client.go:203-213 | accepted, refused with 504, or blocked: each exactly when |
| Client.IbClient.Confirm | client.go:369-404 | connected, with one ConnectAck, exactly at the shortest prefix with both IDs; 501 first on a timeout; the missing IDs are the two minus those seen |
| Client.IbClient.Hear | client.go:371-392 | one turn of the loop removes the ID seen and nothing else, and calls ConnectAck when none is missing |
| Client.IbClient.HandShake | client.go:292-408 | every way it returns, nil at the end of the stream included, and what the wrapper hears: ConnectAck exactly when confirmed; an unconfirmed one tears the client down to quiet, or hangs exactly if the receiver's frames do not fit msgChan |
| Client.IbClient.Run | client.go:3187-3199 | starts two workers on a confirmed connection, reports 504 otherwise |
| Guards.ComplaintIsFirst | client.go:1044-1093 | from version 66 the error is about the first attribute, in the guards' order, that is set and not supported |
| Guards.ComplaintHonest | client.go:966-1093 | the error is about an attribute that is set and not supported from version 66 on, and before exactly when no inapplicable body is entered by fallthrough |
| Guards.ComplaintMeansError | client.go:966-1093 | there is an error if and only if the order is refused or warned about |
| Client.IbClient.CheckOldest | client.go:967-995 | every order below version 52 is stopped, and with which error |
| Client.IbClient.CheckOld | client.go:967-1043 | the guards before version 66, fallthrough included, stop every order below 66 with one error |
| Client.IbClient.CheckNew | client.go:1044-1093 | the guards from version 66 stop exactly the unsupported orders, and report the first that applies |
| Client.IbClient.Check | client.go:966-1093 | stops exactly the refused orders and reports at most one error |
| Client.IbClient.PlaceOrder | client.go:965-1474 | every version and order classified; exactly one message from version 102, and which bytes |
| OrderLayout.OrderUniquelyReadable | client.go:1095-1472 | a reader that knows only the version recovers any order of the layout and consumes the whole list, if and only if the tags fit |
| OrderEncoding.OrderRendered | client.go:1095-1472 | what PlaceOrder appends is an instance of the layout, readable or not |
| OrderEncoding.PlaceOrderReadable | client.go:1095-1472 | every field and group that PlaceOrder sends is recovered, if and only if the tags fit and the scale increment's sign survives printing |
| OrderEncoding.ServerReadsOrder | client.go:1469-1471 | the same from the bytes on the socket |
| OrderEncoding.SameTextsSameFront | client.go:1095-1472 | equal lists determine everything before the conditions, PEG BENCH block and condition count included, and the gated attributes |
| OrderEncoding.NoSilentLoss | client.go:1044-1467 | two cleanly accepted orders that differ in a guarded attribute are sent differently |
| OrderEncoding.GuardedIsNotSent | client.go:1044-1467 | from version 102 a guard applies only to an attribute that would not have been sent: the message without it is the same |
| OrderMeaning.FrontMeans | client.go:1095-1301 | by position, whatever the conditions: head, contract terms, routing, legs, handling, auction, delta-neutral order and scale sizes say the order's own attributes to the readers |
| OrderMeaning.BackMeans | client.go:1280-1467 | the same for scale, hedge, flags, delta-neutral contract, algo, PEG BENCH, adjusted order and each gated attribute at the end |
| OrderMeaning.ConditionsMean | client.go:1404-1409 | with fitting tags each condition is seen with its type and its own values, by position |
| OrderWriter.AppendTerms | client.go:1095-1179 | the appends up to the routing flags are the terms of the order |
| OrderWriter.AppendLegs | client.go:1181-1197 | the leg loop appends the count and every leg |
| OrderWriter.AppendPrices | client.go:1199-1205 | the price loop |
| OrderWriter.AppendTags | client.go:1207-1213 | the tag/value loops |
| OrderWriter.AppendVolatility | client.go:1215-1278 | the appends up to the delta-neutral order block |
| OrderWriter.AppendScale | client.go:1280-1318 | the scale block and its gates |
| OrderWriter.AppendHedge | client.go:1320-1352 | hedge, flags and delta-neutral contract |
| OrderWriter.AppendAlgo | client.go:1354-1392 | algo parameters and the flags behind them |
| OrderWriter.MiscBuffer | client.go:1373-1381 | the misc options as one text |
| OrderWriter.AppendConditions | client.go:1404-1409 | the condition loop appends tag and fields of every condition |
| OrderWriter.AppendAdjust | client.go:1394-1467 | everything from PEG BENCH to the last gate |
| OrderWriter.BuildFields | client.go:1095-1467 | the whole list, from version 102; nothing to send before |
| OpenOrder.Consumption | decoder.go:548-917 | the fields consumed are a closed form in the two versions, the counts and the flags |
| OpenOrder.PrefixStable | decoder.go:548-917 | more fields change nothing that was read and stay unread |
| OpenOrder.MadeConsumes | decoder.go:854-860 | the condition loop consumes one field and the condition's own reads per condition |
| OpenOrderDecoder.ReadTerms | decoder.go:558-587 | contract and order terms with their version gates |
| OpenOrderDecoder.ReadPrices | decoder.go:588-661 | prices to volatility, the version 51 skip included |
| OpenOrderDecoder.ReadDn | decoder.go:662-675 | the delta-neutral order block |
| OpenOrderDecoder.ReadTrail | decoder.go:676-693 | trail and basis parameters |
| OpenOrderDecoder.ReadGroups | decoder.go:694-733 | legs, leg prices and routing parameters |
| OpenOrderDecoder.ReadScaling | decoder.go:735-753 | the scale block |
| OpenOrderDecoder.ReadHedging | decoder.go:755-760 | the hedge block |
| OpenOrderDecoder.ReadFlags | decoder.go:762-773 | flags and clearing |
| OpenOrderDecoder.ReadNeutral | decoder.go:775-784 | the delta-neutral contract |
| OpenOrderDecoder.ReadAlgorithm | decoder.go:787-801 | the algo block |
| OpenOrderDecoder.ReadState | decoder.go:804-837 | the order state |
| OpenOrderDecoder.ReadConditions | decoder.go:850-860 | the condition loop |
| OpenOrderDecoder.ReadAdjusting | decoder.go:839-875 | PEG BENCH, conditions and adjusted parameters |
| OpenOrderDecoder.ReadTail | decoder.go:878-913 | the gates at the end of the message |
| OpenOrderDecoder.ProcessOpenOrder | decoder.go:548-917 | each attribute handed to the callback is the field at its own position, understood by its own reader, or the decoder panics |
| OpenOrderSheet.OpenOrderMeans | decoder.go:548-917 | for any message that can be read, both versions, flags and list lengths: where each attribute stands and how it is read; zero if its gate is closed |
| OpenOrderSheet.OpenTermsRead | decoder.go:558-587 | order ID to quantity, a float from version 101 on and an integer before |
| OpenOrderSheet.OpenPricesRead | decoder.go:588-661 | prices, unset-aware from message versions 29 and 30, to volatility type |
| OpenOrderSheet.OpenStateRead | decoder.go:804-837 | the order state, the margin fields only from version 142 |
| OpenOrderSheet.OpenTailRead | decoder.go:878-913 | the attributes at the end, each from its version on |
| OpenOrderEncoding.SheetReadsBack | decoder.go:548-917 | any open order written field by field from its attributes is read, up to its end, and the callback gets those attributes |
| OpenOrderRoundTrip.OpenOrderReadsBack | decoder.go:548-917 | for all versions, flags and counts the decoder inverts the writing of its blocks and stops at its end |
| GroupRoundTrips.ComboReadsBack | client.go:1181-1213 | legs, leg prices and routing parameters written are read back, cursor at the end |
| GroupRoundTrips.DnOrderReadsBack | client.go:1261-1278 | the delta-neutral order block is read back |
| GroupRoundTrips.ScaleReadsBack | client.go:1290-1311 | the scale block is read back when it is sent |
| GroupRoundTrips.HedgeReadsBack | client.go:1321-1326 | the hedge block is read back |
| GroupRoundTrips.NeutralReadsBack | client.go:1342-1352 | the delta-neutral contract is read back, present or not |
| GroupRoundTrips.AlgoReadsBack | client.go:1354-1364 | the algo parameters are read back |
| GroupRoundTrips.PegReadsBack | client.go:1395-1402 | the PEG BENCH block is read back when it is sent |
| GroupRoundTrips.ConditionsReadBack | client.go:1404-1409 | written conditions are read with the cursor exactly at their end, as fresh conditions of their types |
| GroupRoundTrips.DecodedConditionsUnsendable | orderCondition.go:42-44 | an order with the conditions of any decoded open order is readable if and only if its scale increment is and there are none |
| Counted.ReportRows | decoder.go:1251-1266 | one callback a row, in order, for max(n, 0) rows; rows before a failure have been reported |
| Counted.ProcessHistoricalData | decoder.go:1242-1270 | exactly max(n, 0) bars and one end; 8 or 9 fields a bar by version; no end after a failure |
| Counted.HistoryMeans | decoder.go:1242-1270 | for any message that can be read, which field each attribute of each bar is, and that the end has start and end date in that order |
| Counted.HistoryReadsBack | decoder.go:1242-1270 | bars written naturally make one call each with their own attributes, and then the end with the dates |
| Counted.ProcessScannerData | decoder.go:1143-1173 | exactly max(n, 0) rows of 16 fields and one end |
| Counted.ScanMeans | decoder.go:1143-1173 | for any message that can be read, which field each attribute of each row is |
| Counted.ScanReadsBack | decoder.go:1143-1173 | scanner rows written naturally make one call each with their own attributes, and then the end |
| Counted.RowsReadBack | decoder.go:1251-1266 | counted rows written the natural way are read row by row |
| Counted.ProcessSymbolSamples | decoder.go:1536-1560 | the nested loops read a list of lists |
| Counted.SymbolSamplesReadBack | decoder.go:1536-1560 | samples written attribute by attribute, each with its list of types, come back equal |

## Left out

- Sockets, DNS, dialing, byte counters, logging, `time` parsing, `InitDefault` and `String()` methods: only the socket's
  open state, the connection state and the source of read chunks are kept.
- bufio.Scanner, bytes.Buffer, sync.Once and WaitGroup: small abstract models (a growing buffer with a limit, a cursor, a
  flag with one holder, a counter). A scanner read error is a nondeterministic branch.
- Data races and memory model: every step of a goroutine between two communications is atomic, `reset` included.
- Teardown.InvRun: covers one epoch; Disconnect calls that outlive their epoch and callbacks that call the client are excluded.
- Client.IbClient.Disconnect: stated for the moment wg.Wait returns; interleaved callers are the machine's.
- Client.IbClient.HandShake: the arrivals stand for what msgChan, timer and context offer, and two parameters for the frames
  in msgChan and in the receiver's hands when the loop ends; the machine of `Handshake` is where these come about, and
  where the receiver may end, and start Disconnect, in the middle. A number out of int64's range in a message ID or the
  server version reads as 0, where ParseInt would clamp it.
- Handshake.SoundRun: nobody else calls Disconnect before the receiver runs, and the ConnectAck and Error callbacks of
  HandShake itself do not panic.
- Handshake.ReturnHasCause: the bytes of the version request and of startAPI are not modelled, only whether they are written.
- Client.IbClient.PlaceOrder: an error message is reduced to its code and the attribute it is about.
- Fields.MakeMsgBytes: the panic for unsupported field types; the model's fields are the supported types.
- Cursor.ReadCounted: a count so large that Go cannot allocate its capacity panics there; here the loop runs into the end of the message.
- OrderWriter.MiscBuffer: the text is opaque to readers, since tags and values are not escaped.
- OpenOrderDecoder.ProcessOpenOrder: the attributes are named after the block has been read, not one by one in between.
- OpenOrderEncoding.SheetReadsBack: decoded conditions are fresh ones, so the conditions sent are a parameter of their own.
- NaN and infinities print and parse through the same parameter as other floats.
- processCompletedOrderMsg and other decoders with the same groups, the request builders other than PlaceOrder, option
  computations and bond expiries: straight-line field lists that add no law of a new kind.
