# A model of the MTProto stack

This project models the parts of the repository that carry state, arithmetic or protocols, and proves what they are for:
the session layer of an MTProto connection, the generator of TL serializers, the encrypted envelope and its framing, the
client hello, two concurrent data structures, the key agreements and the handshake around them, and the tool that splits
large sources. `dafny verify dfyconfig.toml` verifies all of it; the modules follow the source files.

| files | models |
|---|---|
| `AuthData`, `CryptoStorer`, `Session`, `SessionConnection` | identifiers, salts, packets and the connection object |
| `SessionWakeup`, `SessionRuns`, `SessionTheorems`, `SessionRequests`, `SessionPackets` | runs of a session and what holds over them |
| `ReplayWindow` | the window of received message identifiers |
| `TlCodec`, `TlSchema`, `TlGenerator`, `TlRuntime`, `TlRoundTrip`, `TlExact` | TL strings and numbers, schemas, the two generators, what generated code does, and when exactly fetching undoes storing |
| `Envelope`, `EnvelopeTheorems`, `Transport` | encrypted packets in both versions |
| `Streaming`, `Framing`, `TcpTransport` | reading from a stream in pieces, frames, the stream cipher, records |
| `TlsHello`, `TlsHelloTree`, `TlsHelloTheorems`, `TlsInit` | the two passes over a client hello and the tree they agree on |
| `RingQueue` | the ring between one writer and one reader |
| `MemprofTable`, `MemprofAbort`, `MemprofAssertion`, `MemprofAccounting` | the lock-free table of call sites, when it can fill up or fail, and the accounting on it |
| `KeyAgreement`, `DhHandshake`, `Handshake` | modular arithmetic, Diffie-Hellman, the password exchange, the handshake |
| `SourceSplit` | the disjoint sets and the balancing of the source splitter |
| `Bytes`, `Options` | bytes, fixed-width integers, missing values |

## How the model is built

Operations that change an object are methods of a class, specified by functions on values; the theorems about runs are
about those functions, over every list of events or every interleaving of atomic steps. A loop in the source is a loop
here, with the function it computes as its specification.

- Random values are arbitrary functions or come with the event that draws them, so every statement holds for all of them.
- Time is a real number given with each event. One turn of the drain loop has two times, that of its test and that of
  its flush; within each of them, and in all other calls, the clock is read once.
- Hashes and key derivation are arbitrary functions with the right length. The block cipher is any bijection on strings
  of whole blocks, the stream cipher the exclusive or with an arbitrary key stream.
- Message identifiers and counters of the session are unbounded; `AuthData.MachineIdExact` tells when the 64-bit ones
  agree. The ring's 32-bit counters, the profiler's 32-bit sizes and the fields of packets are modelled at their width.
- Concurrent code is modelled as interleaved atomic steps; the memory orders used make that sound for the ring and the
  table.

## Where the code and its promises differ

- The reset of the deadline in `flush_packet` does not look at waiting queries. That is harmless when the loop tests and
  flushes at one time (`SessionTheorems.NoLostWakeup`). With a clock that moves in between a wakeup is lost exactly at a
  flush with nothing but queries waiting and no salt (`SessionTheorems.WakeupsKeptExactly`), and there is a run with such
  a flush (`SessionTheorems.MovingClockLosesWakeup`).
- The replay window is described as the last N identifiers, with one lower than all of them ignored. The code also
  accepts one that is lower than all while fewer than N are stored, and one that is lower than the last N but not than
  all it still looks at, up to 2N-1 (`ReplayWindow.DiffersExactly`, with `LowerIsAccepted` and `MoreIsKept` as runs).
  `ReplayWindow.AcceptedExactly` says which identifiers it accepts.
- A session takes an identifier for the message that binds a key and sends the query under the same one
  (`SessionPackets.BindThenSend`). But for that, identifiers are used once exactly as long as callers give only those
  taken by binding messages and each of them once (`SessionPackets.UsedOnceExactly`), and packets stay in order exactly
  as long as given ones come in turn (`SessionPackets.PackedExactly`).
- A generated fetch refuses a vector whose length exceeds the bytes left, so vectors of bare objects without fields do
  not come back unless other bytes follow (`TlRoundTrip.EmptyItemsRefused`).
- The two generators disagree exactly on a boxed use of `#` or `Bool` with one supported constructor
  (`TlGenerator.SameBoxing`). They accept schemas with such a use (`TlRoundTrip.ClashingSchema`), and a value in which one
  occurs never comes back (`TlExact.ComesBackExactly`).
- Version 1 packets do not survive framing with padding (`EnvelopeTheorems.FramedIsLegible`).
- An unencrypted message of fewer than eight bytes reads as one that says nothing (`Transport.NoCryptoRoundTrip`).
- Padding inside a permutation part of a client hello makes the two passes disagree exactly if the part does not start
  the buffer it is counted in and fewer than 513 bytes precede the padding in the part
  (`TlsHelloTheorems.PassesAgreeExactly`); the hellos in use have no padding in parts (`TlsHelloTheorems.UnpaddedAgree`).
- The abort marked unreachable in the profiler can be reached exactly if the slots are no more than half of them plus the
  number of threads, plus one when the common hash can still come in: with ten million slots, by 4999999 threads
  (`MemprofAbort.AbortExactly`). The assertion before it can fail sooner: with ten million slots, by 1999999 threads
  (`MemprofAssertion.FailsExactly`).
- The total of live memory is what was asked for exactly if every live allocation is smaller than 2^31 bytes
  (`MemprofAccounting.TotalExact`), and the slot of a site also counts allocations with hash zero that ended there
  (`MemprofAccounting.SizesBySite`, `MemprofAccounting.UnhashedAllocation`).
- `DhHandshake` compares the size of the modulus again after the configuration check and stops the program if it is
  wrong, which happens exactly when that check was skipped (`DhHandshake.DhHandshake.RunChecks`).

## Model

| member | source | states |
|---|---|---|
| `SessionTheorems.WakeupsKeptExactly` | td/mtproto/SessionConnection.cpp:655-720 | Over every run, with the clock moving between the test of the drain loop and its flush: in all states every non-empty outgoing queue has a send deadline, no later than the moment it became non-empty plus the delay of that queue, if and only if no flush is made with nothing but queries waiting and no salt |
| `SessionTheorems.NoLostWakeup` | td/mtproto/SessionConnection.cpp:713-719 | Over every run in which the clock stands still between test and flush no queue ever loses its deadline |
| `SessionTheorems.MovingClockLosesWakeup` | td/mtproto/SessionConnection.cpp:977-984 | A run, from every fresh session that is able to send and with the clock moving forward, that loses a wakeup: a salt runs out between test and flush and the query is left without any deadline |
| `SessionTheorems.QueriesConserved` | td/mtproto/SessionConnection.cpp:823-839 | At every point of every run, the queries sent so far followed by those waiting are the submitted ones in order; only a failed session has handed some back |
| `SessionRequests.RequestsConserved` | td/mtproto/SessionConnection.cpp:841-853 | Over every run the identifiers given to the state-info and resend requests are, as multisets, exactly those queued, those in flight and (state info) those answered, through cuts, failures of the message or its container and repeated failure notices |
| `SessionPackets.PackedExactly` | td/mtproto/SessionConnection.cpp:958-1038 | Over every run, whatever identifiers callers give: in all states every packet and the waiting queries are in increasing order of identifier with sequence numbers in step, below the container, if and only if every given identifier, when it is given, has been issued and is above that of the last waiting query |
| `SessionPackets.PacketsInOrder` | td/mtproto/SessionConnection.cpp:958-1038 | Over every run in which callers give an identifier only as the binding of keys does, every packet keeps its limits, counts its messages rightly and is in that order |
| `SessionPackets.PacketsWithinLimits` | td/mtproto/SessionConnection.cpp:958-1038 | Over every run at all each packet takes at most 1000 queries and cancels together and 8192 identifiers of each other kind, and counts its messages rightly |
| `SessionPackets.UsedOnceExactly` | td/mtproto/SessionConnection.cpp:823-839 | Over every run, whatever identifiers callers give: in all states the identifiers of queries are pairwise different, apart from those of service messages and containers, and shared with a binding message exactly where the caller gave them, if and only if every given identifier, when it is given, was taken by a binding message and has no query yet |
| `SessionPackets.IdentifiersUsedOnce` | td/mtproto/SessionConnection.cpp:1040-1069 | Over every run in which callers give an identifier only as the binding of keys does this holds, so no entry of the request maps is ever overwritten; a query and the binding message it carries are the only two to share an identifier |
| `SessionPackets.BindThenSend` | td/telegram/net/Session.cpp:1377-1387 | After every such run, taking an identifier for a binding message and submitting the query under it shares that identifier, above all before, and is again such a run |
| `SessionPackets.StepUsedOnce` | td/mtproto/SessionConnection.cpp:823-839 | One event in any such state, an arbitrary given identifier included, leaves identifiers used once if and only if the given one is reserved |
| `SessionPackets.StepPacked` | td/mtproto/SessionConnection.cpp:823-839 | One event in any such state leaves packets and queries in order if and only if the given identifier is in turn |
| `SessionPackets.OwnIdentifier` | td/mtproto/SessionConnection.cpp:826-828 | An identifier of the caller's own making breaks it at once |
| `SessionPackets.TakenQueries` | td/mtproto/SessionConnection.cpp:959-967 | A flush takes the longest prefix of at most 1000 queries whose data, without the last one, stays below 2^15 bytes |
| `SessionWakeup.FlushReducesWork` | td/mtproto/SessionConnection.cpp:713-719 | With the clock fixed, every flush the drain loop asks for strictly lowers a measure over turn, ping, salts, key destruction, queue lengths and deadline, in every mode: the loop ends |
| `SessionWakeup.LongPollNeedsTurns` | td/mtproto/SessionConnection.cpp:674-678 | Long polling over a transport that does not take turns would keep the loop condition true for ever |
| `SessionWakeup.MustPingMeansMayPing` | td/mtproto/SessionConnection.cpp:913-920 | A ping that must be sent may be sent |
| `SessionWakeup.FlushKeepsWakes` | td/mtproto/SessionConnection.cpp:977-984 | A flush keeps the deadline of every non-empty queue if and only if it is not made with nothing but queries waiting and no salt, the case in which the deadline is reset without a look at the queries |
| `SessionWakeup.LoopFlushKeepsWakes` | td/mtproto/SessionConnection.cpp:713-719 | Testing and flushing at one time, the loop never flushes in that case |
| `SessionWakeup.StoppedOnTime` | td/mtproto/SessionConnection.cpp:655-711 | When the loop stops with key, transport and salt at hand, no deadline has passed and the time it asks to be woken at is no later than any |
| `SessionConnection.SessionConnection.SendQuery` | td/mtproto/SessionConnection.cpp:823-839 | The object after submitting a query: allocators advanced in step, deadline brought forward only if the queue was empty, query appended |
| `SessionConnection.SessionConnection.GetStateInfo` | td/mtproto/SessionConnection.cpp:841-846 | The object after asking for a state, against the same function the runs use |
| `SessionConnection.SessionConnection.ResendAnswer` | td/mtproto/SessionConnection.cpp:848-853 | The object after asking for a resend |
| `SessionConnection.SessionConnection.CancelAnswer` | td/mtproto/SessionConnection.cpp:855-860 | The object after asking for a cancellation |
| `SessionConnection.SessionConnection.SendAck` | td/mtproto/SessionConnection.cpp:897-911 | The object after an acknowledgement: a repeated last identifier is dropped, a hundred of them force a flush |
| `SessionConnection.SessionConnection.ForceAck` | td/mtproto/SessionConnection.cpp:891-895 | Waiting acknowledgements become due at once |
| `SessionConnection.SessionConnection.SendBeforeTime` | td/mtproto/SessionConnection.cpp:1077-1081 | The deadline only moves to an earlier time |
| `SessionConnection.SessionConnection.OnMessageFailedInner` | td/mtproto/SessionConnection.cpp:631-653 | A failed service message leaves the map and all its identifiers return to the queue they came from |
| `SessionConnection.SessionConnection.MessageFailed` | td/mtproto/SessionConnection.cpp:607-629 | A failed message, or every service message of a failed container, is handled, and a failed ping is restarted |
| `SessionConnection.SessionConnection.SetOnline` | td/mtproto/SessionConnection.cpp:792-808 | The object after going online or offline: the times of the last read and pong are set so that a ping comes at once or not before its delay |
| `SessionConnection.SessionConnection.OnStateInfo` | td/mtproto/SessionConnection.cpp:474-488 | An answer to a state request takes its entry out of the map and hands its identifiers over if their number is right; otherwise the session fails |
| `SessionConnection.SessionConnection.OnBadServerSalt` | td/mtproto/SessionConnection.cpp:389-397 | The new salt is set and the message handled as failed |
| `SessionConnection.SessionConnection.OnFutureSalts` | td/mtproto/SessionConnection.cpp:446-453 | The object after a schedule of salts |
| `SessionConnection.SessionConnection.OnMessageIdTooHigh` | td/mtproto/SessionConnection.cpp:350-356 | The waiting queries are handed back and the session closes, as the event of the runs does |
| `SessionConnection.SessionConnection.EncryptedBind` | td/mtproto/SessionConnection.cpp:867-889 | A key-binding message takes a new identifier, greater than all before, and no sequence number |
| `SessionConnection.SessionConnection.MustFlushPacket` | td/mtproto/SessionConnection.cpp:655-711 | Decides whether to flush and when to be woken, against the decision function of the runs |
| `SessionConnection.SessionConnection.MakePlan` | td/mtproto/SessionConnection.cpp:922-989 | What a flush will send, with the ping, salt and destruction state it updates |
| `SessionConnection.CutTail` | td/mtproto/SessionConnection.cpp:998-1013 | Takes the last so many identifiers and keeps the rest, all if they fit |
| `SessionConnection.CountQueries` | td/mtproto/SessionConnection.cpp:959-967 | The loop that decides how many queries a packet takes |
| `SessionConnection.SessionConnection.RememberRequests` | td/mtproto/SessionConnection.cpp:1040-1069 | The new entries of both request maps |
| `SessionConnection.SessionConnection.FlushPacket` | td/mtproto/SessionConnection.cpp:922-1075 | The whole new state and the packet of one flush, against the function of the runs |
| `SessionConnection.SessionConnection.BeforeWrite` | td/mtproto/SessionConnection.cpp:713-719 | The drain loop ends, and its effect is the repeated flush of the runs |
| `AuthData.AllocationDiscipline` | td/mtproto/AuthData.cpp:107-125 | Over every sequence of allocations identifiers are strictly increasing multiples of 4, a smaller identifier never has a larger sequence number, and a content-related message (exactly those have odd numbers) has a strictly smaller one than every later message |
| `AuthData.MachineIdExact` | td/mtproto/AuthData.cpp:107-125 | The 64-bit allocator gives a larger identifier than the last if and only if its addition does not wrap, and then it is the unbounded one |
| `AuthData.AdoptPicksLatest` | td/mtproto/AuthData.cpp:169-175 | On a schedule sorted newest first the adopted salt is the newest that has begun and exactly the others remain |
| `AuthData.UpdateSaltIdempotent` | td/mtproto/AuthData.cpp:169-175 | Updating the salt twice at one time is updating it once |
| `AuthData.SortNewestFirst` | td/mtproto/AuthData.cpp:95-97 | The schedule is sorted newest first and is a permutation of what was given |
| `AuthData.AuthDataStore.NextMessageId` | td/mtproto/AuthData.cpp:107-125 | The object after taking an identifier, against the allocation function |
| `AuthData.AuthDataStore.TakeSeqNo` | td/mtproto/AuthData.h:267-274 | The object after taking a sequence number |
| `AuthData.AuthDataStore.AdoptSalts` | td/mtproto/AuthData.cpp:169-175 | The popping loop adopts what the schedule function adopts |
| `AuthData.AuthDataStore.CheckSalt` | td/mtproto/AuthData.h:237-240 | Updates the salt and tells whether it is valid for another minute |
| `AuthData.AuthDataStore.WantsFutureSalts` | td/mtproto/AuthData.h:242-245 | Updates the salt and tells whether more must be asked for |
| `AuthData.AuthDataStore.SetFutureSalts` | td/mtproto/AuthData.cpp:91-99 | An empty schedule changes nothing; any other is sorted and used at once |
| `ReplayWindow.NothingAcceptedTwice` | td/mtproto/AuthData.cpp:19-46 | Over every run of one checker no identifier is accepted twice, and the buffer is exactly the largest accepted ones, strictly increasing, at most twice the window |
| `ReplayWindow.AcceptedExactly` | td/mtproto/AuthData.cpp:19-46 | Over every run the next identifier is accepted if and only if it was not before and fewer than N have been accepted or fewer are above it than the checker looks at, a number that runs from N to 2N-1 and back |
| `ReplayWindow.DiffersExactly` | td/mtproto/AuthData.cpp:21-24 | After every run treated alike, the code and its description part on the next identifier if and only if it is new and either below all accepted ones while those are fewer than N, or has at least N above it but fewer than the checker looks at; the code then accepts it and the description ignores it |
| `ReplayWindow.LowerIsAccepted` | td/mtproto/AuthData.cpp:34-37 | A run that parts in the first way |
| `ReplayWindow.MoreIsKept` | td/mtproto/AuthData.cpp:25-28 | A run that parts in the second way |
| `ReplayWindow.FreshIsAccepted` | td/mtproto/AuthData.cpp:29-45 | In particular a new identifier with fewer than N greater accepted ones is accepted, as described, and an accepted one never again |
| `ReplayWindow.CheckSound` | td/mtproto/AuthData.cpp:19-46 | What each of the three answers says about everything ever accepted |
| `ReplayWindow.LowerBound` | td/mtproto/AuthData.cpp:38 | The insertion point: all before it smaller, none from it on |
| `ReplayWindow.MessageIdDuplicateChecker.CheckId` | td/mtproto/AuthData.h:44-54 | The in-place buffer after a check is the window after the check |
| `ReplayWindow.MessageIdDuplicateChecker.Compact` | td/mtproto/AuthData.cpp:25-28 | The upper half of a full buffer is moved down |
| `ReplayWindow.MessageIdDuplicateChecker.InsertAt` | td/mtproto/AuthData.cpp:42-44 | Shifting in place inserts one identifier |
| `CryptoStorer.KindAndCount` | td/mtproto/CryptoStorer.h:234-288 | The count field is the number of stored messages, the unreachable branch is reached only by an empty packet, and a packet that is no container stores its one message |
| `CryptoStorer.PacketRoundTrip` | td/mtproto/CryptoStorer.h:290-326 | The receiver recovers exactly the list of messages put into a packet if and only if every body is a multiple of four bytes |
| `CryptoStorer.MessagesRoundTrip` | td/mtproto/SessionConnection.cpp:187-231 | Parsing stored messages gives them back if all bodies are multiples of four bytes and fails otherwise |
| `CryptoStorer.PacketChain` | td/mtproto/CryptoStorer.h:207-256 | Messages are stored in increasing order of identifier and the container is above all of them |
| `SessionConnection.StoreCancels` | td/mtproto/CryptoStorer.h:84-96 | One message per cancelled request, allocated in order |
| `SessionConnection.BuildPacket` | td/mtproto/CryptoStorer.h:207-288 | The constructor that allocates for every part in turn builds the packet of the specification |
| `TlCodec.StringRoundTrip` | tdutils/td/utils/tl_parsers.h:127-162 | A stored string of any of the three length forms is fetched back with what follows it untouched |
| `TlGenerator.SameBoxing` | td/generate/tl_writer_cpp.cpp:185-209 | When both generators accept a use of a type they choose the same boxing if and only if it is not a boxed use of the number or truth type with exactly one constructor |
| `TlRoundTrip.ClashNeverReturns` | td/generate/tl_writer_cpp.cpp:185-209 | A value stored by such a use is never fetched back: whatever the generated fetch returns, it has not left exactly what followed the value |
| `TlRoundTrip.ClashingSchema` | td/generate/tl_writer_cpp.cpp:382-407 | A schema that both generators accept, with all routines emitted, and whose objects are stored and never come back |
| `TlRoundTrip.ClassesPaired` | td/generate/tl_writer_cpp.cpp:382-407 | In a schema for which all routines are emitted every use of a type that does not clash gets a matching pair of store and fetch classes |
| `TlExact.ComesBackExactly` | td/generate/tl_writer_cpp.cpp:140-209 | For every value of every type of every schema for which all routines are emitted: the value is stored, and the generated fetch, whatever follows, returns it in normal form and leaves the rest if and only if it fits and no use of a type that occurs in it makes the generators disagree |
| `TlExact.Consumes` | td/tl/tl_object_parse.h:119-136 | Every successful fetch takes at least as many bytes as its result takes to store with the number in front that the fetch expects |
| `TlExact.ValueShort` | td/generate/tl_writer_cpp.cpp:185-209 | Every value is stored, and in fewer bytes than its fetching takes if a use of a type in it clashes |
| `TlRoundTrip.ValueRoundTrip` | td/generate/tl_writer_cpp.cpp:140-209 | Where no use of a type in the value clashes, running the generated fetch on the output of the generated store, whatever follows, returns the value in normal form and leaves the rest if and only if the value fits, and fails otherwise |
| `TlRoundTrip.ObjectRoundTrip` | td/generate/tl_writer_cpp.cpp:439-530 | The same for the fields of an object: conditional fields by their flag bits, flag words merged with the bits of their true fields |
| `TlRoundTrip.StmtsRoundTrip` | td/generate/tl_writer_cpp.cpp:216-299 | Statement by statement, a fetch routine reads what the store routine wrote from any field on |
| `TlRoundTrip.LeafRoundTrip` | td/tl/tl_object_store.h:39-64 | Numbers, truth values and strings come back as they are |
| `TlRoundTrip.VectorRoundTrip` | td/tl/tl_object_parse.h:119-136 | A vector comes back if and only if its items do and their number is no more than the bytes left |
| `TlRoundTrip.MergedBits` | td/generate/tl_writer_cpp.cpp:502-515 | A bit of the stored flags word is set exactly if it was set in the field or a true field of that bit is true |
| `TlRoundTrip.BoxedItemsFit` | td/tl/tl_object_parse.h:124-133 | The length check refuses no vector of anything but bare objects |
| `TlRoundTrip.EmptyItemsRefused` | td/tl/tl_object_parse.h:124-133 | A vector of n bare objects without fields comes back if and only if at least n bytes follow it |
| `EnvelopeTheorems.RoundTrip` | td/mtproto/Transport.cpp:214-300 | Reading a written packet with the same key part, followed by up to 15 bytes, returns its data if and only if the length field is right, divisible by four where that is checked, and the padding is within the limits of the version, for both versions and headers |
| `EnvelopeTheorems.Reads2` | td/mtproto/Transport.cpp:274-290 | The exact answer, errors included, to every version 2 packet for every length field and padding |
| `EnvelopeTheorems.Reads1` | td/mtproto/Transport.cpp:214-300 | The exact answer, errors included, to every version 1 packet for every length field, padding and trailing bytes |
| `EnvelopeTheorems.Exact1` | td/mtproto/Transport.cpp:254-259 | A version 1 packet is read only at its exact size |
| `EnvelopeTheorems.FramedIsLegible` | td/mtproto/Transport.cpp:188-197 | A packet padded by its writer survives framing if and only if it is of version 2 or nothing was appended |
| `EnvelopeTheorems.RolesAgree` | td/mtproto/Transport.cpp:317-328 | Writer and reader of an end-to-end packet use the same part of the key if and only if the version is 1 or exactly one of them created the chat |
| `Envelope.PaddingBounds` | td/mtproto/Transport.cpp:166-197 | Whole blocks always; version 2 pads by 12 to 474 bytes for every data size |
| `Envelope.BasicSize` | td/mtproto/Transport.cpp:167-179 | The loop over the size list returns the smallest standard size that leaves room for data and 12 bytes of padding |
| `Envelope.BasicPartSmallest` | td/mtproto/Transport.cpp:170-176 | Smallest among the list and all sizes 448 apart above it |
| `Envelope.WriteCryptoImpl` | td/mtproto/Transport.cpp:343-366 | The buffer filled, hashed and encrypted in place is the packet of the specification |
| `Envelope.WriteCrypto` | td/mtproto/Transport.cpp:368-388 | A packet to a server |
| `Envelope.WriteEndToEnd` | td/mtproto/Transport.cpp:390-409 | A packet to the other party, with the key part of the role |
| `Envelope.ReadCryptoImpl` | td/mtproto/Transport.cpp:214-300 | Decrypting and checking in place gives the answer of the specification on the original bytes |
| `Envelope.SameKey` | td/mtproto/Transport.cpp:264-268 | The comparison without early exit is equality |
| `Transport.MessageRoundTrip` | td/mtproto/Transport.cpp:418-448 | Through the dispatcher an encrypted message comes back if and only if it is legible |
| `Transport.NoCryptoRoundTrip` | td/mtproto/Transport.cpp:330-341 | An unencrypted message comes back, with what framing appended, if and only if that is at least eight bytes; a shorter one reads as a message that says nothing |
| `Transport.StackRoundTrip` | td/mtproto/Transport.cpp:450-461 | Packets encrypted with either size function, framed with any padding and arriving in any pieces are all read in order with their data |
| `Streaming.ChunkIndependent` | td/mtproto/TcpTransport.cpp:20-48 | However a stream is cut into pieces, reading what is there each time gives the items of the whole stream in order |
| `Framing.FrameStable` | td/mtproto/TcpTransport.cpp:20-48 | More bytes never change a frame, and fewer than asked for never give one |
| `Framing.FrameRoundTrip` | td/mtproto/TcpTransport.cpp:50-73 | A written frame is read back with its padding |
| `Framing.QuickAckMarked` | td/mtproto/TcpTransport.cpp:54-56 | A request for a quick acknowledgement sets the top bit of the length and changes nothing else |
| `Framing.FramesSurvive` | td/mtproto/TcpTransport.cpp:20-73 | Frames written one after another and arriving in any pieces are read back, all and in order |
| `Framing.RecordStable` | td/mtproto/TlsReaderByteFlow.cpp:15-37 | The same for records |
| `Framing.RecordRoundTrip` | td/mtproto/TcpTransport.cpp:192-204 | A written record is read back |
| `Framing.SendAllCarries` | td/mtproto/TcpTransport.cpp:173-213 | After any sequence of writes the output is the one-time prefix and records of at most 2878 bytes whose bodies are the header and the encrypted frames |
| `Framing.Transmission` | td/mtproto/TcpTransport.cpp:154-162 | The whole way: framed, encrypted, cut into records, arriving in any pieces, exactly the packets come out in order |
| `Framing.PlainTransmission` | td/mtproto/TcpTransport.cpp:164-171 | Without records the stream is the header once, followed by the encrypted frames |
| `TcpTransport.TlsReaderByteFlow.Loop` | td/mtproto/TlsReaderByteFlow.cpp:15-37 | One step of the reassembler |
| `TcpTransport.TlsReaderByteFlow.Wakeup` | tdutils/td/utils/ByteFlow.h:50-104 | Waiting for the number of bytes asked for never misses a record: everything that has arrived is worked through |
| `TcpTransport.TlsReaderByteFlow.Arrive` | tdutils/td/utils/ByteFlow.h:50-104 | An arrival is one step of feeding the record parser |
| `TcpTransport.IntermediateReader.ReadFromStream` | td/mtproto/TcpTransport.cpp:20-48 | One frame off the stream, or the number of bytes to wait for |
| `TcpTransport.IntermediateReader.ReadAll` | td/mtproto/RawConnection.cpp:163-177 | Reading until the stream runs short takes all whole frames |
| `TcpTransport.ObfuscatedTransport.WriteRecord` | td/mtproto/TcpTransport.cpp:192-213 | One record with the waiting header and the one-time prefix |
| `TcpTransport.ObfuscatedTransport.WriteTls` | td/mtproto/TcpTransport.cpp:173-190 | The cutting loop is the fragmentation of the specification |
| `TcpTransport.ObfuscatedTransport.WriteMain` | td/mtproto/TcpTransport.cpp:164-171 | Plain writing puts the header in front once |
| `TcpTransport.ObfuscatedTransport.Write` | td/mtproto/TcpTransport.cpp:154-162 | Framing, encryption and sending in one |
| `TlsHelloTheorems.PassesAgreeExactly` | td/mtproto/TlsInit.cpp:544-562 | For every list the length pass accepts: the store pass gets through and fills the buffer exactly if and only if every permutation part at any depth is balanced and has no padding, or starts the buffer it is counted in, or has 513 bytes before its first padding; otherwise, if it gets through, it writes more than was counted |
| `TlsHelloTheorems.PassesAgree` | td/mtproto/TlsInit.cpp:544-562 | In that case the list is the flattening of a tree of scopes and the store pass writes exactly the bytes of that tree, no check failing, for every shuffle |
| `TlsHelloTheorems.UnpaddedAgree` | td/mtproto/TlsInit.cpp:461-470 | Padding outside the parts of permutations, as in the hellos in use, never makes the passes disagree |
| `TlsHelloTheorems.NestingNecessary` | td/mtproto/TlsInit.cpp:423-437 | If the length pass accepts a list and the store pass gets through it, every part at any depth is balanced |
| `TlsHelloTheorems.PaddingInPart` | td/mtproto/TlsInit.cpp:461-470 | Lists that fail the condition: padding in a part that does not start the hello is counted from different starts, and the second pass writes more than the first counted |
| `TlsHelloTheorems.PaddingFirst` | td/mtproto/TlsInit.cpp:461-470 | Padding in a part that does start the hello is counted the same way by both |
| `TlsHelloTheorems.TreeMeets` | td/mtproto/TlsInit.cpp:357-474 | Whenever the store pass gets through a tree, the length pass accepts it, at least as much is written as counted, and exactly that if and only if all parts fit |
| `TlsHelloTree.FitsExactly` | td/mtproto/TlsInit.cpp:318-322 | A part is as long at an offset as on its own if and only if it has no padding, the offset is zero or 513 bytes precede its padding |
| `TlsHelloTree.CalcTree` | td/mtproto/TlsInit.cpp:253-326 | The length pass over a tree fails exactly on a bad leaf or a scope of 2^14 bytes and otherwise adds the length of the tree |
| `TlsHelloTree.StoreTree` | td/mtproto/TlsInit.cpp:357-474 | The store pass over an acceptable tree appends its bytes: every scope its two-byte length and its contents |
| `TlsHelloTree.RenderLength` | td/mtproto/TlsInit.cpp:438-460 | The bytes of a tree have its length whatever the order of the parts |
| `TlsHelloTheorems.ParseKeeps` | td/mtproto/TlsInit.cpp:293-309 | The tree found for a list flattens back to the list |
| `TlsInit.TlsHelloCalcLength.DoOp` | td/mtproto/TlsInit.cpp:253-326 | The object of the length pass after one operation |
| `TlsInit.TlsHelloStore.DoOp` | td/mtproto/TlsInit.cpp:361-474 | The object of the store pass after one operation, in a buffer it never leaves |
| `TlsInit.TlsHelloStore.End` | td/mtproto/TlsInit.cpp:427-437 | The length field is filled in place |
| `TlsInit.BuildParts` | td/mtproto/TlsInit.cpp:438-453 | Parts built in buffers of their own fill them exactly |
| `TlsInit.GenerateHeader` | td/mtproto/TlsInit.cpp:544-562 | The hello is what the store pass writes, as long as the length pass said, with the digest in its place |
| `RingQueue.Fifo` | benchmark/bench_queue.cpp:210-331 | In every interleaving of reader and writer steps, across wraparound and with stale copies of the counters, the values read are a prefix of the values put, at most 1024 are on their way, and those are in their slots |
| `RingQueue.NoOverwrite` | benchmark/bench_queue.cpp:270-272 | No step changes a slot that holds an unread value |
| `RingQueue.FlushedIsReady` | benchmark/bench_queue.cpp:261-281 | After a flush and a look the reader is ready for exactly the values put and not read |
| `RingQueue.FreedIsReady` | benchmark/bench_queue.cpp:249-255 | After a flush and a look the writer has room for exactly the rest of the ring |
| `RingQueue.FullExactly` | benchmark/bench_queue.cpp:245-255 | Comparing wrapped counters tells exactly whether the writer may put |
| `RingQueue.EmptyExactly` | benchmark/bench_queue.cpp:241-251 | Comparing wrapped counters tells exactly whether the reader may read |
| `RingQueue.BufferQueue.PutNoFlush` | benchmark/bench_queue.cpp:313-322 | Looks at the other side only when its own copy leaves no room, and fails only if there is none |
| `RingQueue.BufferQueue.PutAndFlush` | benchmark/bench_queue.cpp:324-327 | A value that is put is published: a reader that looks is ready for it and all before it |
| `RingQueue.BufferQueue.TryGetAndFlush` | benchmark/bench_queue.cpp:307-311 | A value that is read makes room that a writer finds when it looks |
| `RingQueue.BufferQueue.TryGetNoFlush` | benchmark/bench_queue.cpp:293-305 | One round of the waiting loop reads the next value or finds none published |
| `MemprofTable.OneSlotPerHash` | memprof/memprof.cpp:154-191 | In every interleaving of loads and compare-and-swaps each non-zero hash is in at most one slot, and all finished lookups of it, early or late, return that slot |
| `MemprofTable.AbortsOnlyIfFull` | memprof/memprof.cpp:180-188 | A lookup runs around the table only if no slot is empty |
| `MemprofAbort.AbortExactly` | memprof/memprof.cpp:160-188 | From the empty table the abort can be reached in some interleaving if and only if the slots are no more than half of them, one for every thread, and one for the common hash when it is not zero and a table one above half is below seven tenths |
| `MemprofAbort.TenMillion` | memprof/memprof.cpp:146-188 | With the ten million slots of the source that takes 4999999 threads |
| `MemprofAbort.AbortNeedsFill` | memprof/memprof.cpp:180-188 | The bound behind it: entries other than the common one and claims for such never exceed half the table and one per thread |
| `MemprofAbort.FillByThreads` | memprof/memprof.cpp:160-177 | A run in which enough threads pass the check together, fill the table and make a lookup run around |
| `MemprofAbort.FillWithCommon` | memprof/memprof.cpp:161-166 | A run with one thread fewer in which the common hash takes the last slot |
| `MemprofTable.HashTable.GetHtPos` | memprof/memprof.cpp:154-191 | The probing loop of one thread finds or claims the slot of its hash, or of the common one once half the table is full, and stops only for the stated reasons |
| `MemprofAssertion.FailsExactly` | memprof/memprof.cpp:160-166 | From the empty table the assertion inside the lookup can fail in some interleaving if and only if there is a thread and the common hash is zero or seven tenths of the slots are no more than half of them, one for every thread, and one for the common entry when there is a second thread to make it and it can come in |
| `MemprofAssertion.OrdinaryFailure` | memprof/memprof.cpp:160-166 | With three slots or more no site of hash zero is needed for that |
| `MemprofAssertion.TenMillionSlots` | memprof/memprof.cpp:146-166 | With the ten million slots of the source that takes 1999999 threads |
| `MemprofAssertion.FailureNeedsThreads` | memprof/memprof.cpp:161-163 | The bound behind it: entries counted and claims let in never exceed half the table, one per thread and the common entry |
| `MemprofAccounting.LookupFailsExactly` | memprof/memprof.cpp:160-166 | The same over runs of lookups, allocations, frees and reallocations |
| `MemprofAccounting.SizesMatch` | memprof/memprof.cpp:203-237 | After every run of lookups, allocations, frees and reallocations of all threads each slot holds the sum of the live allocations registered there as their sizes are kept, all slots the sum of all; an assertion of the accounting has failed if and only if an allocation was registered whose kept size is negative, and the one inside the lookup only with enough threads for it |
| `MemprofAccounting.TotalExact` | memprof/memprof.cpp:203-237 | Over every run the total never exceeds the sizes asked for, and equals them if and only if every live allocation is smaller than 2^31 bytes |
| `MemprofAccounting.LargeAllocation` | memprof/memprof.cpp:228-230 | A run with one allocation of 2^32 bytes or more that passes the assertion and is counted as less |
| `MemprofAccounting.SizesBySite` | memprof/memprof.cpp:140-144 | After every run a slot holds the live allocations of the site whose hash is there and, on top, those with hash zero whose lookup ended there |
| `MemprofAccounting.UnhashedAllocation` | memprof/memprof.cpp:154-178 | A run after which a slot holds more than its site has live, because an allocation with hash zero ended there |
| `MemprofAccounting.KeptExactly` | memprof/memprof.cpp:228-230 | The kept size is the size if and only if it is below 2^31, never more, and negative up to 2^32 |
| `MemprofAccounting.GetUsedMemorySize` | memprof/memprof.cpp:327-331 | Adding up the slots gives the sum of all live allocations as kept, which is what was asked for if and only if each is smaller than 2^31 bytes |
| `KeyAgreement.SameKey` | td/mtproto/DhHandshake.cpp:212-217 | Both ends compute the same power for all generators, secrets and moduli |
| `KeyAgreement.BitsExactly` | td/mtproto/DhHandshake.cpp:100-106 | Having more than k binary digits is being at least two to the k |
| `KeyAgreement.InRangeExactly` | td/mtproto/DhHandshake.cpp:95-126 | The range check holds if and only if both powers are at least two to the 1984th away from zero and from the modulus |
| `KeyAgreement.InRangeIsSafe` | td/mtproto/DhHandshake.cpp:95-126 | The range check implies that both powers are greater than one and less than the modulus minus one |
| `KeyAgreement.SameSecret` | td/telegram/AuthManager.cpp:257-300 | The client value equals the server value for every modulus, generator, verifier exponent, secrets, scrambler and multiplier |
| `DhHandshake.DhHandshake.RunChecks` | td/mtproto/DhHandshake.cpp:183-195 | Each outcome if and only if: passed when the power has its announced hash, the configuration is good or was checked before, the modulus has 2048 bits and both powers are in range; stopped when only the modulus of a skipped check has another size; and one refusal for each other reason |
| `DhHandshake.DhHandshake.SetConfig` | td/mtproto/DhHandshake.cpp:128-143 | The published power belongs to the secret drawn |
| `DhHandshake.DhHandshake.SetGA` | td/mtproto/DhHandshake.cpp:158-166 | Keeps the invariant that the power is the number received and the flag says whether what was received, byte for byte, has the announced hash |
| `DhHandshake.LeadingZero` | td/mtproto/DhHandshake.cpp:158-166 | A leading zero byte leaves the power as it is, so whether it passes is up to the hash alone |
| `DhHandshake.DhHandshake.GenKey` | td/mtproto/DhHandshake.cpp:212-223 | For every exponent of which the other power is the power of the generator, the key is the generator to the product of the exponents, and the identifier is that of the key |
| `DhHandshake.Exchange` | td/mtproto/DhHandshake.cpp:197-223 | Two ends that exchange powers, one of them announcing its hash first, get the same key and identifier, and their checks have the same result, never a hash mismatch |
| `Handshake.FinishedProperly` | td/mtproto/Handshake.cpp:86-285 | A handshake is finished only after three accepted replies with the nonces of this run, all checks passed and the key confirmed |
| `Handshake.ResumeResends` | td/mtproto/Handshake.cpp:299-313 | In every reachable intermediate state there is a last query, and resuming sends exactly that and changes nothing |
| `Handshake.KeyIsShared` | td/mtproto/Handshake.cpp:223-244 | The key of a finished handshake is the one the server gets from what the client sent |
| `Handshake.RefusalStartsOver` | td/mtproto/Handshake.cpp:340-344 | After a refused reply at any point of any run nothing is sent or accepted until the handshake is resumed, and then it starts over with one first query and a new nonce |
| `Handshake.AuthKeyHandshake.HandleMessage` | td/mtproto/Handshake.cpp:327-345 | The object after a message, against the function of the runs |
| `Handshake.AuthKeyHandshake.ResumeAll` | td/mtproto/Handshake.cpp:299-313 | The object after resuming |
| `Handshake.AuthKeyHandshake.StartUp` | td/mtproto/Handshake.cpp:315-325 | The object after starting |
| `Handshake.AuthKeyHandshake.HandleServerDhParams` | td/mtproto/Handshake.cpp:163-254 | The object after the second reply |
| `SourceSplit.Find` | SplitSource.php:3-8 | Path compression returns the root and changes no root; the recursion ends because ranks grow towards the root |
| `SourceSplit.Union` | SplitSource.php:10-21 | Exactly the two sets are joined, whichever way the coin falls |
| `SourceSplit.BuildDeps` | SplitSource.php:157-178 | Every name lists exactly the functions it was found in |
| `SourceSplit.Unite` | SplitSource.php:180-184 | Two functions are in one set if and only if a chain of functions with shared names connects them |
| `SourceSplit.CollectSets` | SplitSource.php:185-195 | The sets are the functions of each root in order |
| `SourceSplit.Smallest` | SplitSource.php:201 | The first of the smallest chunks |
| `SourceSplit.Distribute` | SplitSource.php:196-204 | Every set goes into one chunk as a whole, and no chunk is larger than another by more than the largest set |
| `SourceSplit.Split` | SplitSource.php:152-204 | Every function is once in exactly one chunk, connected ones share it, and chunk sizes differ by no more than the largest group of connected functions |

## Left out

- Sockets, polling, actors, scheduling, logging, statistics and the HTTP transport: input and output without state of its own.
- Real cryptography, compression, primality tests and the byte patterns of elliptic-curve keys in the client hello: abstract functions of the right length.
- That the remainders asked of a Diffie-Hellman modulus make its generator a quadratic residue: number theory the code relies on; in the handshake of `Handshake` the configuration check is abstract.
- Packets inside compressed packets: the decompressed bytes give no bound on the nesting.
- Server time: the checks of received identifiers against the clock, and the update of the time difference by received packets, are inputs of the session model.
- AuthData.AuthDataStore.TakeSeqNo: the counter is unbounded, because the source's 32-bit one wraps only after 2^30 content-related messages of one session.
- Callbacks that enqueue while a packet is being handled: events reach the session one at a time.
- Generic function arguments of TL combinators: the generators treat them as opaque calls, and combinators with them are not supported as constructors.
- The parser for buffers that replaces zero bytes and repairs invalid UTF-8 in strings: strings are fetched by the plain parser.
- Object nesting in `TlRuntime` is bounded by a fuel argument, since bytes from elsewhere may nest without end; the round trip holds for every value, with fuel at least its depth.
- Packet versions other than 1 and 2.
- Sums of sizes in the profiler are unbounded; the source's 64-bit sums would need more memory than there is to wrap.
- Backtraces, and the text search that finds dependency names, prunes includes and writes the chunks of a split source: inputs of the model.
- The other queues of the benchmark, the JNI, Java, .NET, C and documentation generators and the JSON converter.
- Envelope.ReadCryptoImpl: asks for a key of 256 bytes, because the source takes parts of the key at fixed offsets without checking its length.
- A handshake message when no reply is expected, and a put into a ring that is full: the source stops the program there, the model makes no step.
