# EdgeVision gateway: verified model

A Dafny model of the EdgeVision gateway and proofs about it. The gateway collects measurements, stores
each one in SQLite together with an outbox row, and delivers the outbox over MQTT with QoS 1 to a consumer
that deduplicates. The promise at its centre is that every delivered row has its effect exactly once, in
order, across network failures, database failures and crashes.

## What is modelled

- **Frames** (`Crc`, `ErrorDetection`, `FlippedBits`, `FrameFormat`, `FrameCover`, `FrameParser`, `Modbus`).
  The buffered frame parser and the Modbus checks are imperative code over arrays. They are proved against a
  reference scanner, which in turn is proved to find the only set of frames that covers the stream. The CRC
  is shown to be the bit-serial register, and its error detection is derived from that: bursts of sixteen
  bits, odd numbers of flips, and up to three flips in a word of at most 4095 bytes, because two flips
  cancel exactly at distances that are multiples of 32767.
- **Bounded queue** (`BoundedQueue`). The byte ring is proved to behave as a FIFO queue for every schedule
  of the other threads. A wait on a condition variable is a list of steps that others take meanwhile.
- **Store** (`Measurements`, `OutboxTables`, `OutboxStore`, `StoreHistory`, `Migration`, `MigratedStart`).
  Rows, constraints, transactions with a failure possible at every SQLite call, and the schema migrations.
- **Publisher** (`Publisher`). Callers, network thread and late acknowledgements.
- **Consumer** (`Consumer`). Inbox and business table in one transaction.
- **Pipeline** (`Pipeline`, `PipelineInvariant`, `PipelineDurable`, `PipelineTheorems`, `PipelineQueues`,
  `PipelineFailures`, `PipelineDisk`, `PipelineProgress`, `PipelineLiveness`, `EndToEnd`, `Shutdown`). The
  source, storage, MQTT and command workers, the network and the coordinator as one transition system with
  crashes. An action is one stretch of code between two points where another thread can interfere. `Do`
  performs one action, `Run` any list of them.
- **Commands** (`Commands`, `Control`, `SavedInterval`). The ring of the sixteen latest answers, and the
  request and result queues between clients and storage worker.
- **Logger** (`LogFiles`, `Logger`). The synchronous mode of the log writer, with rotation.

SQL results, MQTT library answers, clock values, allocation failures, timeouts and thread schedules are
parameters that range over everything the environment may do.

## Assumptions about the environment

- The MQTT library picks a packet id that is positive, not in use and without an outstanding callback, and
  reports a packet id only after it was acknowledged.
- SQLite applies a statement or a transaction as a whole, and finalizing a statement that ran to completion
  does not fail.
- The expression lower(hex(randomblob(16))) yields 32 lower-case hexadecimal digits, not necessarily new ones.
- The broker delivers only what was published and delivers acknowledged messages at least once.
- Mutexes and condition variables work as POSIX says.

## Properties that do not hold

- **A command gets its own result.** Results of control commands are matched to requests by position. Before
  a stop this is exact. After a stop a client may give up its wait, and the next client takes the result it
  leaves behind. `Control.StaleAnswer` gives a run; `Control.OwnAnswerIffNothingLeft` the exact condition: an
  answer is the client's own if and only if nothing was under way when it posted its request.
- **Saved and running interval agree when no command is at work.** They do until a wait is given up
  (`Control.IntervalsAgree`). `Control.IntervalsPart`, `Control.StaleAnswer` and `Control.OvertakenParts`
  give runs in which they part. `Control.PartsIff` states, for every step of every reachable state, exactly
  when they agree afterwards. Three lemmas say it for a client: `Control.TakenAgreesIff` for one that takes a
  result, `Control.GivenUpAgreesIff` for one that gives up, and `Control.AdoptedSurvivesIff` for what an
  acknowledged client can rely on after a restart. Each holds whatever was under way when the client posted.
- **A log call that returned success has its record on synced storage.** It was synced when it was announced
  (`Logger.SuccessMeansSynced`, `Logger.AnnouncedIsActive`), but a rotation can come before the caller wakes
  up: compression replaces a synced file by one that was never synced, and the oldest file is dropped.
  `Logger.CompressionUnsyncs` gives a run; `Logger.StillSyncedIff` the exact condition.

## Model

| member | source | states |
|---|---|---|
| `Crc.ComputeCrc` | modules/protocol/frame.c:217-242 | the two nested loops compute the CRC defined bit by bit on the byte sequence, from register 0xFFFF |
| `Crc.AppendCrc` | modules/protocol/frame.c:379-387 | writes the CRC low byte first behind the covered bytes and touches nothing else |
| `Crc.CrcFromConcat` | modules/protocol/frame.c:217-242 | the CRC of a concatenation continues from the register of the first part |
| `Crc.CheckValue` | tests/frame_protocol_test.c:41-44 | the CRC of "123456789" is 0x4B37, which fixes start value, polynomial and bit order |
| `Crc.BitStepsLinear` | modules/protocol/frame.c:228-238 | any number of register steps is linear over exclusive or |
| `ErrorDetection.CrcIsSerial` | modules/protocol/frame.c:221-239 | the bytewise loop is the bit-serial register fed least significant bit first |
| `ErrorDetection.CodewordIsZeroResidue` | modules/protocol/frame.c:23-46 | comparing the received CRC with the computed one is the same as a zero register after all bytes, CRC included |
| `ErrorDetection.TrailerMakesCodeword` | modules/protocol/frame.c:379-387 | what the encoder appends is accepted by the check |
| `ErrorDetection.UndetectedIff` | modules/protocol/frame.c:217-242 | a damaged codeword passes if and only if the register, started at zero and fed the flipped bits, ends at zero |
| `ErrorDetection.BurstDetected` | modules/protocol/frame.c:23-46 | every burst of at most sixteen bits is detected |
| `ErrorDetection.TwoByteDamageDetected` | modules/protocol/frame.c:23-46 | any damage inside two neighbouring bytes is detected |
| `ErrorDetection.OddFlipsDetected` | modules/protocol/frame.c:23-46 | any odd number of flipped bits is detected |
| `FlippedBits.SquareDoubles` | modules/protocol/frame.c:228-238 | doubling the number of register steps squares the power of x they multiply by |
| `FlippedBits.ReturnsIff` | modules/protocol/frame.c:228-238 | the register, started at one, returns to it exactly at the multiples of 32767 steps |
| `FlippedBits.TwoFlipsMissedIff` | modules/protocol/frame.c:23-46 | two flipped bits go unnoticed if and only if their distance is a multiple of 32767 |
| `FlippedBits.FewFlipsDetected` | modules/protocol/frame.c:23-46 | in words of at most 4095 bytes one, two or three flipped bits are always detected |
| `FrameFormat.GoodIffEncoded` | modules/protocol/frame.c:106-138 | a stream starts with a good frame exactly when it starts with the encoding of a payload |
| `FrameFormat.VerdictsMean` | modules/protocol/frame.c:60-138 | what noise, a bad length, a bad CRC and an undecided head are, byte by byte |
| `FrameFormat.SampleFrame` | modules/protocol/frame.c:351-390 | the bytes of one frame on the wire |
| `FrameFormat.ClassifyStable` | modules/protocol/frame.c:106-138 | a decision about the head of the stream stands whatever arrives later |
| `FrameFormat.WaitingIsShort` | modules/protocol/frame.c:257-334 | an undecided head is shorter than the largest frame |
| `FrameFormat.ScanCounts` | modules/protocol/frame.c:257-334 | each frame, bad CRC, bad length and byte of noise is counted once, under its own name |
| `FrameFormat.ScanResumes` | modules/protocol/frame.c:257-334 | scanning a stream in two pieces finds what scanning it whole finds |
| `FrameFormat.ChunkingIsInvisible` | core/gateway.c:288-322 | payloads, counters and left-over bytes do not depend on how the stream is cut into chunks |
| `FrameFormat.BytesAreConserved` | modules/protocol/frame.c:257-334 | every input byte is in an emitted frame, counted as discarded once, or still buffered; the good counter is the number of payloads |
| `FrameFormat.ScanEncoded` | modules/protocol/frame.c:351-390 | encoded payloads followed by anything come out first, and what follows is scanned as if it stood alone |
| `FrameFormat.RoundTrip` | modules/protocol/frame.c:351-390 | encoding a list of payloads and scanning the bytes returns the list with nothing discarded and nothing left |
| `FrameCover.ScanFindsCover` | modules/protocol/frame.c:257-334 | the scanner yields non-overlapping good frames such that every other position before the cut starts nothing good |
| `FrameCover.CoverIsUnique` | modules/protocol/frame.c:257-334 | there is no other such set of frames |
| `FrameCover.ResyncIsLeftmostComplete` | modules/protocol/frame.c:60-138 | an encoding that occurs anywhere is emitted, overlaps an earlier emitted frame, or begins in the buffered rest; whatever is emitted is an encoding at its place |
| `FrameCover.DamageIsRejected` | modules/protocol/frame.c:23-46 | a frame whose payload or CRC suffered a burst of up to sixteen bits, up to three flips or an odd number of flips is rejected whatever follows it |
| `FrameParser.Parser.constructor` | modules/protocol/frame.c:171-178 | an empty buffer and zero counters |
| `FrameParser.Parser.Feed` | modules/protocol/frame.c:187-204 | appends the bytes, or refuses and changes nothing when they do not fit |
| `FrameParser.Parser.DiscardPrefix` | modules/protocol/frame.c:149-162 | moves the rest to the front: the pending bytes lose exactly their first ones |
| `FrameParser.Parser.FindMagic` | modules/protocol/frame.c:60-95 | skips only positions that start nothing, and stops at the magic or at an undecided tail |
| `FrameParser.Parser.CheckSize` | modules/protocol/frame.c:106-138 | tells a bad length, an incomplete frame and a complete one apart as the reference classification does |
| `FrameParser.Parser.CheckCrc` | modules/protocol/frame.c:23-46 | accepts exactly codewords |
| `FrameParser.Parser.SkipNoise` | modules/protocol/frame.c:268-289 | drops bytes before the first magic and counts each of them |
| `FrameParser.Parser.TakeHead` | modules/protocol/frame.c:290-334 | consumes one decided head, hands out its payload if good, and counts it |
| `FrameParser.Parser.Next` | modules/protocol/frame.c:257-334 | one call makes the buffered parser advance as the reference scanner does on the pending bytes |
| `FrameParser.Parser.Drain` | core/gateway.c:297-305 | calling until nothing is ready leaves exactly the payloads, counts and rest of one scan of the buffer |
| `FrameParser.Parser.Receive` | core/gateway.c:288-322 | feeding chunks of up to 1804 bytes and draining after each never overflows and gives the payloads, counts and rest of one scan of the whole stream |
| `FrameParser.EncodeFrame` | modules/protocol/frame.c:351-390 | writes exactly the encoding when payload and capacity allow it, nothing otherwise |
| `FrameParser.LongestWait` | modules/protocol/frame.c:106-138 | the bound of 244 bytes that a drained parser keeps is reached |
| `Modbus.BuildRead` | modules/protocol/frame.c:392-428 | builds the sealed eight-byte request for the accepted arguments and refuses the others |
| `Modbus.RequestIsUnderstood` | modules/protocol/frame.c:392-428 | a station reads station, function, address and count back from the request, and no other eight bytes say the same |
| `Modbus.SampleRequest` | tests/frame_protocol_test.c:46-58 | the bytes of the request for two registers |
| `Modbus.CheckReply` | modules/protocol/frame.c:430-485 | gives every buffer the verdict that CheckedReply states in terms of what the reply is |
| `Modbus.AcceptsExactly` | modules/protocol/frame.c:430-485 | a reply is normal if and only if function, station and count are in range and it is the sealed answer with two bytes per register asked, an exception if and only if it is the sealed exception of this function |
| `Modbus.DamagedReplyIsRejected` | modules/protocol/frame.c:430-485 | a reply with a burst of up to sixteen bits, up to three flips or an odd number of flips never passes |
| `BoundedQueue.RunLater` | modules/blocking_queue/blocking_queue.c:115-326 | under every interleaving what was popped is a prefix of what was pushed, the rest is in the queue within its capacity, and nothing enters after a close |
| `BoundedQueue.PushLinearizes` | modules/blocking_queue/blocking_queue.c:115-206 | a push, whatever happens while it waits, takes effect in one step between its call and its return, or not at all |
| `BoundedQueue.PopLinearizes` | modules/blocking_queue/blocking_queue.c:218-298 | the same for a pop, with the item it returns |
| `BoundedQueue.PopAnswers` | modules/blocking_queue/blocking_queue.c:218-298 | which answer a pop gives for every schedule: the item or CLOSED at the first look that finds one, TIMEOUT at once without waiting time, else the reason its next wait ends |
| `BoundedQueue.PushAnswers` | modules/blocking_queue/blocking_queue.c:115-206 | the same for a push: CLOSED before room, room before TIMEOUT |
| `BoundedQueue.UndisturbedPop` | modules/blocking_queue/blocking_queue.c:218-298 | a wait that nothing disturbs ends only with an item or CLOSED and goes on only on an empty open queue; without waiting time TIMEOUT exactly on such a queue |
| `BoundedQueue.UndisturbedPush` | modules/blocking_queue/blocking_queue.c:115-206 | the same for a push on a full open queue |
| `BoundedQueue.ClosedQueueDrains` | modules/blocking_queue/blocking_queue.c:218-298 | a worker that pops from a closed queue gets every item left, in order, and then CLOSED |
| `BoundedQueue.WriteAppends` | modules/blocking_queue/blocking_queue.c:192-196 | writing one element-sized slot of the byte ring appends exactly that item |
| `BoundedQueue.AdvanceDrops` | modules/blocking_queue/blocking_queue.c:287-292 | moving the head drops exactly the oldest item |
| `BoundedQueue.Ring.constructor` | modules/blocking_queue/blocking_queue.c:34-101 | an empty open queue of the asked capacity and element size |
| `BoundedQueue.Ring.Push` | modules/blocking_queue/blocking_queue.c:115-206 | the byte ring under any schedule of the other threads behaves as the abstract push |
| `BoundedQueue.Ring.Pop` | modules/blocking_queue/blocking_queue.c:218-298 | the byte ring under any schedule behaves as the abstract pop and copies out the item |
| `BoundedQueue.Ring.Close` | modules/blocking_queue/blocking_queue.c:308-326 | sets the closed flag for good and changes nothing else |
| `Measurements.JsonRoundTrip` | domain/measurement_json.c:410-583 | a valid measurement survives the way to JSON and back, also with further members appended |
| `Measurements.ToJsonGet` | domain/measurement_json.c:410-583 | each member of the JSON object holds the field of its name |
| `Measurements.AcceptedIffSaid` | domain/measurement_json.c:29-408 | an object is read as a measurement if and only if the measurement is valid and each member says its field, whatever else it has |
| `Measurements.EnrichIff` | core/gateway_workers.c:1302-1328 | a payload gets its id if and only if there is one and it has none yet, and keeps every other member |
| `Measurements.EnrichRoundTrip` | core/gateway_workers.c:1302-1328 | a stored payload can always be enriched, keeps its measurement and carries the message id |
| `OutboxTables.FirstPending` | modules/storage/outbox_store.c:884-893 | the position of the pending row with the smallest id |
| `OutboxTables.AdmitsAfterInsert` | modules/storage/outbox_store.c:185-240 | the constraints of the outbox table accept the new row exactly when its message id is new and well formed and the topic is not empty |
| `OutboxTables.IdAdmittedIff` | modules/storage/outbox_store.c:205-207 | a message id is admitted if and only if it has 32 characters and no row has it |
| `OutboxTables.SaveKeeps` | modules/storage/outbox_store.c:719-846 | a save keeps ids increasing, rows paired and message ids distinct |
| `OutboxTables.MarkSentKeeps` | modules/storage/outbox_store.c:1040-1116 | marking keeps all constraints; a sent row never changes again |
| `OutboxTables.RecordFailureKeeps` | modules/storage/outbox_store.c:1212-1287 | recording a failure keeps all constraints and never touches a sent row |
| `OutboxTables.SaveAppends` | modules/storage/outbox_store.c:719-846 | a save adds exactly one pending row with the given payload, topic and message id at the end, without attempts or error |
| `OutboxStore.EveryRunKeeps` | modules/storage/outbox_store.c:719-1389 | over any sequence of operations, failures and restarts the two tables stay in bijection, identities never change, a state only moves from pending to sent, and sent rows written here have their time |
| `OutboxStore.SaveIsAllOrNothing` | modules/storage/outbox_store.c:719-846 | a save commits both rows or none, and both exactly when no call failed, the input was acceptable, no transaction was stuck and the message id was new; the result code says which |
| `OutboxStore.SaveReports` | modules/storage/outbox_store.c:719-846 | which result a save reports, cause by cause |
| `OutboxStore.StuckIff` | modules/storage/outbox_store.c:820-846 | a connection is stuck in a transaction exactly after a save that began, did not commit and could not be rolled back, until it is opened again |
| `OutboxStore.StuckSees` | modules/storage/outbox_store.c:742-846 | what such a connection sees of the two rows, none of which is on disk |
| `OutboxStore.FailureIsNamed` | modules/storage/outbox_store.c:24-45 | which result a failing call becomes |
| `OutboxStore.CountsAreNumbers` | modules/storage/outbox_store.c:1124-1199 | the two counts are the numbers of pending and of sent rows |
| `OutboxStore.StatsAddUp` | modules/storage/outbox_store.c:1124-1199 | in every reachable database pending plus sent is the number of measurements and of outbox rows |
| `OutboxStore.EarliestIsFirst` | modules/storage/outbox_store.c:863-1030 | the first pending row joined with its measurement is what the query asks for |
| `OutboxStore.Store.constructor` | modules/storage/outbox_store.c:488-631 | a fresh connection sees what is on disk |
| `OutboxStore.Store.SaveMeasurement` | modules/storage/outbox_store.c:719-846 | database, transaction state and result code after a save with a failure at any call |
| `OutboxStore.Store.InsertBoth` | modules/storage/outbox_store.c:742-820 | the two inserts stop at the first call that fails |
| `OutboxStore.Store.ReadEarliestPending` | modules/storage/outbox_store.c:863-1030 | hands out the pending row with the smallest id joined with its own measurement, or says why not |
| `OutboxStore.Store.MarkAsSent` | modules/storage/outbox_store.c:1040-1116 | marks the row unless it is already sent, keeps the first sent time, and reports a missing row |
| `OutboxStore.Store.RecordDeliveryFailure` | modules/storage/outbox_store.c:1212-1287 | counts the attempt and stores the text on a pending row only |
| `OutboxStore.Store.SaveInterval` | modules/storage/outbox_store.c:1289-1340 | stores an interval in range and refuses the others |
| `OutboxStore.Store.LoadInterval` | modules/storage/outbox_store.c:1342-1389 | returns the stored interval or says there is none |
| `OutboxStore.Store.GetStats` | modules/storage/outbox_store.c:1124-1199 | the number of measurements, of pending and of sent rows, which add up |
| `StoreHistory.IntervalStep` | modules/storage/outbox_store.c:1289-1340 | an operation changes the interval on disk if and only if it stores one in range without failure outside a stuck transaction, and then to that value |
| `StoreHistory.IntervalIsLast` | modules/storage/outbox_store.c:1289-1389 | after any operations, failures and reopens the interval is the one stored last, or the initial one |
| `StoreHistory.RowStep` | modules/storage/outbox_store.c:1040-1287 | only an operation that names a row touches it, and only while it is pending |
| `StoreHistory.RowFollowsItsOperations` | modules/storage/outbox_store.c:1040-1287 | over any run a pending row counts exactly the failures recorded for it and keeps the last text; the first mark decides its time; nothing changes it afterwards |
| `Migration.OpenKeeps` | modules/storage/outbox_store.c:548-631 | opening a database of any version preserves every row, its order, its identity and its delivery state, whatever fails; new columns start empty and no interval is saved |
| `Migration.AttemptsKeep` | modules/storage/outbox_store.c:548-631 | so does any number of interrupted attempts |
| `Migration.EveryStatementCounts` | modules/storage/outbox_store.c:185-354 | a failure of any statement of the script that is due leaves the file as it was |
| `Migration.OpenReports` | modules/storage/outbox_store.c:548-631 | what opening reports: success exactly at the current version, else how the statement that stopped it failed |
| `Migration.DrawnIdsAreUsed` | modules/storage/outbox_store.c:283-318 | the message ids that are added are those drawn, in row order |
| `Migration.GoodAttemptFinishes` | modules/storage/outbox_store.c:548-631 | an attempt without failures reaches the current version from any version and any earlier interruptions |
| `Migration.Connection.RunScript` | modules/storage/outbox_store.c:185-354 | one migration script is all or nothing |
| `Migration.Connection.Advance` | modules/storage/outbox_store.c:563-620 | one turn of the version loop |
| `Migration.Connection.Open` | modules/storage/outbox_store.c:548-631 | the loop ends in the state described by the version chain |
| `MigratedStart.CurrentIsConsistent` | modules/storage/outbox_store.c:438-486 | a database at the current version, written by any earlier one, satisfies the invariant of the store |
| `MigratedStart.AttemptsKeepContent` | modules/storage/outbox_store.c:248-354 | no attempt to migrate disturbs what the rows say |
| `MigratedStart.MigratedDatabaseStarts` | modules/storage/outbox_store.c:548-631 | after any attempts a database of any earlier version that reached the current one is one the pipeline can start on |
| `Publisher.PublishIsSound` | modules/mqtt/mqtt_publisher.c:335-432 | under every schedule of callbacks, disconnects, timeouts and late acknowledgements, success means the broker acknowledged this very publication of this very message |
| `Publisher.HandleKeeps` | modules/mqtt/mqtt_publisher.c:86-146 | network events keep the bond between the expected packet id and the waiting caller |
| `Publisher.BeginKeeps` | modules/mqtt/mqtt_publisher.c:360-397 | handing a message over never reports success by itself and ties the wait to the new publication |
| `Publisher.OkMeansAcknowledged` | modules/mqtt/mqtt_publisher.c:398-432 | a caller that wakes up with success holds an acknowledgement of its own publication |
| `Publisher.BeginAnswers` | modules/mqtt/mqtt_publisher.c:369-396 | a call without a connection is refused before anything is handed over, the library's refusal is told apart, else the call waits for its own packet id |
| `Publisher.WaitAnswers` | modules/mqtt/mqtt_publisher.c:398-420 | which answer the wait gives for every schedule: success if the acknowledgement is there, even if the connection was lost after it; else not connected; else the reason its next wait ends |
| `Publisher.ConnectedIff` | modules/mqtt/mqtt_publisher.c:86-127 | after any callbacks the connection is usable if and only if it was made and nothing broke it since, or a stop came between |
| `Publisher.CompletedIff` | modules/mqtt/mqtt_publisher.c:129-146 | the wait is completed if and only if a callback for its own packet id has come |
| `Publisher.AcknowledgedIff` | modules/mqtt/mqtt_publisher.c:129-146 | exactly the publications acknowledged while outstanding are acknowledged |
| `Publisher.ForgottenIsNotAcknowledged` | modules/mqtt/mqtt_publisher.c:129-146 | a message the library gave up can no longer be acknowledged, the others still can |
| `Publisher.StopStops` | modules/mqtt/mqtt_publisher.c:491-530 | a stop ends in the stopped state whatever the connection does meanwhile, and does nothing to a stopped publisher |
| `Publisher.LossIsNoticed` | modules/mqtt/mqtt_publisher.c:109-127 | after a loss no call gets through until a new connection is made |
| `Publisher.MqttPublisher.constructor` | modules/mqtt/mqtt_publisher.c:148-243 | nobody waits and nothing was published |
| `Publisher.MqttPublisher.OnConnect` | modules/mqtt/mqtt_publisher.c:86-107 | the connection state after a connect result |
| `Publisher.MqttPublisher.OnDisconnect` | modules/mqtt/mqtt_publisher.c:109-127 | the connection state after a disconnect |
| `Publisher.MqttPublisher.OnPublish` | modules/mqtt/mqtt_publisher.c:129-146 | only the expected packet id completes the wait |
| `Publisher.MqttPublisher.PublishJson` | modules/mqtt/mqtt_publisher.c:335-432 | the method equals the specification on every schedule, and success carries the acknowledgement |
| `Publisher.MqttPublisher.AwaitPuback` | modules/mqtt/mqtt_publisher.c:398-432 | the wait loop and its exit equal the specification |
| `Consumer.DeliverAllKeeps` | examples/storage/sqlite_idempotent_consumer_demo.c:251-290 | inbox and business rows stay in step, rows are only added, and each stems from a delivered payload |
| `Consumer.DeliveredIsProcessed` | examples/storage/sqlite_idempotent_consumer_demo.c:251-290 | a delivery that meets a working database leaves its message processed with its own fields, however often it comes |
| `Consumer.NeverRefused` | examples/storage/sqlite_idempotent_consumer_demo.c:210-290 | without conflicting payloads no such delivery is refused |
| `Consumer.DeliverAnswers` | examples/storage/sqlite_idempotent_consumer_demo.c:210-290 | on a working database a message is refused exactly if another payload is stored under its id, and processed exactly if its id is new |
| `Consumer.ParsedIff` | examples/storage/sqlite_idempotent_consumer_demo.c:97-138 | a payload is a message if and only if it says a valid measurement and carries an id of 32 lower-case hexadecimal digits |
| `Consumer.StrayRowRefuses` | examples/storage/sqlite_idempotent_consumer_demo.c:170-208 | a business row without its inbox row is never overwritten |
| `Consumer.InboxHoldsFirst` | examples/storage/sqlite_idempotent_consumer_demo.c:140-208 | after any deliveries the inbox holds, under each id, the payload of the first one that carried it |
| `Consumer.AnswersFollowFirst` | examples/storage/sqlite_idempotent_consumer_demo.c:210-290 | the answer to every delivery of every sequence: processed if it is the first of its id, a duplicate if its payload is that of the first, an error otherwise |
| `Consumer.MessageIdIsValid` | examples/storage/sqlite_idempotent_consumer_demo.c:82-95 | accepts exactly 32 lower-case hexadecimal digits |
| `Consumer.Program.ProcessPayload` | examples/storage/sqlite_idempotent_consumer_demo.c:251-290 | one delivery as one transaction, with a failure at any call |
| `PipelineInvariant.StartOk` | core/gateway_workers.c:1795-1945 | a start on any database a run left behind satisfies the invariant |
| `PipelineInvariant.CrashKeeps` | core/gateway_workers.c:1795-1945 | a crash at any point leaves a state from which a restart satisfies the invariant |
| `PipelineInvariant.SourceLoopKeeps` | core/gateway_workers.c:973-975 | the stop test of the source loop keeps it |
| `PipelineInvariant.CollectKeeps` | core/gateway_workers.c:995-1016 | collecting a measurement counts it once |
| `PipelineInvariant.PushMeasurementKeeps` | core/gateway_workers.c:1018-1038 | a collected measurement is accepted at the end of the queue, waits, or is dropped once; a timed-out wait drops it when a stop is set even if there is room |
| `PipelineInvariant.SourceFailsKeeps` | core/gateway_workers.c:977-1050 | a failing source ends its worker and sets the flags |
| `PipelineInvariant.PopResultKeeps` | core/gateway_workers.c:1203-1246 | a report goes to the storage worker, or the closed queue ends the wait for it |
| `PipelineInvariant.PopMeasurementKeeps` | core/gateway_workers.c:1248-1275 | a measurement goes to the storage worker in order, or the closed queue is remembered; a wait that times out looks at neither |
| `PipelineInvariant.DecideKeeps` | core/gateway_workers.c:1277-1288 | a delivery is scheduled only with nothing in flight and no stop |
| `PipelineInvariant.HandOverKeeps` | core/gateway_workers.c:1125-1144 | the job is owned by the queue or freed, never both |
| `PipelineInvariant.PopJobKeeps` | core/gateway_workers.c:1662-1675 | the job moves to the MQTT worker |
| `PipelineInvariant.BuildPayloadKeeps` | core/gateway_workers.c:1677-1685 | the payload is that of the row; failure frees the job once |
| `PipelineInvariant.PushReportKeeps` | core/gateway_workers.c:1712-1735 | the report is handed back |
| `PipelineInvariant.CloseResultsKeeps` | core/gateway_workers.c:1737-1740 | the result queue closes only after the last report |
| `PipelineInvariant.PopCommandKeeps` | core/gateway_workers.c:1397-1403 | the second publishing thread takes a request, ends when the queue is closed and empty, or waits; a wait that times out looks at neither |
| `PipelineInvariant.CoordinateKeeps` | core/gateway_workers.c:1957-2014 | closes and joins happen in the order the invariant relies on |
| `PipelineInvariant.DrainKeeps` | core/gateway_workers.c:1754-1764 | draining frees every job left in the queue, once |
| `PipelineDurable.MarkHead` | core/gateway_workers.c:1088-1094 | marking the first pending row moves the frontier by one and touches no other row |
| `PipelineDurable.FailHead` | core/gateway_workers.c:1095-1108 | a recorded failure leaves the frontier where it was |
| `PipelineDurable.SaveTail` | core/gateway_workers.c:1057-1075 | a save appends one pending row with the topic of its device and leaves the frontier where it was |
| `PipelineDurable.ApplyReportKeeps` | core/gateway_workers.c:1077-1111 | applying a report keeps rows, publications and acknowledgements in line |
| `PipelineDurable.SaveMeasurementKeeps` | core/gateway_workers.c:1057-1075 | saving keeps everything a job in flight says about its row |
| `PipelineDurable.ReadPendingKeeps` | core/gateway_workers.c:1113-1124 | the job handed out is the first pending row |
| `PipelineDurable.BeginPublishKeeps` | core/gateway_workers.c:1687-1694 | every publication is of the first pending row |
| `PipelineDurable.WakePublishKeeps` | core/gateway_workers.c:1687-1710 | a success report is backed by an acknowledged publication of that row |
| `PipelineDurable.CommandBeginKeeps` | core/gateway_workers.c:1371-1390 | answers of the command worker share the publisher without disturbing the delivery worker |
| `PipelineDurable.StopsOnTheWayOut` | core/gateway_workers.c:1957-2014 | the connection is taken down after a stop was requested only |
| `PipelineDurable.StepKeeps` | core/gateway_workers.c:969-2014 | every action of every thread keeps the whole invariant |
| `PipelineDurable.EveryRunKeeps` | core/gateway_workers.c:969-2014 | so does every interleaving with any failures and crashes |
| `PipelineQueues.PopJobIsPop` | core/gateway_workers.c:1662-1675 | the delivery worker takes a job or ends exactly as the pop tells it |
| `PipelineQueues.PopResultIsPop` | core/gateway_workers.c:1203-1246 | the storage worker takes a report, remembers the close or goes on as the pop tells it |
| `PipelineQueues.PopMeasurementIsPop` | core/gateway_workers.c:1248-1275 | the same for a measurement |
| `PipelineQueues.PopCommandIsPop` | core/gateway_workers.c:1397-1403 | the command worker takes a request or ends exactly as the pop tells it |
| `PipelineQueues.PushMeasurementIsPush` | core/gateway_workers.c:1018-1038 | the source hands a measurement over, gives up or waits as the push tells it |
| `PipelineQueues.TimeoutsTouchNothing` | core/gateway_workers.c:1018-1038 | a wait that times out returns without another look at the queue |
| `PipelineQueues.HandOverIsPush` | core/gateway_workers.c:1125-1144 | a job is in flight or freed as the push tells the storage worker |
| `PipelineQueues.PushReportIsPush` | core/gateway_workers.c:1712-1735 | a report is dropped only on a closed queue or after a failure |
| `PipelineQueues.ReceiveCommandIsPush` | core/gateway_workers.c:270-295 | a remote command enters the queue or is dropped without waiting |
| `PipelineTheorems.DeliveryFollowsTheOutbox` | core/gateway_workers.c:1147-1298 | in every state reachable from any start that satisfies the invariant the sent rows are a prefix, publications are of the rows' own messages in row order, and repetitions apart they are exactly the first rows up to the frontier |
| `PipelineTheorems.CollapseGapless` | core/gateway_workers.c:1113-1145 | a gapless ordered list collapses to an initial stretch of the row numbers |
| `PipelineTheorems.SentMeansAcknowledged` | core/gateway_workers.c:1077-1111 | a sent row has an acknowledged publication of its own topic and enriched payload |
| `PipelineTheorems.OneJobInFlight` | core/gateway_workers.c:1153-1160 | at most one job or report exists, exactly when delivery_inflight says so, and neither hand-off finds its queue full |
| `PipelineTheorems.JobsAreFreedOnce` | core/gateway_workers.c:1754-1764 | every job is freed exactly once unless it is the live one; after the drain none is alive |
| `PipelineTheorems.QueuesAreBounded` | core/gateway_workers.c:28-36 | at most 32 measurements, one job, one report and eight commands are ever queued |
| `PipelineTheorems.NothingAcceptedIsLost` | core/gateway_workers.c:1147-1298 | after a normal end of the storage worker all accepted measurements are saved in order, at most one collected one was not accepted, and all reports were applied |
| `PipelineProgress.CycleDelivers` | core/gateway_workers.c:1113-1741 | from every reachable state at rest with a pending row, a cycle without failures publishes that row's message once, has it acknowledged, marks exactly that row and frees the job |
| `PipelineProgress.FailureIsRecorded` | core/gateway_workers.c:1095-1111 | a failed delivery counts the attempt and keeps the reason on the row it is about, which is then tried again |
| `PipelineProgress.PublisherCompletes` | modules/mqtt/mqtt_publisher.c:360-432 | a publication that is acknowledged and called back ends the wait with success |
| `PipelineProgress.OutcomeIsReported` | core/gateway_workers.c:1687-1710 | the report is about its own job with the outcome of the call; a success without a clock becomes a failure; the time is that of the clock |
| `PipelineProgress.RefusalIsReported` | core/gateway_workers.c:1687-1694 | a call that does not get to wait is reported with its reason, and only one that waits counts as an attempt |
| `PipelineProgress.CommandIsPublished` | core/gateway_workers.c:1371-1390 | the command worker publishes the very message it holds |
| `PipelineProgress.FailureTexts` | core/gateway_workers.c:1095-1103 | the texts kept for each publisher result |
| `PipelineFailures.FailsIff` | core/gateway_workers.c:969-2014 | a step of any thread makes the gateway fail exactly if it is one of the listed failures, and stop exactly then or on the signal |
| `PipelineFailures.RunFailsIff` | core/gateway_workers.c:969-2014 | so in every run without a crash: failed if and only if some step failed, stopping if and only if one did or the signal came |
| `PipelineLiveness.Flush` | core/gateway_workers.c:969-1741 | from every reachable state without a stop, wherever the workers stand, everything under way can be brought to an end |
| `PipelineLiveness.RowGetsDelivered` | core/gateway_workers.c:1113-1741 | from every such state some continuation without a crash marks the first pending row as sent |
| `PipelineLiveness.AcceptedGetsStored` | core/gateway_workers.c:1147-1298 | from every such state some continuation stores all accepted measurements in order |
| `PipelineLiveness.MeasurementIsStored` | core/gateway_workers.c:1013-1075 | a measurement collected while the queue has room gets stored behind all accepted before it |
| `EndToEnd.MessageParses` | examples/storage/sqlite_idempotent_consumer_demo.c:97-138 | the consumer reads the row's message back as its id and measurement |
| `EndToEnd.PublishedUnderItsDevice` | core/gateway_workers.c:1057-1066 | in every run each publication of a row goes to the topic of the device that the consumer reads from that payload |
| `EndToEnd.TopicsAreDevices` | core/gateway_workers.c:1062-1068 | measurements share a topic exactly if they share the device, and a valid one's topic always fits |
| `EndToEnd.NeverConflicts` | examples/storage/sqlite_idempotent_consumer_demo.c:210-249 | published messages with one id are equal, so the consumer never meets a conflict |
| `EndToEnd.SentHasEffect` | examples/storage/sqlite_idempotent_consumer_demo.c:251-290 | every sent row has its business row |
| `EndToEnd.ExactlyOnce` | examples/storage/sqlite_idempotent_consumer_demo.c:251-290 | for every run of the gateway, from any start that satisfies the invariant, and every delivery order with any repetition: each sent row has exactly one business row with its measurement, and each business row belongs to exactly one outbox row |
| `EndToEnd.MigratedExactlyOnce` | modules/storage/outbox_store.c:548-631 | the same for a gateway that takes over a database of any earlier version with nothing sent yet, after any failed migration attempts |
| `EndToEnd.NoDeliveryIsRefused` | examples/storage/sqlite_idempotent_consumer_demo.c:251-290 | no delivery that finds a working database is refused |
| `Shutdown.SourceStep` | core/gateway_workers.c:969-1055 | after the queues are closed no step of the source worker raises the measure, and each real one lowers it |
| `Shutdown.CommandStep` | core/gateway_workers.c:1392-1656 | the same for the command worker, also when a wait for a request that began before the close ends in a timeout after it |
| `Shutdown.MqttStep` | core/gateway_workers.c:1658-1741 | the same for the MQTT worker |
| `Shutdown.StorageStep` | core/gateway_workers.c:1147-1298 | the storage worker never raises it, and lowers it once no report can arrive |
| `Shutdown.PopMeasurementDown` | core/gateway_workers.c:1248-1275 | a timeout returned after the close by a wait that began before it lowers the measure too |
| `Shutdown.StepDown` | core/gateway_workers.c:1957-2014 | no step of any thread raises the measure, a step that leaves it leaves the helpful thread, a real step of that thread lowers it |
| `Shutdown.NeverStuck` | core/gateway_workers.c:1957-2014 | before the end some thread always has a step that lowers the measure: no deadlock |
| `Shutdown.RoundDescends` | core/gateway_workers.c:1957-2014 | a round in which every thread that is able to step gets a step lowers the measure |
| `Shutdown.ShutdownEnds` | core/gateway_workers.c:1957-2014 | more rounds that are fair to every thread than the measure counts bring the coordinator to its end, under every interleaving |
| `Shutdown.StopClosesQueues` | core/gateway_workers.c:1957-1986 | once the stop flag is set four steps of the coordinator close the queues, whatever the others do |
| `Commands.NeverRunTwiceSoon` | core/gateway_workers.c:1492-1625 | two executions of one request id have at least sixteen others between them, and every stored answer is the response of an execution of that id |
| `Commands.RepeatIsAnswered` | core/gateway_workers.c:1499-1546 | a repetition before sixteen further executions gets the original response if the command is the same and a refusal otherwise, is not executed and leaves the cache alone |
| `Commands.NewIsExecuted` | core/gateway_workers.c:1547-1630 | a request whose id is not among the sixteen latest is executed, stored and answered with its own response, or ends the worker if there is nothing to store |
| `Commands.OneAnswerEach` | core/gateway_workers.c:1492-1640 | as long as the worker runs every request gets exactly one answer, in order and under its own id, and the right one |
| `Commands.StopsIff` | core/gateway_workers.c:1547-1640 | the worker ends exactly at a new request that yields nothing it can store |
| `Commands.RecentDistinct` | core/gateway_workers.c:168-259 | the ids in the ring are distinct |
| `Commands.Cache.constructor` | core/gateway_workers.c:157-163 | all slots free |
| `Commands.Cache.SlotsAreRecent` | core/gateway_workers.c:157-163 | the slots hold exactly the sixteen latest entries |
| `Commands.Cache.Find` | core/gateway_workers.c:168-201 | the search answers miss, match or conflict as the latest entries demand |
| `Commands.Cache.Store` | core/gateway_workers.c:210-259 | overwrites the oldest slot when all three strings fit, changes nothing otherwise |
| `Commands.CommandWorker.constructor` | core/gateway_workers.c:1392-1395 | nothing executed, nothing answered |
| `Commands.CommandWorker.HandleRequest` | core/gateway_workers.c:1492-1640 | one request on the ring equals one step of the specification |
| `Control.OwnAnswerIffNothingLeft` | core/gateway_workers.c:444-505 | a command that gets a result gets its own one if and only if nothing was under way when it posted |
| `Control.PostIsPush` | core/gateway_workers.c:446-455 | a command posts its request or ends exactly as the push tells it |
| `Control.TakeIsPop` | core/gateway_workers.c:459-477 | a waiting command ends with a result, without one, or waits on exactly as the pop tells it |
| `Control.StorageStepsAreCalls` | core/gateway_workers.c:1163-1201 | serving and answering follow the two queue calls; an answer without room is fatal |
| `Control.ChannelEnds` | core/gateway_workers.c:1957-2014 | after a stop the channel can always be brought to its end, and later commands are turned away |
| `Control.NothingLeftBeforeStop` | core/gateway_workers.c:444-505 | until a stop at most one request or result exists, every answer is the client's own, and no push of either side finds a full queue |
| `Control.IntervalsAgree` | core/gateway_workers.c:1163-1201 | both intervals are always in range, and until a wait was given up they agree whenever no command is at work, also across restarts |
| `Control.PersistedStays` | core/gateway_workers.c:1163-1201 | only a served set_interval changes the saved interval |
| `Control.AcknowledgedSurvives` | core/gateway_workers.c:484-505 | a client that posted with nothing under way and is told it succeeded has its interval saved and running, and a restart at any later time uses it unless a later set_interval was saved |
| `Control.AdoptedSurvivesIff` | core/gateway_workers.c:479-505 | a client with anything under way that is told it succeeded: the value of the result it took is running, and a restart later uses it, unless a later one was saved, if and only if no newer value had overtaken it |
| `Control.TakenAgreesIff` | core/gateway_workers.c:479-505 | after any waiting client took a result and the queued request was served, the intervals agree if and only if what was then written, or else what was saved before, is the value now running |
| `Control.GivenUpAgreesIff` | core/gateway_workers.c:470-482 | after any client gave up its wait and the queued request was served, the intervals agree if and only if the value then written, or else the newest one whose result still travels, is the running one, or there is neither and they agreed before |
| `Control.PartsIff` | core/gateway_workers.c:1163-1201 | exactly when the intervals agree after a step, for every step of every reachable state: a restart, a write of the running value, a result taken whose value is still the saved one, or any other step from agreement |
| `Control.IntervalsPart` | core/gateway_workers.c:470-482 | the shortest runs in which the intervals part: one client asked for any value and gave up; the value is saved, and the interval runs on as before |
| `Control.CommandCompletes` | core/gateway_workers.c:444-505 | with nothing under way a set_interval ends saved, running and acknowledged with the value asked for |
| `Control.StaleAnswer` | core/gateway_workers.c:470-482 | after a stop a wait that is given up leaves a result that the next client takes for its own; the first value then runs and the second is saved |
| `Control.OvertakenParts` | core/gateway_workers.c:479-482 | runs in which a client whose own request is served takes the result left behind by one that gave up a set_interval or get_stats: its value is saved, the earlier one runs |
| `Control.StepKeeps` | core/gateway_workers.c:433-643 | every step of clients, storage worker and coordinator keeps the invariant |
| `Control.EveryRunKeeps` | core/gateway.c:814-825 | so does every run with restarts |
| `PipelineDisk.IntervalStays` | core/gateway_workers.c:1057-1201 | no step of the pipeline but a served set_interval changes the interval on disk |
| `PipelineDisk.ServedInterval` | core/gateway_workers.c:1163-1176 | serving a set_interval leaves its value on disk if and only if it is in range and no call fails |
| `SavedInterval.PersistedIsOnDisk` | core/gateway_workers.c:1163-1201 | in every run of clients and pipeline together the interval the commands believe saved is the one in the database |
| `SavedInterval.AcknowledgedIsOnDisk` | core/gateway.c:814-825 | a client that posted with nothing under way and is told it succeeded has its value in the database, and every later start uses it unless a later one was stored |
| `Logger.SuccessMeansSynced` | modules/log/async_logger.c:506-582 | a call that returned success has its record and every accepted record with a smaller number written and synced, under any interleaving with rotation and failure |
| `Logger.AnnouncedIsActive` | modules/log/async_logger.c:322-361 | when a record is announced it is the last one of the active file and synced there |
| `Logger.FileStaysWithinLimit` | modules/log/async_logger.c:286-320 | a line that is written leaves the active file within rotation_bytes or is the only line in it |
| `Logger.CallReturnsIff` | modules/log/async_logger.c:564-582 | a waiting call returns exactly if its record was announced or the writer failed, with success exactly if it did not fail |
| `Logger.PushIsPush` | modules/log/async_logger.c:545-562 | a record is accepted, refused or waits exactly as the push tells it |
| `Logger.PopIsPop` | modules/log/async_logger.c:322-334 | the writer takes a record or ends exactly as the pop tells it |
| `Logger.RotatesIffFull` | modules/log/async_logger.c:286-300 | the writer rotates exactly if the line does not fit |
| `Logger.WriterFailureEnds` | modules/log/async_logger.c:40-47 | whatever fails in the writer sets the error, then closes the queue and ends it |
| `Logger.ShutdownRefuses` | modules/log/async_logger.c:584-608 | after shutdown nothing enters and the writer ends on an empty queue; a call without a clock returns at once |
| `Logger.StillSyncedIff` | modules/log/async_logger.c:158-240 | an acknowledged record is still synced if and only if no gzip pass replaced its file; outside a rotation, if and only if no rotation happened since or compression is off and at most rotation_files did |
| `Logger.CompressionUnsyncs` | modules/log/async_logger.c:74-136 | a run in which a caller gets success while its record is only in a compressed file that was never synced |
| `Logger.WrittenIsPrefixOfAccepted` | modules/log/async_logger.c:322-361 | what was written is the accepted records in order, cut off somewhere; a writer that ended without error has written and synced all |
| `Logger.LogCompletes` | modules/log/async_logger.c:506-582 | with an idle writer, room in the file and no failure a call returns success with its text synced in the active file |
| `Logger.PushKeeps` | modules/log/async_logger.c:545-558 | records enter the queue in the order of their numbers |
| `Logger.GiveUpKeeps` | modules/log/async_logger.c:40-47 | a writer that failed has set write_error before it closes the queue; producers may come in between |
| `Logger.RotateFileKeeps` | modules/log/async_logger.c:158-240 | every step of a rotation keeps the invariant |
| `Logger.AnnounceKeeps` | modules/log/async_logger.c:343-352 | durable_sequence never runs ahead of what was synced |
| `Logger.CheckKeeps` | modules/log/async_logger.c:564-579 | the wait returns success only behind durable_sequence |
| `Logger.StepKeeps` | modules/log/async_logger.c:286-608 | every step of producers, writer, rotation and shutdown keeps the invariant |
| `LogFiles.RotateKeeps` | modules/log/async_logger.c:158-240 | after each step of a rotation every number holds the stretch of records it should, also when an earlier process left rotated files, with or without gaps, and nothing else is kept |
| `LogFiles.RotationEnds` | modules/log/async_logger.c:158-240 | a rotation without failures ends with the old file under number 1 and an empty active file |
| `LogFiles.FailKeeps` | modules/log/async_logger.c:158-240 | a rotation that fails anywhere leaves every file intact |
| `LogFiles.SafeIffUncompressed` | modules/log/async_logger.c:74-136 | a record that was synced still is if and only if it is in a file that was not compressed |
| `LogFiles.SafeByAge` | modules/log/async_logger.c:196-225 | outside a rotation a record is in some file if and only if at most rotation_files rotations happened since it was written |

## Left out

- JSON text: objects are lists of members with strings and exact numbers; the text form, escapes and the rounding of numbers above 2 to the power 53 in a double are not modelled.
- Finite floating point: a measurement's value is a real number, so the test for infinities and NaN has no counterpart.
- Integer widths: row ids, attempt counts, counters and sequence numbers are unbounded; wrap-around at 32 or 64 bits is not modelled.
- Time: deadlines, retry delays and timestamps are free choices of the environment, so nothing is said about how long anything takes.
- Sockets, serial port, command line and process setup, and the loops of the local command socket apart from the commands they hand over.
- The join of the local command thread: it is bounded by socket timeouts and is taken to return.
- Command texts other than those that need the store, parsing of remote commands, and the response to a conflict that cannot be allocated.
- The buffered mode of the logger, the text of log lines, gzip contents, and syncing of directories after a rename. An unlink of an existing file is taken to succeed.
- The second copies of the queue and of the frame code in modules/log/blocking_queue.c and examples/net/tcp_frame.c.
- bq_size and bq_destroy, publisher creation, start and stop beyond their effect on the connection state.
- Reading the schema version and verifying the final schema: their failures are part of a failed attempt.
- A failing ROLLBACK in the consumer ends the program, which drops the transaction.
- Allocation failures while a control command is answered.
- Pipeline.Do: is a function on values although threads update shared memory in place; interleaving is modelled, aliasing is not.
- Shutdown.ShutdownEnds: says that fair schedules end, not that the operating system's scheduler is fair.
