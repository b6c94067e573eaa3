/**
 The delivery pipeline of core/gateway_workers.c as a transition system: source, storage and MQTT worker,
 a second publishing thread, the network thread, the coordinator that stops them, and crashes.

 One action is one stretch of code between two points where another thread can interfere: a queue
 operation, a database statement or transaction, a publisher critical section. Timeouts, clock values,
 retry delays and failures are free choices of the action. A crash keeps the database and the record of
 what the broker was given, and restarts everything else.
 */
module Pipeline {
  import opened Common
  import opened Measurements
  import opened OutboxTables
  import Store = OutboxStore
  import Pub = Publisher
  import Q = BoundedQueue

  // ---------------------------------------------------------------- state

  /** A delivery job owns the copies of topic and payload allocated for it; `handle` names them. */
  datatype Job = Job(item: Store.Item, handle: nat)

  datatype Report = Report(id: int, result: Pub.PublishResult, sentAtMs: int)

  /** A publication handed to the library for outbox row number `row`. */
  datatype Attempt = Attempt(row: nat, index: nat)

  datatype Source =
    | SourceIdle                      // about to test the stop flag
    | SourceReading                   // it was clear, about to ask the source
    | SourceHolding(m: Measurement)   // collected, about to push
    | SourceBlocked(m: Measurement)   // waits inside the push, which found the queue full
    | SourceDone(dropped: bool)

  datatype Storage =
    | AtResult                        // about to pop result_queue
    | Applying(report: Report)        // popped a report, about to update the row
    | AtMeasurement                   // about to pop measurement_queue
    | AwaitingMeasurement             // waits inside the pop, which found the queue empty and open
    | Saving(m: Measurement)          // popped a measurement, about to save it
    | AtSchedule                      // about to test delivery_inflight and the stop flag
    | Scheduling                      // both were clear, about to read the earliest pending row
    | Handing(job: Job)               // about to push the job
    | StorageExited(normal: bool)

  datatype Mqtt =
    | MqttIdle                        // about to pop delivery_queue
    | MqttHolding(job: Job)           // popped a job, about to build its payload
    | MqttCalling(job: Job, payload: Json)
    | MqttWaiting(job: Job)           // waits for the acknowledgement
    | MqttReporting(report: Report)   // about to push the report
    | MqttClosing                     // about to close result_queue
    | MqttExited

  /** The remote command worker, as far as it shares the publisher: a request is the answer it publishes. */
  datatype Command =
    | CommandIdle                     // about to pop mqtt_command_queue
    | CommandAwaiting                 // waits inside the pop, which found the queue empty and open
    | CommandHolding(m: Pub.Message)  // popped a request
    | CommandWaiting                  // waits for the acknowledgement of its answer
    | CommandExited

  /** Where gateway_workers_run stands. */
  datatype Coordinator =
    | Running | StopSet | MeasurementsClosed | DeliveriesClosed | CommandsClosed | CommandsJoined | SourceJoined
    | MqttJoined | ResultsClosed | StorageJoined | Drained

  datatype State = State(
    disk: Tables,
    publisher: Pub.State,
    attempts: seq<Attempt>,
    source: Source,
    collected: nat,
    measurements: Q.Fifo<Measurement>,
    storage: Storage,
    measurementClosed: bool,
    resultClosed: bool,
    inflight: bool,
    base: nat,
    saved: seq<Measurement>,
    deliveries: Q.Fifo<Job>,
    results: Q.Fifo<Report>,
    applied: seq<Report>,
    mqtt: Mqtt,
    commands: Q.Fifo<Pub.Message>,
    command: Command,
    stop: bool,
    fatal: bool,
    coordinator: Coordinator,
    nextHandle: nat,
    freed: multiset<nat>)

  const MEASUREMENT_CAPACITY := 32
  const DELIVERY_CAPACITY := 1
  const RESULT_CAPACITY := 1
  const COMMAND_CAPACITY := 8

  function EmptyQueue<T>(capacity: nat): Q.Fifo<T> { Q.Fifo(capacity, [], false, [], []) }

  /** A process that has just started on `disk`, with the broker's record so far. */
  function Start(disk: Tables, published: seq<Pub.Message>, acked: set<nat>, attempts: seq<Attempt>): State {
    State(disk,
          Pub.State(Pub.Stopped, -1, false, None, Pub.Library(published, map[], map[], acked)),
          attempts,
          SourceIdle, 0, EmptyQueue(MEASUREMENT_CAPACITY),
          AtResult, false, false, false, |disk.outbox|, [],
          EmptyQueue(DELIVERY_CAPACITY), EmptyQueue(RESULT_CAPACITY), [],
          MqttIdle, EmptyQueue(COMMAND_CAPACITY), CommandIdle, false, false, Running, 0, multiset{})
  }

  function Init(): State { Start(EMPTY, [], {}, []) }

  // ---------------------------------------------------------------- small pieces

  /** gateway_worker_fail. */
  function Fail(s: State): State { s.(stop := true, fatal := true) }

  function Free(s: State, job: Job): State { s.(freed := s.freed + multiset{job.handle}) }

  /** End of an iteration of the storage loop. */
  function NextTurn(s: State): State {
    s.(storage := if s.measurementClosed && s.resultClosed then StorageExited(true) else AtResult)
  }

  function StorageFails(s: State): State { Fail(s).(storage := StorageExited(false)) }

  function MqttFails(s: State): State { Fail(s).(mqtt := MqttClosing) }

  /** The connection of the storage worker outside a transaction. */
  function Connection(t: Tables): Store.Db { Store.Db(t, t, false) }

  function TopicPrefix(): string { "edgevision/v1/devices/" }

  function Topic(m: Measurement): string { TopicPrefix() + m.deviceId + "/measurements" }

  const TOPIC_CAPACITY := 256

  /** The item of outbox row `k` as the storage worker reads it. */
  function ItemOf(t: Tables, k: nat): Store.Item
    requires k < |t.outbox| && |t.outbox| == |t.measurements|
  {
    var row := t.outbox[k];
    Store.Item(row.id, row.measurementId, row.attempts, row.messageId, row.topic, t.measurements[k].payload)
  }

  /** The message published for row `k`. */
  function MessageOf(t: Tables, k: nat): Pub.Message
    requires k < |t.outbox| && |t.outbox| == |t.measurements|
  {
    var enriched := Enrich(t.measurements[k].payload, t.outbox[k].messageId);
    Pub.Message(t.outbox[k].topic, if enriched.Some? then enriched.value else [])
  }

  /** What every step of a worker leaves alone: the coordinator's place, and a stop flag that is set. */
  predicate StopKept(s: State, t: State) { t.coordinator == s.coordinator && (s.stop ==> t.stop) }

  // ---------------------------------------------------------------- source worker

  function SourceLoop(s: State): (t: State)
    ensures StopKept(s, t)
  {
    if s.source != SourceIdle then s
    else s.(source := if s.stop then SourceDone(false) else SourceReading)
  }

  /** A pause, or no data yet. */
  function CollectNothing(s: State): (t: State)
    ensures StopKept(s, t)
  {
    if s.source != SourceReading then s else s.(source := SourceIdle)
  }

  function Collect(s: State, m: Measurement): (t: State)
    ensures StopKept(s, t)
  {
    if s.source != SourceReading then s else s.(source := SourceHolding(m), collected := s.collected + 1)
  }

  /** The source worker has a measurement it has not handed over. */
  predicate Holds(source: Source) { source.SourceHolding? || source.SourceBlocked? }

  function Accept(s: State): State
    requires Holds(s.source)
  {
    s.(source := SourceIdle, measurements := Q.Put(s.measurements, s.source.m))
  }

  /** A wait that times out gives up when the stop flag is set, even if there is room by now. */
  function PushMeasurement(s: State, timedOut: bool): (t: State)
    ensures StopKept(s, t)
  {
    if !Holds(s.source) then s
    else if s.source.SourceBlocked? && timedOut then
      s.(source := if s.stop then SourceDone(true) else SourceHolding(s.source.m))
    else if s.measurements.closed then s.(source := SourceDone(true))
    else if s.measurements.Full() then s.(source := SourceBlocked(s.source.m))
    else Accept(s)
  }

  /** The source, a mutex or a sleep failed. */
  function SourceFails(s: State): (t: State)
    ensures StopKept(s, t)
  {
    if s.source.SourceDone? then s else Fail(s).(source := SourceDone(Holds(s.source)))
  }

  // ---------------------------------------------------------------- storage worker

  function TakeReport(s: State): State
    requires |s.results.items| > 0
  {
    s.(storage := Applying(s.results.items[0]), results := Q.Take(s.results))
  }

  function SeeResultsClosed(s: State): State {
    s.(storage := AtMeasurement, resultClosed := true, inflight := false)
  }

  function PopResult(s: State): (t: State)
    ensures StopKept(s, t)
  {
    if s.storage != AtResult then s
    else if |s.results.items| > 0 then TakeReport(s)
    else if s.results.closed then SeeResultsClosed(s)
    else s.(storage := AtMeasurement)
  }

  /** A queue operation or the answer to a control request failed. */
  function StorageBreaks(s: State): (t: State)
    ensures StopKept(s, t)
  {
    if s.storage == AtResult || s.storage == AtMeasurement || s.storage == AwaitingMeasurement then StorageFails(s) else s
  }

  /** A control request, served at the top of the loop. */
  function StoreInterval(s: State, ms: int, codes: seq<Store.SqlCode>): (t: State)
    ensures StopKept(s, t)
  {
    if s.storage != AtResult then s
    else s.(disk := Store.After(Connection(s.disk), Store.IntervalOp(ms, codes)).committed)
  }

  function FailureText(result: Pub.PublishResult): string {
    "mqtt publish failed: " +
    match result
    case PublishOk => "0"
    case PublishInvalid => "-1"
    case PublishNotConnected => "-4"
    case PublishTimeout => "-5"
    case PublishLibraryError => "-3"
  }

  /** The operation gateway_storage_apply_report asks of the store. */
  function ReportOp(r: Report, codes: seq<Store.SqlCode>): Store.Op {
    if r.result == Pub.PublishOk then Store.MarkSentOp(r.id, r.sentAtMs, codes)
    else Store.FailureOp(r.id, FailureText(r.result), codes)
  }

  function Applied(s: State, codes: seq<Store.SqlCode>, fails: bool): State
    requires s.storage.Applying?
  {
    var r := s.storage.report;
    var t := s.(disk := Store.After(Connection(s.disk), ReportOp(r, codes)).committed, inflight := false,
                applied := s.applied + [r]);
    if fails then StorageFails(t) else t.(storage := AtMeasurement)
  }

  /** A failed delivery also reads the clock, for the time of the next try. */
  function ApplyReport(s: State, codes: seq<Store.SqlCode>, clockOk: bool): (t: State)
    ensures StopKept(s, t)
  {
    if !s.storage.Applying? then s
    else
      var r := s.storage.report;
      if r.result == Pub.PublishOk && r.sentAtMs <= 0 then StorageFails(s)
      else if !Store.AllOk(codes, 4) || !HasRow(s.disk, r.id) then StorageFails(s)
      else Applied(s, codes, r.result != Pub.PublishOk && !clockOk)
  }

  function TakeMeasurement(s: State): State
    requires |s.measurements.items| > 0
  {
    s.(storage := Saving(s.measurements.items[0]), measurements := Q.Take(s.measurements))
  }

  function SeeMeasurementsClosed(s: State): State {
    s.(storage := AtSchedule, measurementClosed := true)
  }

  /** A wait that times out ends without a second look at the queue, which may have been closed since. */
  function PopMeasurement(s: State, timedOut: bool): (t: State)
    ensures StopKept(s, t)
  {
    if s.storage != AtMeasurement && s.storage != AwaitingMeasurement then s
    else if s.measurementClosed || (s.storage == AwaitingMeasurement && timedOut) then s.(storage := AtSchedule)
    else if |s.measurements.items| > 0 then TakeMeasurement(s)
    else if s.measurements.closed then SeeMeasurementsClosed(s)
    else s.(storage := AwaitingMeasurement)
  }

  /** `messageId` is what lower(hex(randomblob(16))) drew. */
  function SaveMeasurement(s: State, messageId: string, memory: bool, codes: seq<Store.SqlCode>): (t: State)
    ensures StopKept(s, t)
  {
    if !s.storage.Saving? || !HexId(messageId) then s
    else
      var m := s.storage.m;
      var op := Store.SaveOp(m, memory, Topic(m), messageId, codes);
      if |Topic(m)| >= TOPIC_CAPACITY || Store.SaveResult(Connection(s.disk), op) != Store.StoreOk then StorageFails(s)
      else
        s.(disk := Store.After(Connection(s.disk), op).committed, storage := AtSchedule, saved := s.saved + [m])
  }

  /** `due` says whether the retry delay is over. */
  function DecideSchedule(s: State, due: bool, clockOk: bool): (t: State)
    ensures StopKept(s, t)
  {
    if s.storage != AtSchedule then s
    else if s.inflight || s.stop then NextTurn(s)
    else if !clockOk then StorageFails(s)
    else if !due then NextTurn(s)
    else s.(storage := Scheduling)
  }

  function ReadPending(s: State, memory: bool, codes: seq<Store.SqlCode>): (t: State)
    ensures StopKept(s, t)
  {
    if s.storage != Scheduling then s
    else if !Store.AllOk(codes, 2) then StorageFails(s)
    else
      var k := FirstPending(s.disk.outbox);
      if k == |s.disk.outbox| then NextTurn(s)
      else if !memory || |s.disk.outbox| != |s.disk.measurements| then StorageFails(s)
      else s.(storage := Handing(Job(ItemOf(s.disk, k), s.nextHandle)), nextHandle := s.nextHandle + 1)
  }

  function HandOver(s: State): (t: State)
    ensures StopKept(s, t)
  {
    if !s.storage.Handing? then s
    else if s.deliveries.closed || s.deliveries.Full() then NextTurn(Free(s, s.storage.job))
    else NextTurn(s.(deliveries := Q.Put(s.deliveries, s.storage.job), inflight := true))
  }

  // ---------------------------------------------------------------- MQTT worker

  function TakeJob(s: State): State
    requires |s.deliveries.items| > 0
  {
    s.(mqtt := MqttHolding(s.deliveries.items[0]), deliveries := Q.Take(s.deliveries))
  }

  function PopJob(s: State, fails: bool): (t: State)
    ensures StopKept(s, t)
  {
    if s.mqtt != MqttIdle then s
    else if fails then MqttFails(s)
    else if |s.deliveries.items| > 0 then TakeJob(s)
    else if s.deliveries.closed then s.(mqtt := MqttClosing)
    else s
  }

  function BuildPayload(s: State, memory: bool): (t: State)
    ensures StopKept(s, t)
  {
    if !s.mqtt.MqttHolding? then s
    else
      var job := s.mqtt.job;
      var payload := Enrich(job.item.payload, job.item.messageId);
      if !memory || payload.None? then MqttFails(Free(s, job))
      else s.(mqtt := MqttCalling(job, payload.value))
  }

  /** The publish call returned: free the job and prepare the report. */
  function Returned(s: State, job: Job, result: Pub.PublishResult, sentAtMs: int): State {
    Free(s, job).(mqtt := MqttReporting(Report(job.item.id, result, if result == Pub.PublishOk then sentAtMs else 0)))
  }

  /** The publisher may be entered, and the library would pick a packet id it may pick. */
  predicate MayEnter(p: Pub.State, answer: Pub.Accepted) {
    p.waiting.None? && (answer.Accepted? ==> Pub.FreshId(p.library, answer.mid))
  }

  function BeginPublish(s: State, clockOk: bool, answer: Pub.Accepted): (t: State)
    ensures StopKept(s, t)
  {
    if !s.mqtt.MqttCalling? || !MayEnter(s.publisher, answer) then s
    else if s.mqtt.job.item.topic == "" || s.mqtt.payload == [] then Returned(s, s.mqtt.job, Pub.PublishInvalid, 0)
    else if !clockOk then Returned(s, s.mqtt.job, Pub.PublishLibraryError, 0)
    else Enter(s, answer)
  }

  function Enter(s: State, answer: Pub.Accepted): State
    requires s.mqtt.MqttCalling? && MayEnter(s.publisher, answer)
  {
    var job := s.mqtt.job;
    var (p, result) := Pub.Begin(s.publisher, Pub.Message(job.item.topic, s.mqtt.payload), answer);
    if result.Some? then Returned(s.(publisher := p), job, result.value, 0)
    else
      s.(publisher := p, mqtt := MqttWaiting(job),
         attempts := s.attempts + [Attempt(FirstPending(s.disk.outbox), |s.publisher.library.published|)])
  }

  /** `nowMs` is the wall clock after a success, `clockOk` whether it could be read. */
  function WakePublish(s: State, timedOut: bool, failed: bool, clockOk: bool, nowMs: int): (t: State)
    ensures StopKept(s, t)
  {
    if !s.mqtt.MqttWaiting? then s
    else
      match Pub.Woken(s.publisher, timedOut, failed)
      case None => s
      case Some(result) =>
        Returned(s.(publisher := Pub.Leave(s.publisher)), s.mqtt.job,
                 if result == Pub.PublishOk && !clockOk then Pub.PublishLibraryError else result, nowMs)
  }

  function PushReport(s: State, fails: bool): (t: State)
    ensures StopKept(s, t)
  {
    if !s.mqtt.MqttReporting? then s
    else if fails then MqttFails(s)
    else if s.results.closed then s.(mqtt := MqttClosing)
    else if s.results.Full() then (if s.fatal then s.(mqtt := MqttClosing) else s)
    else s.(mqtt := MqttIdle, results := Q.Put(s.results, s.mqtt.report))
  }

  function CloseResults(s: State): (t: State)
    ensures StopKept(s, t)
  {
    if s.mqtt != MqttClosing then s
    else s.(mqtt := MqttExited, results := Q.Apply(s.results, Q.OpClose))
  }

  // ---------------------------------------------------------------- the other threads

  /** gateway_mqtt_command_received: dropped when the queue is full or closed. */
  function ReceiveCommand(s: State, m: Pub.Message): (t: State)
    ensures StopKept(s, t)
  {
    s.(commands := Q.Apply(s.commands, Q.OpPush(m)))
  }

  function TakeCommand(s: State): State
    requires |s.commands.items| > 0
  {
    s.(command := CommandHolding(s.commands.items[0]), commands := Q.Take(s.commands))
  }

  function PopCommand(s: State, timedOut: bool): (t: State)
    ensures StopKept(s, t)
  {
    if s.command != CommandIdle && s.command != CommandAwaiting then s
    else if s.command == CommandAwaiting && timedOut then s.(command := CommandIdle)
    else if |s.commands.items| > 0 then TakeCommand(s)
    else if s.commands.closed then s.(command := CommandExited)
    else s.(command := CommandAwaiting)
  }

  /** The request is dropped without an answer, or handling it failed and the worker gives up. */
  function DropCommand(s: State, fails: bool): (t: State)
    ensures StopKept(s, t)
  {
    if !s.command.CommandHolding? then s
    else if fails then Fail(s).(command := CommandExited)
    else s.(command := CommandIdle)
  }

  function CommandBegin(s: State, answer: Pub.Accepted): (t: State)
    ensures StopKept(s, t)
  {
    if !s.command.CommandHolding? || !MayEnter(s.publisher, answer) then s
    else
      var (p, result) := Pub.Begin(s.publisher, s.command.m, answer);
      s.(publisher := p, command := if result.Some? then CommandIdle else CommandWaiting)
  }

  function CommandWake(s: State, timedOut: bool, failed: bool): (t: State)
    ensures StopKept(s, t)
  {
    if s.command != CommandWaiting || Pub.Woken(s.publisher, timedOut, failed).None? then s
    else s.(publisher := Pub.Leave(s.publisher), command := CommandIdle)
  }

  function FreeAll(freed: multiset<nat>, jobs: seq<Job>): multiset<nat>
    decreases |jobs|
  {
    if jobs == [] then freed else FreeAll(freed + multiset{jobs[0].handle}, jobs[1..])
  }

  function CloseMeasurements(s: State): State {
    s.(coordinator := MeasurementsClosed, measurements := Q.Apply(s.measurements, Q.OpClose))
  }

  function CloseDeliveries(s: State): State {
    s.(coordinator := DeliveriesClosed, deliveries := Q.Apply(s.deliveries, Q.OpClose))
  }

  function CloseCommands(s: State): State {
    s.(coordinator := CommandsClosed, commands := Q.Apply(s.commands, Q.OpClose))
  }

  function CloseResultsAgain(s: State): State {
    s.(coordinator := ResultsClosed, results := Q.Apply(s.results, Q.OpClose))
  }

  /** A join returns once its thread has ended. */
  function Join(s: State, ended: bool, next: Coordinator): State {
    if ended then s.(coordinator := next) else s
  }

  /** gateway_drain_delivery_queue. */
  function Drain(s: State): State {
    s.(coordinator := Drained, freed := FreeAll(s.freed, s.deliveries.items),
       deliveries := s.deliveries.(items := [], popped := s.deliveries.pushed))
  }

  /** The next step of gateway_workers_run. */
  function Coordinate(s: State): State {
    match s.coordinator
    case Running => Join(s, s.stop, StopSet)
    case StopSet => CloseMeasurements(s)
    case MeasurementsClosed => CloseDeliveries(s)
    case DeliveriesClosed => CloseCommands(s)
    case CommandsClosed => Join(s, s.command == CommandExited, CommandsJoined)
    case CommandsJoined => Join(s, s.source.SourceDone?, SourceJoined)
    case SourceJoined => Join(s, s.mqtt == MqttExited, MqttJoined)
    case MqttJoined => CloseResultsAgain(s)
    case ResultsClosed => Join(s, s.storage.StorageExited?, StorageJoined)
    case StorageJoined => Drain(s)
    case Drained => s
  }

  function Crash(s: State): State {
    Start(s.disk, s.publisher.library.published, s.publisher.library.acked, s.attempts)
  }

  // ---------------------------------------------------------------- all actions

  datatype Action =
    | ASourceLoop | ACollectNothing | ACollect(m: Measurement) | APushMeasurement(timedOut: bool) | ASourceFails
    | APopResult | AStorageBreaks | AStoreInterval(ms: int, codes: seq<Store.SqlCode>)
    | AApplyReport(codes: seq<Store.SqlCode>, clockOk: bool)
    | APopMeasurement(timedOut: bool) | ASave(messageId: string, memory: bool, codes: seq<Store.SqlCode>)
    | ADecide(due: bool, clockOk: bool) | AReadPending(memory: bool, codes: seq<Store.SqlCode>) | AHandOver
    | APopJob(fails: bool) | ABuildPayload(memory: bool) | ABeginPublish(clockOk: bool, answer: Pub.Accepted)
    | AWakePublish(timedOut: bool, failed: bool, clockOk: bool, nowMs: int) | APushReport(fails: bool) | ACloseResults
    | APopCommand(timedOut: bool) | ADropCommand(fails: bool) | ACommandBegin(answer: Pub.Accepted)
    | ACommandWake(timedOut: bool, failed: bool)
    | AReceiveCommand(message: Pub.Message) | ANetwork(event: Pub.Event) | ASignal | ACoordinate | ACrash

  datatype Thread = SourceThread | StorageThread | MqttThread | CommandThread | CoordinatorThread | Outside

  function ThreadOf(a: Action): Thread {
    match a
    case ASourceLoop => SourceThread
    case ACollectNothing => SourceThread
    case ACollect(_) => SourceThread
    case APushMeasurement(_) => SourceThread
    case ASourceFails => SourceThread
    case APopResult => StorageThread
    case AStorageBreaks => StorageThread
    case AStoreInterval(_, _) => StorageThread
    case AApplyReport(_, _) => StorageThread
    case APopMeasurement(_) => StorageThread
    case ASave(_, _, _) => StorageThread
    case ADecide(_, _) => StorageThread
    case AReadPending(_, _) => StorageThread
    case AHandOver => StorageThread
    case APopJob(_) => MqttThread
    case ABuildPayload(_) => MqttThread
    case ABeginPublish(_, _) => MqttThread
    case AWakePublish(_, _, _, _) => MqttThread
    case APushReport(_) => MqttThread
    case ACloseResults => MqttThread
    case APopCommand(_) => CommandThread
    case ADropCommand(_) => CommandThread
    case ACommandBegin(_) => CommandThread
    case ACommandWake(_, _) => CommandThread
    case ACoordinate => CoordinatorThread
    case _ => Outside
  }

  function DoSource(s: State, a: Action): (t: State)
    ensures StopKept(s, t)
  {
    match a
    case ASourceLoop => SourceLoop(s)
    case ACollectNothing => CollectNothing(s)
    case ACollect(m) => Collect(s, m)
    case APushMeasurement(timedOut) => PushMeasurement(s, timedOut)
    case ASourceFails => SourceFails(s)
    case _ => s
  }

  function DoStorage(s: State, a: Action): (t: State)
    ensures StopKept(s, t)
  {
    match a
    case APopResult => PopResult(s)
    case AStorageBreaks => StorageBreaks(s)
    case AStoreInterval(ms, codes) => StoreInterval(s, ms, codes)
    case AApplyReport(codes, clockOk) => ApplyReport(s, codes, clockOk)
    case APopMeasurement(timedOut) => PopMeasurement(s, timedOut)
    case ASave(messageId, memory, codes) => SaveMeasurement(s, messageId, memory, codes)
    case ADecide(due, clockOk) => DecideSchedule(s, due, clockOk)
    case AReadPending(memory, codes) => ReadPending(s, memory, codes)
    case AHandOver => HandOver(s)
    case _ => s
  }

  function DoMqtt(s: State, a: Action): (t: State)
    ensures StopKept(s, t)
  {
    match a
    case APopJob(fails) => PopJob(s, fails)
    case ABuildPayload(memory) => BuildPayload(s, memory)
    case ABeginPublish(clockOk, answer) => BeginPublish(s, clockOk, answer)
    case AWakePublish(timedOut, failed, clockOk, nowMs) => WakePublish(s, timedOut, failed, clockOk, nowMs)
    case APushReport(fails) => PushReport(s, fails)
    case ACloseResults => CloseResults(s)
    case _ => s
  }

  function DoCommand(s: State, a: Action): (t: State)
    ensures StopKept(s, t)
  {
    match a
    case APopCommand(timedOut) => PopCommand(s, timedOut)
    case ADropCommand(fails) => DropCommand(s, fails)
    case ACommandBegin(answer) => CommandBegin(s, answer)
    case ACommandWake(timedOut, failed) => CommandWake(s, timedOut, failed)
    case _ => s
  }

  /** The network thread, the receiver of commands, the signal and the crash. */
  function DoOutside(s: State, a: Action): (t: State)
    ensures a.ACrash? || StopKept(s, t)
  {
    match a
    case AReceiveCommand(message) => ReceiveCommand(s, message)
    case ANetwork(event) =>
      // mqtt_publisher_stop is called on the way out only
      if (event.StopRequested? || event.StopDone?) && !s.stop then s
      else s.(publisher := Pub.Handle(s.publisher, event))
    case ASignal => s.(stop := true)
    case ACrash => Crash(s)
    case _ => s
  }

  function Do(s: State, a: Action): State {
    match ThreadOf(a)
    case SourceThread => DoSource(s, a)
    case StorageThread => DoStorage(s, a)
    case MqttThread => DoMqtt(s, a)
    case CommandThread => DoCommand(s, a)
    case CoordinatorThread => Coordinate(s)
    case Outside => DoOutside(s, a)
  }

  function Run(s: State, actions: seq<Action>): State
    decreases |actions|
  {
    if actions == [] then s else Run(Do(s, actions[0]), actions[1..])
  }

  predicate CrashFree(actions: seq<Action>) { forall i | 0 <= i < |actions| :: !actions[i].ACrash? }

  lemma {:induction false} RunSplits(s: State, a: seq<Action>, b: seq<Action>)
    ensures Run(s, a + b) == Run(Run(s, a), b)
    decreases |a|
  {
    hide Do;
    if a == [] {
      assert a + b == b;
    } else {
      assert (a + b)[1..] == a[1..] + b;
      RunSplits(Do(s, a[0]), a[1..], b);
    }
  }
}
