/**
 What every action of the pipeline keeps, crashes included.
 */
module PipelineInvariant {
  import opened Common
  import opened Measurements
  import opened OutboxTables
  import Store = OutboxStore
  import Pub = Publisher
  import Q = BoundedQueue
  import opened Pipeline

  // ---------------------------------------------------------------- the pieces

  predicate Capacities(s: State) {
    && s.measurements.capacity == MEASUREMENT_CAPACITY && s.deliveries.capacity == DELIVERY_CAPACITY
    && s.results.capacity == RESULT_CAPACITY && s.commands.capacity == COMMAND_CAPACITY
  }

  /** Each queue holds what was pushed and not yet popped, and no more than it can. */
  ghost predicate Histories(s: State) {
    s.measurements.Valid() && s.deliveries.Valid() && s.results.Valid() && s.commands.Valid()
  }

  function Stage(c: Coordinator): nat {
    match c
    case Running => 0
    case StopSet => 1
    case MeasurementsClosed => 2
    case DeliveriesClosed => 3
    case CommandsClosed => 4
    case CommandsJoined => 5
    case SourceJoined => 6
    case MqttJoined => 7
    case ResultsClosed => 8
    case StorageJoined => 9
    case Drained => 10
  }

  predicate MqttGone(s: State) { s.mqtt == MqttClosing || s.mqtt == MqttExited }

  /** Who closed what, and what a closed flag tells its reader. */
  predicate StagesOk(s: State) {
    var stage := Stage(s.coordinator);
    && (s.measurements.closed <==> stage >= 2)
    && (s.deliveries.closed <==> stage >= 3)
    && (s.commands.closed <==> stage >= 4)
    && (s.results.closed <==> s.mqtt == MqttExited)
    && (stage >= 1 || s.fatal || MqttGone(s) || s.source.SourceDone? ==> s.stop)
    && (stage >= 5 ==> s.command == CommandExited)
    && (stage >= 6 ==> s.source.SourceDone?)
    && (stage >= 7 ==> s.mqtt == MqttExited)
    && (stage >= 9 ==> s.storage.StorageExited?)
    && (stage >= 10 ==> |s.deliveries.items| == 0)
    && (s.publisher.connection == Pub.Stopping ==> s.stop)
    && (s.measurementClosed ==> s.measurements.closed && |s.measurements.items| == 0)
    && (s.resultClosed ==> s.results.closed && |s.results.items| == 0)
    && (s.storage == StorageExited(true) ==> s.measurementClosed && s.resultClosed)
    && (s.storage == StorageExited(false) ==> s.fatal)
    && (s.storage == AtResult ==> !s.measurementClosed || !s.resultClosed)
    && (s.storage == AwaitingMeasurement ==> !s.measurementClosed)
    && (s.command == CommandExited ==> s.fatal || (s.commands.closed && |s.commands.items| == 0))
  }

  // ---------------------------------------------------------------- the one job in flight

  predicate MqttHasJob(s: State) { s.mqtt.MqttHolding? || s.mqtt.MqttCalling? || s.mqtt.MqttWaiting? }

  /** Jobs and reports under way, besides a job the storage worker has not handed over yet. */
  function InFlight(s: State): nat {
    |s.deliveries.items| + |s.results.items|
    + (if MqttHasJob(s) || s.mqtt.MqttReporting? then 1 else 0)
    + (if s.storage.Applying? then 1 else 0)
  }

  predicate TokensOk(s: State) {
    && InFlight(s) <= 1
    && (InFlight(s) == 1 && !s.resultClosed ==> s.inflight)
    && (s.inflight && InFlight(s) == 0 ==> MqttGone(s) || s.storage == StorageExited(false))
    && (s.resultClosed ==> !s.inflight)
    && (s.storage == Scheduling || s.storage.Handing? ==> !s.inflight && !s.resultClosed)
  }

  /** The job that owns memory at the moment. */
  function LiveJob(s: State): Option<Job> {
    if s.storage.Handing? then Some(s.storage.job)
    else if MqttHasJob(s) then Some(s.mqtt.job)
    else if |s.deliveries.items| > 0 then Some(s.deliveries.items[0])
    else None
  }

  function LiveReport(s: State): Option<Report> {
    if s.storage.Applying? then Some(s.storage.report)
    else if s.mqtt.MqttReporting? then Some(s.mqtt.report)
    else if |s.results.items| > 0 then Some(s.results.items[0])
    else None
  }

  ghost predicate HandlesOk(s: State) {
    && (forall h: nat :: h < s.nextHandle ==>
          s.freed[h] == if LiveJob(s).Some? && LiveJob(s).value.handle == h then 0 else 1)
    && (forall h: nat :: h >= s.nextHandle ==> s.freed[h] == 0)
    && (LiveJob(s).Some? ==> LiveJob(s).value.handle < s.nextHandle)
  }

  // ---------------------------------------------------------------- the database

  /** Row `i` stems from a valid measurement, with its own topic and a well-formed message id. */
  predicate RowStored(t: Tables, i: nat)
    requires i < |t.outbox| && |t.outbox| == |t.measurements|
  {
    var m := FromJson(t.measurements[i].payload);
    && m.Some? && Valid(m.value)
    && t.measurements[i].payload == ToJson(m.value)
    && t.outbox[i].topic == Topic(m.value)
    && HexId(t.outbox[i].messageId)
  }

  predicate RowsStored(t: Tables)
    requires |t.outbox| == |t.measurements|
  {
    forall i | 0 <= i < |t.outbox| :: RowStored(t, i)
  }

  predicate SentPrefix(rows: seq<OutboxRow>) {
    forall i | FirstPending(rows) <= i < |rows| :: !rows[i].sent
  }

  ghost predicate DiskOk(t: Tables) {
    Consistent(t) && RowsStored(t) && SentPrefix(t.outbox)
  }

  // ---------------------------------------------------------------- jobs, reports, publications

  /** Some publication for row `i` was acknowledged. */
  predicate Delivered(attempts: seq<Attempt>, acked: set<nat>, i: nat) {
    exists j :: 0 <= j < |attempts| && attempts[j].row == i && attempts[j].index in acked
  }

  /** Every job and every report is about the first pending row. */
  predicate JobOk(t: Tables, item: Store.Item) {
    var k := FirstPending(t.outbox);
    |t.outbox| == |t.measurements| && k < |t.outbox| && item == ItemOf(t, k)
  }

  predicate ReportOk(t: Tables, attempts: seq<Attempt>, acked: set<nat>, r: Report) {
    var k := FirstPending(t.outbox);
    && k < |t.outbox| && r.id == t.outbox[k].id
    && (r.result == Pub.PublishOk ==> Delivered(attempts, acked, k))
  }

  predicate PayloadOk(t: Tables, payload: Json) {
    var k := FirstPending(t.outbox);
    |t.outbox| == |t.measurements| && k < |t.outbox| && payload == MessageOf(t, k).payload
  }

  /** A waiting publication is the latest attempt, and it is for the first pending row. */
  predicate WaitOk(t: Tables, attempts: seq<Attempt>, waiting: Option<Pub.Wait>) {
    && |attempts| > 0 && attempts[|attempts| - 1].row == FirstPending(t.outbox)
    && waiting.Some? && waiting.value.index == attempts[|attempts| - 1].index
  }

  predicate TokenMatches(s: State) {
    && (LiveJob(s).Some? ==> JobOk(s.disk, LiveJob(s).value.item))
    && (LiveReport(s).Some? ==> ReportOk(s.disk, s.attempts, s.publisher.library.acked, LiveReport(s).value))
    && (s.mqtt.MqttCalling? ==> PayloadOk(s.disk, s.mqtt.payload))
    && (s.mqtt.MqttWaiting? ==> WaitOk(s.disk, s.attempts, s.publisher.waiting))
  }

  ghost predicate PublisherOk(s: State) {
    && Pub.Sound(s.publisher)
    && (s.publisher.waiting.Some? <==> s.mqtt.MqttWaiting? || s.command == CommandWaiting)
    && !(s.mqtt.MqttWaiting? && s.command == CommandWaiting)
  }

  /** Publications follow the order of the outbox and carry the rows' own messages. */
  predicate AttemptsOk(t: Tables, attempts: seq<Attempt>, published: seq<Pub.Message>)
    requires |t.outbox| == |t.measurements|
  {
    && (forall j | 0 <= j < |attempts| ::
          && attempts[j].row < |t.outbox| && attempts[j].row <= FirstPending(t.outbox)
          && attempts[j].index < |published| && published[attempts[j].index] == MessageOf(t, attempts[j].row))
    && (forall i, j | 0 <= i < j < |attempts| ::
          attempts[i].row <= attempts[j].row && attempts[i].index < attempts[j].index)
  }

  predicate SentDelivered(t: Tables, attempts: seq<Attempt>, acked: set<nat>) {
    forall i | 0 <= i < FirstPending(t.outbox) :: Delivered(attempts, acked, i)
  }

  // ---------------------------------------------------------------- what was collected and reported

  ghost predicate LedgerOk(s: State) {
    && (s.storage.Saving? ==> s.measurements.popped == s.saved + [s.storage.m])
    && (s.storage == StorageExited(false) ==> s.saved <= s.measurements.popped)
    && (!s.storage.Saving? && s.storage != StorageExited(false) ==> s.measurements.popped == s.saved)
    && (s.storage.Applying? ==> s.results.popped == s.applied + [s.storage.report])
    && (s.storage == StorageExited(false) ==> s.applied <= s.results.popped)
    && (!s.storage.Applying? && s.storage != StorageExited(false) ==> s.results.popped == s.applied)
    && s.collected == |s.measurements.pushed| + (if Holds(s.source) || s.source == SourceDone(true) then 1 else 0)
  }

  ghost predicate SavedOk(t: Tables, base: nat, saved: seq<Measurement>) {
    && |t.measurements| == base + |saved|
    && (forall i | 0 <= i < |saved| :: t.measurements[base + i].payload == ToJson(saved[i]))
  }

  /** Queues, flags and the single job in flight. */
  ghost predicate Control(s: State) { Capacities(s) && StagesOk(s) && TokensOk(s) }

  /** What the job, the reports, the publisher and the histories of this run stand for. */
  ghost predicate Tracking(s: State) { HandlesOk(s) && TokenMatches(s) && PublisherOk(s) && LedgerOk(s) }

  /** What survives a crash, and what this run added to it. */
  ghost predicate Durable(t: Tables, attempts: seq<Attempt>, library: Pub.Library, base: nat, saved: seq<Measurement>) {
    && DiskOk(t)
    && AttemptsOk(t, attempts, library.published)
    && SentDelivered(t, attempts, library.acked)
    && SavedOk(t, base, saved)
  }

  /** What holds of a running process. */
  ghost predicate Volatile(s: State) { Control(s) && Histories(s) && Tracking(s) }

  ghost predicate Inv(s: State) {
    Volatile(s) && Durable(s.disk, s.attempts, s.publisher.library, s.base, s.saved)
  }

  // ---------------------------------------------------------------- starting, crashing

  lemma StartOk(disk: Tables, published: seq<Pub.Message>, acked: set<nat>, attempts: seq<Attempt>)
    requires DiskOk(disk) && AttemptsOk(disk, attempts, published) && SentDelivered(disk, attempts, acked)
    requires forall i | i in acked :: i < |published|
    ensures Inv(Start(disk, published, acked, attempts))
  {
    hide AttemptsOk, SentDelivered, RowsStored, SentPrefix;
  }

  lemma CrashKeeps(s: State)
    requires Inv(s)
    ensures Inv(Crash(s))
  {
    hide DiskOk, AttemptsOk, SentDelivered, Control, HandlesOk, TokenMatches, LedgerOk;
    StartOk(s.disk, s.publisher.library.published, s.publisher.library.acked, s.attempts);
  }

  // ---------------------------------------------------------------- source

  lemma SourceLoopKeeps(s: State)
    requires Inv(s)
    ensures Inv(SourceLoop(s))
  {
    hide Durable, JobOk, ReportOk, PayloadOk, WaitOk, Pub.Sound;
  }

  lemma CollectNothingKeeps(s: State)
    requires Inv(s)
    ensures Inv(CollectNothing(s))
  {
    hide Durable, JobOk, ReportOk, PayloadOk, WaitOk, Pub.Sound;
  }

  lemma CollectKeeps(s: State, m: Measurement)
    requires Inv(s)
    ensures Inv(Collect(s, m))
  {
    hide Durable, JobOk, ReportOk, PayloadOk, WaitOk, Pub.Sound;
  }

  lemma SourceFailsKeeps(s: State)
    requires Inv(s)
    ensures Inv(SourceFails(s))
  {
    hide Durable, JobOk, ReportOk, PayloadOk, WaitOk, Pub.Sound;
  }

  lemma AcceptKeeps(s: State)
    requires Inv(s) && Holds(s.source) && !s.measurements.closed && !s.measurements.Full()
    ensures Inv(Accept(s))
  {
    hide Durable, JobOk, ReportOk, PayloadOk, WaitOk, Pub.Sound;
    Q.ApplyLater(s.measurements, Q.OpPush(s.source.m));
  }

  /** Dropping, blocking and trying again. */
  lemma HoldingKeeps(s: State, next: Source)
    requires Inv(s) && Holds(s.source) && (Holds(next) || (next == SourceDone(true) && s.stop))
    ensures Inv(s.(source := next))
  {
    hide Durable, JobOk, ReportOk, PayloadOk, WaitOk, Pub.Sound;
  }

  lemma PushMeasurementKeeps(s: State, timedOut: bool)
    requires Inv(s)
    ensures Inv(PushMeasurement(s, timedOut))
  {
    if Holds(s.source) {
      assert s.measurements.closed ==> s.stop;
      hide Inv, Accept;
      HoldingKeeps(s, SourceHolding(s.source.m));
      HoldingKeeps(s, SourceBlocked(s.source.m));
      if s.stop { HoldingKeeps(s, SourceDone(true)); }
      if !s.measurements.closed && !s.measurements.Full() { AcceptKeeps(s); }
    }
  }

  // ---------------------------------------------------------------- storage

  lemma TakeReportKeeps(s: State)
    requires Inv(s) && s.storage == AtResult && |s.results.items| > 0
    ensures Inv(TakeReport(s))
  {
    hide Durable, JobOk, ReportOk, PayloadOk, WaitOk, Pub.Sound;
    Q.ApplyLater(s.results, Q.OpPop);
  }

  lemma SeeResultsClosedKeeps(s: State)
    requires Inv(s) && s.storage == AtResult && |s.results.items| == 0 && s.results.closed
    ensures Inv(SeeResultsClosed(s))
  {
    hide Durable, JobOk, ReportOk, PayloadOk, WaitOk, Pub.Sound;
  }

  lemma SkipResultsKeeps(s: State)
    requires Inv(s) && s.storage == AtResult
    ensures Inv(s.(storage := AtMeasurement))
  {
    hide Durable, JobOk, ReportOk, PayloadOk, WaitOk, Pub.Sound;
  }

  lemma PopResultKeeps(s: State)
    requires Inv(s)
    ensures Inv(PopResult(s))
  {
    hide Inv, TakeReport, SeeResultsClosed;
    if s.storage == AtResult {
      if |s.results.items| > 0 {
        TakeReportKeeps(s);
      } else if s.results.closed {
        SeeResultsClosedKeeps(s);
      } else {
        SkipResultsKeeps(s);
      }
    }
  }

  lemma StorageBreaksKeeps(s: State)
    requires Inv(s)
    ensures Inv(StorageBreaks(s))
  {
    hide Durable, JobOk, ReportOk, PayloadOk, WaitOk, Pub.Sound;
  }

  predicate PopsMeasurement(s: State) { s.storage == AtMeasurement || s.storage == AwaitingMeasurement }

  lemma TakeMeasurementKeeps(s: State)
    requires Inv(s) && PopsMeasurement(s) && !s.measurementClosed && |s.measurements.items| > 0
    ensures Inv(TakeMeasurement(s))
  {
    hide Durable, JobOk, ReportOk, PayloadOk, WaitOk, Pub.Sound;
    Q.ApplyLater(s.measurements, Q.OpPop);
  }

  lemma SeeMeasurementsClosedKeeps(s: State)
    requires Inv(s) && PopsMeasurement(s) && |s.measurements.items| == 0 && s.measurements.closed
    ensures Inv(SeeMeasurementsClosed(s))
  {
    hide Durable, JobOk, ReportOk, PayloadOk, WaitOk, Pub.Sound;
  }

  lemma SkipMeasurementsKeeps(s: State)
    requires Inv(s) && PopsMeasurement(s)
    ensures Inv(s.(storage := AtSchedule))
  {
    hide Durable, JobOk, ReportOk, PayloadOk, WaitOk, Pub.Sound;
  }

  lemma AwaitMeasurementKeeps(s: State)
    requires Inv(s) && PopsMeasurement(s) && !s.measurementClosed
    ensures Inv(s.(storage := AwaitingMeasurement))
  {
    hide Durable, JobOk, ReportOk, PayloadOk, WaitOk, Pub.Sound;
  }

  lemma PopMeasurementKeeps(s: State, timedOut: bool)
    requires Inv(s)
    ensures Inv(PopMeasurement(s, timedOut))
  {
    hide Inv, TakeMeasurement, SeeMeasurementsClosed;
    if PopsMeasurement(s) {
      SkipMeasurementsKeeps(s);
      if !s.measurementClosed { AwaitMeasurementKeeps(s); }
      if !s.measurementClosed && |s.measurements.items| > 0 {
        TakeMeasurementKeeps(s);
      } else if |s.measurements.items| == 0 && s.measurements.closed {
        SeeMeasurementsClosedKeeps(s);
      }
    }
  }

  lemma DecideKeeps(s: State, due: bool, clockOk: bool)
    requires Inv(s)
    ensures Inv(DecideSchedule(s, due, clockOk))
  {
    hide Durable, JobOk, ReportOk, PayloadOk, WaitOk, Pub.Sound;
  }

  lemma HandOverKeeps(s: State)
    requires Inv(s)
    ensures Inv(HandOver(s))
  {
    hide Durable, JobOk, ReportOk, PayloadOk, WaitOk, Pub.Sound;
    if s.storage.Handing? { Q.ApplyLater(s.deliveries, Q.OpPush(s.storage.job)); }
  }

  // ---------------------------------------------------------------- MQTT worker

  lemma TakeJobKeeps(s: State)
    requires Inv(s) && s.mqtt == MqttIdle && |s.deliveries.items| > 0
    ensures Inv(TakeJob(s))
  {
    hide Durable, JobOk, ReportOk, PayloadOk, WaitOk, Pub.Sound;
    Q.ApplyLater(s.deliveries, Q.OpPop);
  }

  lemma MqttFailsKeeps(s: State)
    requires Inv(s) && s.mqtt == MqttIdle
    ensures Inv(MqttFails(s))
  {
    hide Durable, JobOk, ReportOk, PayloadOk, WaitOk, Pub.Sound;
  }

  lemma EndJobsKeeps(s: State)
    requires Inv(s) && s.mqtt == MqttIdle && s.deliveries.closed
    ensures Inv(s.(mqtt := MqttClosing))
  {
    hide Durable, JobOk, ReportOk, PayloadOk, WaitOk, Pub.Sound;
  }

  lemma PopJobKeeps(s: State, fails: bool)
    requires Inv(s)
    ensures Inv(PopJob(s, fails))
  {
    hide Inv, TakeJob, MqttFails;
    if s.mqtt == MqttIdle {
      if fails {
        MqttFailsKeeps(s);
      } else if |s.deliveries.items| > 0 {
        TakeJobKeeps(s);
      } else if s.deliveries.closed {
        EndJobsKeeps(s);
      }
    }
  }

  lemma BuildPayloadKeeps(s: State, memory: bool)
    requires Inv(s)
    ensures Inv(BuildPayload(s, memory))
  {
    hide Durable, ReportOk, WaitOk, Pub.Sound, Enrich;
  }

  lemma PushReportKeeps(s: State, fails: bool)
    requires Inv(s)
    ensures Inv(PushReport(s, fails))
  {
    hide Durable, JobOk, ReportOk, PayloadOk, WaitOk, Pub.Sound;
    if s.mqtt.MqttReporting? { Q.ApplyLater(s.results, Q.OpPush(s.mqtt.report)); }
  }

  lemma CloseResultsKeeps(s: State)
    requires Inv(s)
    ensures Inv(CloseResults(s))
  {
    hide Durable, JobOk, ReportOk, PayloadOk, WaitOk, Pub.Sound;
  }

  // ---------------------------------------------------------------- commands, coordinator

  lemma ReceiveCommandKeeps(s: State, m: Pub.Message)
    requires Inv(s)
    ensures Inv(ReceiveCommand(s, m))
  {
    hide Durable, JobOk, ReportOk, PayloadOk, WaitOk, Pub.Sound;
    Q.ApplyLater(s.commands, Q.OpPush(m));
  }

  predicate PopsCommand(s: State) { s.command == CommandIdle || s.command == CommandAwaiting }

  lemma TakeCommandKeeps(s: State)
    requires Inv(s) && PopsCommand(s) && |s.commands.items| > 0
    ensures Inv(TakeCommand(s))
  {
    hide Durable, JobOk, ReportOk, PayloadOk, WaitOk, Pub.Sound;
    Q.ApplyLater(s.commands, Q.OpPop);
  }

  lemma EndCommandsKeeps(s: State)
    requires Inv(s) && PopsCommand(s) && |s.commands.items| == 0 && s.commands.closed
    ensures Inv(s.(command := CommandExited))
  {
    hide Durable, JobOk, ReportOk, PayloadOk, WaitOk, Pub.Sound;
  }

  lemma AwaitCommandKeeps(s: State, command: Command)
    requires Inv(s) && PopsCommand(s) && (command == CommandIdle || command == CommandAwaiting)
    ensures Inv(s.(command := command))
  {
    hide Durable, JobOk, ReportOk, PayloadOk, WaitOk, Pub.Sound;
  }

  lemma PopCommandKeeps(s: State, timedOut: bool)
    requires Inv(s)
    ensures Inv(PopCommand(s, timedOut))
  {
    hide Inv, TakeCommand;
    if PopsCommand(s) {
      if s.command == CommandAwaiting && timedOut {
        AwaitCommandKeeps(s, CommandIdle);
      } else if |s.commands.items| > 0 {
        TakeCommandKeeps(s);
      } else if s.commands.closed {
        EndCommandsKeeps(s);
      } else {
        AwaitCommandKeeps(s, CommandAwaiting);
      }
    }
  }

  lemma DropCommandKeeps(s: State, fails: bool)
    requires Inv(s)
    ensures Inv(DropCommand(s, fails))
  {
    hide Durable, JobOk, ReportOk, PayloadOk, WaitOk, Pub.Sound;
  }

  lemma CloseMeasurementsKeeps(s: State)
    requires Inv(s) && s.coordinator == StopSet
    ensures Inv(CloseMeasurements(s))
  {
    hide Durable, JobOk, ReportOk, PayloadOk, WaitOk, Pub.Sound;
  }

  lemma CloseDeliveriesKeeps(s: State)
    requires Inv(s) && s.coordinator == MeasurementsClosed
    ensures Inv(CloseDeliveries(s))
  {
    hide Durable, JobOk, ReportOk, PayloadOk, WaitOk, Pub.Sound;
  }

  lemma CloseCommandsKeeps(s: State)
    requires Inv(s) && s.coordinator == DeliveriesClosed
    ensures Inv(CloseCommands(s))
  {
    hide Durable, JobOk, ReportOk, PayloadOk, WaitOk, Pub.Sound;
  }

  lemma CloseResultsAgainKeeps(s: State)
    requires Inv(s) && s.coordinator == MqttJoined
    ensures Inv(CloseResultsAgain(s))
  {
    hide Durable, JobOk, ReportOk, PayloadOk, WaitOk, Pub.Sound;
  }

  lemma JoinKeeps(s: State, next: Coordinator)
    requires Inv(s)
    requires Stage(next) == Stage(s.coordinator) + 1 && Stage(next) in {1, 5, 6, 7, 9}
    requires next == StopSet ==> s.stop
    requires next == CommandsJoined ==> s.command == CommandExited
    requires next == SourceJoined ==> s.source.SourceDone?
    requires next == MqttJoined ==> s.mqtt == MqttExited
    requires next == StorageJoined ==> s.storage.StorageExited?
    ensures Inv(s.(coordinator := next))
  {
    hide Durable, JobOk, ReportOk, PayloadOk, WaitOk, Pub.Sound;
  }

  lemma DrainKeeps(s: State)
    requires Inv(s) && s.coordinator == StorageJoined
    ensures Inv(Drain(s))
  {
    hide Durable, JobOk, ReportOk, PayloadOk, WaitOk, Pub.Sound;
    var jobs := s.deliveries.items;
    if |jobs| > 0 {
      assert jobs[1..] == [];
      assert FreeAll(s.freed, jobs) == s.freed + multiset{jobs[0].handle};
    }
  }

  lemma CoordinateKeeps(s: State)
    requires Inv(s)
    ensures Inv(Coordinate(s))
  {
    hide Inv, CloseMeasurements, CloseDeliveries, CloseCommands, CloseResultsAgain, Drain;
    match s.coordinator {
      case Running => if s.stop { JoinKeeps(s, StopSet); }
      case StopSet => CloseMeasurementsKeeps(s);
      case MeasurementsClosed => CloseDeliveriesKeeps(s);
      case DeliveriesClosed => CloseCommandsKeeps(s);
      case CommandsClosed => if s.command == CommandExited { JoinKeeps(s, CommandsJoined); }
      case CommandsJoined => if s.source.SourceDone? { JoinKeeps(s, SourceJoined); }
      case SourceJoined => if s.mqtt == MqttExited { JoinKeeps(s, MqttJoined); }
      case MqttJoined => CloseResultsAgainKeeps(s);
      case ResultsClosed => if s.storage.StorageExited? { JoinKeeps(s, StorageJoined); }
      case StorageJoined => DrainKeeps(s);
      case Drained =>
    }
  }
}
