/**
 Why stopping the gateway always finishes: once the coordinator has closed its queues, a measure never
 grows, some thread can always make it smaller, and that thread stays the right one until it does.
 */
module Shutdown {
  import opened Common
  import opened Measurements
  import opened OutboxTables
  import Store = OutboxStore
  import Pub = Publisher
  import opened Pipeline
  import opened PipelineInvariant
  import opened PipelineDurable

  /** The stop flag is set and measurement, delivery and command queue are closed. */
  predicate Stopping(s: State) { s.stop && Stage(s.coordinator) >= 4 }

  // ---------------------------------------------------------------- the measure

  function SourceWork(source: Source): nat {
    match source
    case SourceReading => 2
    case SourceIdle => 1
    case SourceHolding(_) => 1
    case SourceBlocked(_) => 1
    case SourceDone(_) => 0
  }

  function CommandWork(command: Command, queued: nat): nat {
    3 * queued +
    match command
    case CommandHolding(_) => 3
    case CommandWaiting => 2
    case CommandAwaiting => 2
    case CommandIdle => 1
    case CommandExited => 0
  }

  function MqttWork(mqtt: Mqtt, queued: nat): nat {
    7 * queued +
    match mqtt
    case MqttHolding(_) => 8
    case MqttCalling(_, _) => 7
    case MqttWaiting(_) => 6
    case MqttReporting(_) => 5
    case MqttIdle => 2
    case MqttClosing => 1
    case MqttExited => 0
  }

  function StorageWork(storage: Storage, measurementClosed: bool, resultClosed: bool, measurements: nat, results: nat): nat {
    2 * results +
    if storage.StorageExited? then 0
    else
      1 + 2 * measurements
      + (if storage.Saving? || storage.Applying? || storage.AwaitingMeasurement? then 1 else 0)
      + (if measurementClosed then 0 else 1) + (if resultClosed then 0 else 1)
  }

  /** How far the storage worker's loop is from the place where it next finds something to do, once no
      report can arrive any more. */
  function Turn(storage: Storage, measurementClosed: bool, resultClosed: bool, noMoreResults: bool): nat {
    if !noMoreResults then 0
    else if !resultClosed || measurementClosed then
      match storage
      case AtMeasurement => 4
      case AtSchedule => 3
      case Scheduling => 2
      case Handing(_) => 1
      case _ => 0
    else
      match storage
      case AtSchedule => 4
      case Scheduling => 3
      case Handing(_) => 2
      case AtResult => 1
      case _ => 0
  }

  function StoragePart(s: State): nat {
    5 * StorageWork(s.storage, s.measurementClosed, s.resultClosed, |s.measurements.items|, |s.results.items|)
    + Turn(s.storage, s.measurementClosed, s.resultClosed, s.results.closed)
  }

  function Rank(s: State): nat {
    5 * (SourceWork(s.source) + CommandWork(s.command, |s.commands.items|)
         + MqttWork(s.mqtt, |s.deliveries.items|) + (10 - Stage(s.coordinator)))
    + StoragePart(s)
  }

  // ---------------------------------------------------------------- who must move next

  /** A thread that is not blocked and whose next step makes the measure smaller. */
  function Helper(s: State): Thread {
    if !s.source.SourceDone? then SourceThread
    else if s.command != CommandExited then
      if s.command.CommandHolding? && s.mqtt.MqttWaiting? then MqttThread else CommandThread
    else if s.mqtt != MqttExited then MqttThread
    else if !s.storage.StorageExited? then StorageThread
    else CoordinatorThread
  }

  /** `a` is what its thread does next, not a spurious wakeup. */
  predicate Real(s: State, a: Action) {
    match a
    case ASourceLoop => s.source == SourceIdle
    case ACollectNothing => s.source == SourceReading
    case ACollect(_) => s.source == SourceReading
    case APushMeasurement(_) => Holds(s.source)
    case ASourceFails => !s.source.SourceDone?
    case APopCommand(_) => PopsCommand(s)
    case ADropCommand(_) => s.command.CommandHolding?
    case ACommandBegin(answer) => s.command.CommandHolding? && MayEnter(s.publisher, answer)
    case ACommandWake(timedOut, failed) =>
      s.command == CommandWaiting && Pub.Woken(s.publisher, timedOut, failed).Some?
    case APopJob(_) => s.mqtt == MqttIdle
    case ABuildPayload(_) => s.mqtt.MqttHolding?
    case ABeginPublish(_, answer) => s.mqtt.MqttCalling? && MayEnter(s.publisher, answer)
    case AWakePublish(timedOut, failed, _, _) =>
      s.mqtt.MqttWaiting? && Pub.Woken(s.publisher, timedOut, failed).Some?
    case APushReport(_) => s.mqtt.MqttReporting?
    case ACloseResults => s.mqtt == MqttClosing
    case APopResult => s.storage == AtResult
    case AStorageBreaks => s.storage == AtResult || PopsMeasurement(s)
    case AApplyReport(_, _) => s.storage.Applying?
    case APopMeasurement(_) => PopsMeasurement(s)
    case ASave(messageId, _, _) => s.storage.Saving? && HexId(messageId)
    case ADecide(_, _) => s.storage == AtSchedule
    case AReadPending(_, _) => s.storage == Scheduling
    case AHandOver => s.storage.Handing?
    case ACoordinate => Coordinate(s).coordinator != s.coordinator
    case _ => false
  }

  /** `a` is a real step of the helper. */
  predicate Advances(s: State, a: Action) { ThreadOf(a) == Helper(s) && Real(s, a) }

  // ---------------------------------------------------------------- nothing climbs

  /** The measure went down, or it stayed and so did the helper; a real step of its thread takes it down. */
  predicate Down(s: State, t: State, strict: bool) {
    && Stopping(t) && (s.coordinator == Drained ==> t.coordinator == Drained)
    && (Rank(t) < Rank(s) || (!strict && Rank(t) == Rank(s) && Helper(t) == Helper(s)))
  }

  predicate SameSource(s: State, t: State) { t.source == s.source }

  predicate SameCommand(s: State, t: State) { t.command == s.command && |t.commands.items| == |s.commands.items| }

  predicate SameMqtt(s: State, t: State) { t.mqtt == s.mqtt && |t.deliveries.items| == |s.deliveries.items| }

  predicate SameStorage(s: State, t: State) {
    && t.storage == s.storage && t.measurementClosed == s.measurementClosed && t.resultClosed == s.resultClosed
    && |t.measurements.items| == |s.measurements.items| && |t.results.items| == |s.results.items|
    && t.results.closed == s.results.closed
  }

  predicate SameCoordinator(s: State, t: State) { t.coordinator == s.coordinator && t.stop }

  lemma SameIsDown(s: State, t: State)
    requires Stopping(s)
    requires SameSource(s, t) && SameCommand(s, t) && SameMqtt(s, t) && SameStorage(s, t) && SameCoordinator(s, t)
    ensures Down(s, t, false)
  {
    hide SourceWork, CommandWork, MqttWork, StorageWork, Turn, Stage;
  }

  // ---------------------------------------------------------------- source

  lemma SourceDescends(s: State, t: State)
    requires Stopping(s) && SameCommand(s, t) && SameMqtt(s, t) && SameStorage(s, t) && SameCoordinator(s, t)
    requires SourceWork(t.source) < SourceWork(s.source)
    ensures Down(s, t, true)
  {
    hide SourceWork, CommandWork, MqttWork, StorageWork, Turn, Stage;
  }

  lemma SourceLoopDown(s: State)
    requires Control(s) && Stopping(s)
    ensures Down(s, SourceLoop(s), s.source == SourceIdle)
  {
    if s.source == SourceIdle {
      assert s.stop;
      hide Control, Stage, Rank, Down, Stopping, Helper;
      SourceDescends(s, SourceLoop(s));
    } else {
      SameIsDown(s, s);
    }
  }

  lemma CollectNothingDown(s: State)
    requires Control(s) && Stopping(s)
    ensures Down(s, CollectNothing(s), s.source == SourceReading)
  {
    if s.source == SourceReading {
      assert s.stop;
      hide Control, Stage, Rank, Down, Stopping, Helper;
      SourceDescends(s, CollectNothing(s));
    } else {
      SameIsDown(s, s);
    }
  }

  lemma CollectDown(s: State, m: Measurement)
    requires Control(s) && Stopping(s)
    ensures Down(s, Collect(s, m), s.source == SourceReading)
  {
    if s.source == SourceReading {
      assert s.stop;
      hide Control, Stage, Rank, Down, Stopping, Helper;
      SourceDescends(s, Collect(s, m));
    } else {
      SameIsDown(s, s);
    }
  }

  lemma PushMeasurementDown(s: State, timedOut: bool)
    requires Control(s) && Stopping(s)
    ensures Down(s, PushMeasurement(s, timedOut), Holds(s.source))
  {
    if Holds(s.source) {
      assert s.stop && s.measurements.closed;
      hide Control, Stage, Rank, Down, Stopping, Helper;
      SourceDescends(s, PushMeasurement(s, timedOut));
    } else {
      SameIsDown(s, s);
    }
  }

  lemma SourceFailsDown(s: State)
    requires Control(s) && Stopping(s)
    ensures Down(s, SourceFails(s), !s.source.SourceDone?)
  {
    if !s.source.SourceDone? {
      hide Control, Stage, Rank, Down, Stopping, Helper;
      SourceDescends(s, SourceFails(s));
    } else {
      SameIsDown(s, s);
    }
  }

  // ---------------------------------------------------------------- commands

  lemma CommandDescends(s: State, t: State)
    requires Stopping(s) && SameSource(s, t) && SameMqtt(s, t) && SameStorage(s, t) && SameCoordinator(s, t)
    requires CommandWork(t.command, |t.commands.items|) < CommandWork(s.command, |s.commands.items|)
    ensures Down(s, t, true)
  {
    hide SourceWork, CommandWork, MqttWork, StorageWork, Turn, Stage;
  }

  lemma PopCommandDown(s: State, timedOut: bool)
    requires Control(s) && Stopping(s)
    ensures Down(s, PopCommand(s, timedOut), PopsCommand(s))
  {
    if PopsCommand(s) {
      assert s.stop && s.commands.closed;
      hide Control, Stage, Rank, Down, Stopping, Helper;
      CommandDescends(s, PopCommand(s, timedOut));
    } else {
      SameIsDown(s, s);
    }
  }

  lemma DropCommandDown(s: State, fails: bool)
    requires Control(s) && Stopping(s)
    ensures Down(s, DropCommand(s, fails), s.command.CommandHolding?)
  {
    if s.command.CommandHolding? {
      assert s.stop;
      hide Control, Stage, Rank, Down, Stopping, Helper;
      CommandDescends(s, DropCommand(s, fails));
    } else {
      SameIsDown(s, s);
    }
  }

  lemma CommandBeginDown(s: State, answer: Pub.Accepted)
    requires Control(s) && Stopping(s)
    ensures Down(s, CommandBegin(s, answer), s.command.CommandHolding? && MayEnter(s.publisher, answer))
  {
    if s.command.CommandHolding? && MayEnter(s.publisher, answer) {
      assert s.stop;
      hide Control, Stage, Rank, Down, Stopping, Helper;
      CommandDescends(s, CommandBegin(s, answer));
    } else {
      SameIsDown(s, s);
    }
  }

  lemma CommandWakeDown(s: State, timedOut: bool, failed: bool)
    requires Control(s) && Stopping(s)
    ensures Down(s, CommandWake(s, timedOut, failed), s.command == CommandWaiting && Pub.Woken(s.publisher, timedOut, failed).Some?)
  {
    if s.command == CommandWaiting && Pub.Woken(s.publisher, timedOut, failed).Some? {
      assert s.stop;
      hide Control, Stage, Rank, Down, Stopping, Helper;
      CommandDescends(s, CommandWake(s, timedOut, failed));
    } else {
      SameIsDown(s, s);
    }
  }

  // ---------------------------------------------------------------- MQTT worker

  lemma MqttDescends(s: State, t: State)
    requires Stopping(s) && SameSource(s, t) && SameCommand(s, t) && SameCoordinator(s, t)
    requires 5 * MqttWork(t.mqtt, |t.deliveries.items|) + StoragePart(t) < 5 * MqttWork(s.mqtt, |s.deliveries.items|) + StoragePart(s)
    ensures Down(s, t, true)
  {
    hide SourceWork, CommandWork, MqttWork, StoragePart, Stage;
  }

  lemma PopJobDown(s: State, fails: bool)
    requires Control(s) && Stopping(s)
    ensures Down(s, PopJob(s, fails), s.mqtt == MqttIdle)
  {
    if s.mqtt == MqttIdle {
      assert s.stop && s.deliveries.closed;
      hide Control, Stage, Rank, Down, Stopping, Helper;
      MqttDescends(s, PopJob(s, fails));
    } else {
      SameIsDown(s, s);
    }
  }

  lemma BuildPayloadDown(s: State, memory: bool)
    requires Control(s) && Stopping(s)
    ensures Down(s, BuildPayload(s, memory), s.mqtt.MqttHolding?)
  {
    if s.mqtt.MqttHolding? {
      assert s.stop;
      hide Control, Stage, Rank, Down, Stopping, Helper, Enrich;
      MqttDescends(s, BuildPayload(s, memory));
    } else {
      SameIsDown(s, s);
    }
  }

  lemma ReturnedDown(s: State, p: Pub.State, result: Pub.PublishResult)
    requires Control(s) && Stopping(s) && s.mqtt.MqttCalling?
    ensures Down(s, Returned(s.(publisher := p), s.mqtt.job, result, 0), true)
  {
    assert s.stop;
    hide Control, Stage, Rank, Down, Stopping, Helper;
    MqttDescends(s, Returned(s.(publisher := p), s.mqtt.job, result, 0));
  }

  lemma EnterDown(s: State, answer: Pub.Accepted)
    requires Control(s) && Stopping(s) && s.mqtt.MqttCalling? && MayEnter(s.publisher, answer)
    ensures Down(s, Enter(s, answer), true)
  {
    var (p, result) := Pub.Begin(s.publisher, Pub.Message(s.mqtt.job.item.topic, s.mqtt.payload), answer);
    if result.Some? {
      ReturnedDown(s, p, result.value);
    } else {
      assert s.stop;
      hide Control, Stage, Rank, Down, Stopping, Helper;
      MqttDescends(s, Enter(s, answer));
    }
  }

  lemma BeginPublishDown(s: State, clockOk: bool, answer: Pub.Accepted)
    requires Control(s) && Stopping(s)
    ensures Down(s, BeginPublish(s, clockOk, answer), s.mqtt.MqttCalling? && MayEnter(s.publisher, answer))
  {
    if s.mqtt.MqttCalling? && MayEnter(s.publisher, answer) {
      hide Control, Down, Stage, Returned, Enter, MayEnter;
      ReturnedDown(s, s.publisher, Pub.PublishInvalid);
      ReturnedDown(s, s.publisher, Pub.PublishLibraryError);
      EnterDown(s, answer);
      assert s.(publisher := s.publisher) == s;
    } else {
      SameIsDown(s, s);
    }
  }

  lemma WakePublishDown(s: State, timedOut: bool, failed: bool, clockOk: bool, nowMs: int)
    requires Control(s) && Stopping(s)
    ensures Down(s, WakePublish(s, timedOut, failed, clockOk, nowMs), s.mqtt.MqttWaiting? && Pub.Woken(s.publisher, timedOut, failed).Some?)
  {
    if s.mqtt.MqttWaiting? && Pub.Woken(s.publisher, timedOut, failed).Some? {
      assert s.stop;
      hide Control, Stage, Rank, Down, Stopping, Helper;
      MqttDescends(s, WakePublish(s, timedOut, failed, clockOk, nowMs));
    } else {
      SameIsDown(s, s);
    }
  }

  lemma PushReportDown(s: State, fails: bool)
    requires Control(s) && Stopping(s)
    ensures Down(s, PushReport(s, fails), s.mqtt.MqttReporting?)
  {
    if s.mqtt.MqttReporting? {
      assert s.stop && !s.results.closed && |s.results.items| == 0 && s.results.capacity == 1;
      hide Control, Stage, Rank, Down, Stopping, Helper;
      MqttDescends(s, PushReport(s, fails));
    } else {
      SameIsDown(s, s);
    }
  }

  lemma CloseResultsDown(s: State)
    requires Control(s) && Stopping(s)
    ensures Down(s, CloseResults(s), s.mqtt == MqttClosing)
  {
    if s.mqtt == MqttClosing {
      assert s.stop && !s.results.closed;
      hide Control, Stage, Rank, Down, Stopping, Helper;
      MqttDescends(s, CloseResults(s));
    } else {
      SameIsDown(s, s);
    }
  }

  // ---------------------------------------------------------------- storage

  lemma StorageDescends(s: State, t: State)
    requires Stopping(s) && SameSource(s, t) && SameCommand(s, t) && SameMqtt(s, t) && SameCoordinator(s, t)
    requires StoragePart(t) < StoragePart(s) || (StoragePart(t) == StoragePart(s) && s.mqtt != MqttExited)
    ensures Down(s, t, s.mqtt == MqttExited)
  {
    hide SourceWork, CommandWork, MqttWork, StoragePart, Stage;
  }

  lemma PopResultDown(s: State)
    requires Control(s) && Stopping(s)
    ensures Down(s, PopResult(s), s.mqtt == MqttExited && s.storage == AtResult)
  {
    if s.storage == AtResult {
      assert s.stop && (s.results.closed <==> s.mqtt == MqttExited);
      assert s.resultClosed ==> |s.results.items| == 0;
      assert !s.measurementClosed || !s.resultClosed;
      hide Control, Stage, Rank, Down, Stopping, Helper;
      StorageDescends(s, PopResult(s));
    } else {
      SameIsDown(s, s);
    }
  }

  lemma StorageFailsDown(s: State)
    requires Control(s) && Stopping(s) && !s.storage.StorageExited?
    ensures Down(s, StorageFails(s), true)
  {
    hide Control, Stage, SourceWork, CommandWork, MqttWork;
  }

  lemma StorageBreaksDown(s: State)
    requires Control(s) && Stopping(s)
    ensures Down(s, StorageBreaks(s), s.storage == AtResult || PopsMeasurement(s))
  {
    if s.storage == AtResult || PopsMeasurement(s) {
      StorageFailsDown(s);
    } else {
      SameIsDown(s, s);
    }
  }

  lemma AppliedDown(s: State, codes: seq<Store.SqlCode>, fails: bool)
    requires Control(s) && Stopping(s) && s.storage.Applying?
    ensures Down(s, Applied(s, codes, fails), true)
  {
    hide Control, Stage, SourceWork, CommandWork, MqttWork, Store.After;
  }

  lemma ApplyReportDown(s: State, codes: seq<Store.SqlCode>, clockOk: bool)
    requires Control(s) && Stopping(s)
    ensures Down(s, ApplyReport(s, codes, clockOk), s.storage.Applying?)
  {
    hide Control, Down, Applied, StorageFails, Store.AllOk, HasRow;
    if s.storage.Applying? {
      StorageFailsDown(s);
      AppliedDown(s, codes, s.storage.report.result != Pub.PublishOk && !clockOk);
    } else {
      SameIsDown(s, s);
    }
  }

  /** The timeout of a wait that began before the close lowers the measure too: such a wait cannot begin
      again. */
  lemma PopMeasurementDown(s: State, timedOut: bool)
    requires Control(s) && Stopping(s)
    ensures Down(s, PopMeasurement(s, timedOut), s.mqtt == MqttExited && PopsMeasurement(s))
  {
    if PopsMeasurement(s) {
      assert s.stop && (s.results.closed <==> s.mqtt == MqttExited);
      assert s.measurements.closed && (s.storage == AwaitingMeasurement ==> !s.measurementClosed);
      hide Control, Stage, Rank, Down, Stopping, Helper;
      if s.measurementClosed || (s.storage == AwaitingMeasurement && timedOut) {
        StorageDescends(s, s.(storage := AtSchedule));
      } else if |s.measurements.items| > 0 {
        StorageDescends(s, TakeMeasurement(s));
      } else {
        StorageDescends(s, SeeMeasurementsClosed(s));
      }
    } else {
      SameIsDown(s, s);
    }
  }

  lemma SaveMeasurementDown(s: State, messageId: string, memory: bool, codes: seq<Store.SqlCode>)
    requires Control(s) && Stopping(s)
    ensures Down(s, SaveMeasurement(s, messageId, memory, codes), s.storage.Saving? && HexId(messageId))
  {
    hide Control, Stage, SourceWork, CommandWork, MqttWork, Store.SaveResult, Store.After, Topic, HexId, StorageFails;
    if s.storage.Saving? && HexId(messageId) {
      StorageFailsDown(s);
    } else {
      SameIsDown(s, s);
    }
  }

  lemma DecideDown(s: State, due: bool, clockOk: bool)
    requires Control(s) && Stopping(s)
    ensures Down(s, DecideSchedule(s, due, clockOk), s.mqtt == MqttExited && s.storage == AtSchedule)
  {
    if s.storage == AtSchedule {
      assert s.stop && (s.results.closed <==> s.mqtt == MqttExited);
      hide Control, Stage, Rank, Down, Stopping, Helper;
      StorageDescends(s, DecideSchedule(s, due, clockOk));
    } else {
      SameIsDown(s, s);
    }
  }

  lemma ScheduledDown(s: State, job: Job)
    requires Control(s) && Stopping(s) && s.storage == Scheduling
    ensures Down(s, NextTurn(s), s.mqtt == MqttExited)
    ensures Down(s, s.(storage := Handing(job), nextHandle := s.nextHandle + 1), s.mqtt == MqttExited)
  {
    assert s.results.closed <==> s.mqtt == MqttExited;
    hide Control, Stage, SourceWork, CommandWork, MqttWork;
  }

  lemma ReadPendingDown(s: State, memory: bool, codes: seq<Store.SqlCode>)
    requires Control(s) && Stopping(s)
    ensures Down(s, ReadPending(s, memory, codes), s.mqtt == MqttExited && s.storage == Scheduling)
  {
    var t := ReadPending(s, memory, codes);
    if s.storage == Scheduling {
      hide Control, Stage, Rank, Helper, Store.AllOk, FirstPending, StorageFails, NextTurn, ItemOf;
      StorageFailsDown(s);
      ScheduledDown(s, if t.storage.Handing? then t.storage.job else Job(Store.Item(0, 0, 0, "", "", []), 0));
    } else {
      SameIsDown(s, s);
    }
  }

  lemma HandOverDown(s: State)
    requires Control(s) && Stopping(s)
    ensures Down(s, HandOver(s), s.mqtt == MqttExited && s.storage.Handing?)
  {
    if s.storage.Handing? {
      assert s.stop && (s.results.closed <==> s.mqtt == MqttExited);
      assert s.deliveries.closed;
      hide Control, Stage, Rank, Down, Stopping, Helper;
      StorageDescends(s, HandOver(s));
    } else {
      SameIsDown(s, s);
    }
  }

  // ---------------------------------------------------------------- the rest

  lemma CoordinateDown(s: State)
    requires Control(s) && Stopping(s)
    ensures Down(s, Coordinate(s), Coordinate(s).coordinator != s.coordinator)
  {
    hide SourceWork, CommandWork, StorageWork, Turn, TokensOk;
  }

  lemma StoreIntervalDown(s: State, ms: int, codes: seq<Store.SqlCode>)
    requires Stopping(s)
    ensures Down(s, StoreInterval(s, ms, codes), false)
  {
    assert s.stop;
    hide Stage, Rank, Down, Stopping, Helper, Store.After;
    SameIsDown(s, StoreInterval(s, ms, codes));
  }

  lemma OutsideDown(s: State, a: Action)
    requires Control(s) && Stopping(s) && !a.ACrash?
    ensures Down(s, DoOutside(s, a), false)
  {
    assert s.stop && s.commands.closed;
    hide Control, Stage, Rank, Down, Stopping, Helper, Pub.Handle, StopKept;
    SameIsDown(s, DoOutside(s, a));
  }

  lemma SourceStep(s: State, a: Action)
    requires Control(s) && Stopping(s) && ThreadOf(a) == SourceThread
    ensures Down(s, DoSource(s, a), Real(s, a))
  {
    hide Control, Down, Stopping, SourceLoop, CollectNothing, Collect, PushMeasurement, SourceFails, StopKept;
    match a {
      case ASourceLoop => SourceLoopDown(s);
      case ACollectNothing => CollectNothingDown(s);
      case ACollect(m) => CollectDown(s, m);
      case APushMeasurement(timedOut) => PushMeasurementDown(s, timedOut);
      case ASourceFails => SourceFailsDown(s);
    }
  }

  lemma CommandStep(s: State, a: Action)
    requires Control(s) && Stopping(s) && ThreadOf(a) == CommandThread
    ensures Down(s, DoCommand(s, a), Real(s, a))
  {
    hide Control, Down, Stopping, PopCommand, DropCommand, CommandBegin, CommandWake, StopKept;
    match a {
      case APopCommand(timedOut) => PopCommandDown(s, timedOut);
      case ADropCommand(fails) => DropCommandDown(s, fails);
      case ACommandBegin(answer) => CommandBeginDown(s, answer);
      case ACommandWake(timedOut, failed) => CommandWakeDown(s, timedOut, failed);
    }
  }

  lemma MqttStep(s: State, a: Action)
    requires Control(s) && Stopping(s) && ThreadOf(a) == MqttThread
    ensures Down(s, DoMqtt(s, a), Real(s, a))
  {
    hide Control, Down, Stopping, PopJob, BuildPayload, BeginPublish, WakePublish, PushReport, CloseResults, StopKept;
    match a {
      case APopJob(fails) => PopJobDown(s, fails);
      case ABuildPayload(memory) => BuildPayloadDown(s, memory);
      case ABeginPublish(clockOk, answer) => BeginPublishDown(s, clockOk, answer);
      case AWakePublish(timedOut, failed, clockOk, nowMs) => WakePublishDown(s, timedOut, failed, clockOk, nowMs);
      case APushReport(fails) => PushReportDown(s, fails);
      case ACloseResults => CloseResultsDown(s);
    }
  }

  lemma StorageStep(s: State, a: Action)
    requires Control(s) && Stopping(s) && ThreadOf(a) == StorageThread
    ensures Down(s, DoStorage(s, a), s.mqtt == MqttExited && Real(s, a))
  {
    hide Control, Rank, Helper, Stopping, PopResult, StorageBreaks, StoreInterval, ApplyReport, PopMeasurement, SaveMeasurement, DecideSchedule;
    hide ReadPending, HandOver, StopKept;
    match a {
      case APopResult => PopResultDown(s);
      case AStorageBreaks => StorageBreaksDown(s);
      case AStoreInterval(ms, codes) => StoreIntervalDown(s, ms, codes);
      case AApplyReport(codes, clockOk) => ApplyReportDown(s, codes, clockOk);
      case APopMeasurement(timedOut) => PopMeasurementDown(s, timedOut);
      case ASave(messageId, memory, codes) => SaveMeasurementDown(s, messageId, memory, codes);
      case ADecide(due, clockOk) => DecideDown(s, due, clockOk);
      case AReadPending(memory, codes) => ReadPendingDown(s, memory, codes);
      case AHandOver => HandOverDown(s);
    }
  }

  /** After the queues were closed no step of any thread makes the measure grow; a step that leaves it
      alone leaves the helper alone; and a real step of the helper makes it smaller. */
  lemma StepDown(s: State, a: Action)
    requires Inv(s) && Stopping(s) && !a.ACrash?
    ensures Down(s, Do(s, a), Advances(s, a))
  {
    assert Control(s);
    hide Inv, Control, DoSource, DoStorage, DoMqtt, DoCommand, DoOutside, Coordinate, Real, Stopping, Rank, Down, Helper;
    hide ThreadOf, StopKept;
    match ThreadOf(a) {
      case SourceThread =>
        SourceStep(s, a);
        Weaken(s, DoSource(s, a), Real(s, a), Advances(s, a));
      case CommandThread =>
        CommandStep(s, a);
        Weaken(s, DoCommand(s, a), Real(s, a), Advances(s, a));
      case MqttThread =>
        MqttStep(s, a);
        Weaken(s, DoMqtt(s, a), Real(s, a), Advances(s, a));
      case StorageThread =>
        StorageStep(s, a);
        StorageHelps(s);
        Weaken(s, DoStorage(s, a), s.mqtt == MqttExited && Real(s, a), Advances(s, a));
      case CoordinatorThread =>
        OnlyCoordinate(a);
        CoordinatorStep(s);
        Weaken(s, Coordinate(s), Real(s, a), Advances(s, a));
      case Outside =>
        OutsideDown(s, a);
        OutsideNeverHelps(s);
        Weaken(s, DoOutside(s, a), false, Advances(s, a));
    }
  }

  lemma Weaken(s: State, t: State, strict: bool, weak: bool)
    requires Down(s, t, strict) && (weak ==> strict)
    ensures Down(s, t, weak)
  {}

  lemma StorageHelps(s: State)
    ensures Helper(s) == StorageThread ==> s.mqtt == MqttExited
  {}

  lemma OutsideNeverHelps(s: State)
    ensures Helper(s) != Outside
  {}

  lemma OnlyCoordinate(a: Action)
    requires ThreadOf(a) == CoordinatorThread
    ensures a == ACoordinate
  {}

  lemma CoordinatorStep(s: State)
    requires Control(s) && Stopping(s)
    ensures Down(s, Coordinate(s), Real(s, ACoordinate))
  {
    hide Control, Down, Stopping, Coordinate;
    CoordinateDown(s);
  }

  // ---------------------------------------------------------------- no deadlock, and an end

  /** Some step of the helper is always possible, whatever the network does. */
  lemma NeverStuck(s: State) returns (a: Action)
    requires Inv(s) && Stopping(s) && s.coordinator != Drained
    ensures !a.ACrash? && Advances(s, a) && Rank(Do(s, a)) < Rank(s)
  {
    a := NextOf(s);
    StepDown(s, a);
    hide Rank, Inv, Stopping, Do;
  }

  const SOME_ID := "00000000000000000000000000000000"

  lemma SourceNext(s: State) returns (a: Action)
    requires !s.source.SourceDone?
    ensures ThreadOf(a) == SourceThread && Real(s, a)
  {
    match s.source {
      case SourceIdle => a := ASourceLoop;
      case SourceReading => a := ACollectNothing;
      case SourceHolding(_) => a := APushMeasurement(false);
      case SourceBlocked(_) => a := APushMeasurement(true);
    }
  }

  lemma CommandNext(s: State) returns (a: Action)
    requires s.command != CommandExited
    ensures ThreadOf(a) == CommandThread && Real(s, a)
  {
    match s.command {
      case CommandIdle => a := APopCommand(false);
      case CommandAwaiting => a := APopCommand(true);
      case CommandHolding(_) => a := ADropCommand(false);
      case CommandWaiting => a := ACommandWake(true, false);
    }
  }

  lemma MqttNext(s: State) returns (a: Action)
    requires s.mqtt != MqttExited && (s.mqtt.MqttCalling? ==> s.publisher.waiting.None?)
    ensures ThreadOf(a) == MqttThread && Real(s, a)
  {
    match s.mqtt {
      case MqttIdle => a := APopJob(false);
      case MqttHolding(_) => a := ABuildPayload(true);
      case MqttCalling(_, _) => a := ABeginPublish(true, Pub.Refused);
      case MqttWaiting(_) => a := AWakePublish(true, false, true, 0);
      case MqttReporting(_) => a := APushReport(false);
      case MqttClosing => a := ACloseResults;
    }
  }

  lemma StorageNext(s: State) returns (a: Action)
    requires !s.storage.StorageExited?
    ensures ThreadOf(a) == StorageThread && Real(s, a)
  {
    match s.storage {
      case AtResult => a := APopResult;
      case Applying(_) => a := AApplyReport([], true);
      case AtMeasurement => a := APopMeasurement(false);
      case AwaitingMeasurement => a := APopMeasurement(true);
      case Saving(_) => a := ASave(SOME_ID, true, []);
      case AtSchedule => a := ADecide(true, true);
      case Scheduling => a := AReadPending(true, []);
      case Handing(_) => a := AHandOver;
    }
  }

  lemma CoordinatorNext(s: State)
    requires Inv(s) && Stopping(s) && s.coordinator != Drained && Helper(s) == CoordinatorThread
    ensures Real(s, ACoordinate)
  {}

  lemma PublisherFree(s: State)
    requires Inv(s) && Helper(s) == MqttThread && s.mqtt.MqttCalling?
    ensures s.publisher.waiting.None?
  {}

  lemma NextOf(s: State) returns (a: Action)
    requires Inv(s) && Stopping(s) && s.coordinator != Drained
    ensures !a.ACrash? && Advances(s, a)
  {
    hide Inv, Stopping, Real;
    if Helper(s) == MqttThread && s.mqtt.MqttCalling? { PublisherFree(s); }
    match Helper(s) {
      case SourceThread => a := SourceNext(s);
      case CommandThread => a := CommandNext(s);
      case MqttThread => a := MqttNext(s);
      case StorageThread => a := StorageNext(s);
      case CoordinatorThread => a := ACoordinate; CoordinatorNext(s);
    }
  }

  /** The thread has something to do now: it is not blocked and not over. */
  ghost predicate Able(s: State, thread: Thread) { exists a :: ThreadOf(a) == thread && Real(s, a) }

  /** Thread by thread: one that is able to step when the round begins makes a real step in the round, or is
      found unable at some point of it. */
  ghost predicate Fair(s: State, round: seq<Action>) {
    forall thread | Able(s, thread) ::
      exists i :: 0 <= i < |round| && GetsItsTurn(Run(s, round[..i]), round[i], thread)
  }

  ghost predicate GetsItsTurn(s: State, a: Action, thread: Thread) {
    (ThreadOf(a) == thread && Real(s, a)) || !Able(s, thread)
  }

  /** Along any run the measure does not grow; while it stays the helper stays. */
  lemma {:induction false} RunDown(s: State, actions: seq<Action>)
    requires Inv(s) && Stopping(s) && CrashFree(actions)
    ensures var t := Run(s, actions);
            && Inv(t) && Stopping(t) && Rank(t) <= Rank(s) && (s.coordinator == Drained ==> t.coordinator == Drained)
            && (Rank(t) == Rank(s) ==> Helper(t) == Helper(s))
    decreases |actions|
  {
    hide Inv, Stopping, Rank, Do, Helper, Advances;
    if actions != [] {
      StepDown(s, actions[0]);
      StepKeeps(s, actions[0]);
      RunDown(Do(s, actions[0]), actions[1..]);
    }
  }

  lemma HelperIsAble(s: State)
    requires Inv(s) && Stopping(s) && s.coordinator != Drained
    ensures Able(s, Helper(s))
  {
    hide Inv, Stopping, Real;
    var a := NextOf(s);
  }

  /** A round that is fair to all threads lowers the measure: the thread that is the helper when the round
      begins stays able until the measure drops, so it gets its step. */
  lemma RoundDescends(s: State, round: seq<Action>)
    requires Inv(s) && Stopping(s) && s.coordinator != Drained && CrashFree(round) && Fair(s, round)
    ensures Rank(Run(s, round)) < Rank(s) || Run(s, round).coordinator == Drained
  {
    hide Inv, Stopping, Rank, Do, Run, Helper, Able, Real, ThreadOf;
    var thread := Helper(s);
    HelperIsAble(s);
    var i :| 0 <= i < |round| && GetsItsTurn(Run(s, round[..i]), round[i], thread);
    var t := Run(s, round[..i]);
    RunDown(s, round[..i]);
    StepDown(t, round[i]);
    StepKeeps(t, round[i]);
    RunDown(Do(t, round[i]), round[i + 1..]);
    if t.coordinator != Drained { HelperIsAble(t); }
    RunAround(s, round, i);
  }

  lemma RunAround(s: State, round: seq<Action>, i: nat)
    requires i < |round|
    ensures Run(s, round) == Run(Do(Run(s, round[..i]), round[i]), round[i + 1..])
  {
    hide Do;
    assert round == round[..i] + round[i..] && round[i..][0] == round[i] && round[i..][1..] == round[i + 1..];
    RunSplits(s, round[..i], round[i..]);
  }

  function RunRounds(s: State, rounds: seq<seq<Action>>): State
    decreases |rounds|
  {
    if rounds == [] then s else RunRounds(Run(s, rounds[0]), rounds[1..])
  }

  /** Every round is fair, unless everything is over. */
  ghost predicate FairRounds(s: State, rounds: seq<seq<Action>>)
    decreases |rounds|
  {
    rounds != [] ==>
      CrashFree(rounds[0]) && (s.coordinator == Drained || Fair(s, rounds[0])) && FairRounds(Run(s, rounds[0]), rounds[1..])
  }

  /** Stopping ends: as many fair rounds as the measure counts, under any interleaving of all threads, any
      failures and any behaviour of the network, bring the coordinator to its end. */
  lemma {:induction false} ShutdownEnds(s: State, rounds: seq<seq<Action>>)
    requires Inv(s) && Stopping(s) && FairRounds(s, rounds) && |rounds| > Rank(s)
    ensures RunRounds(s, rounds).coordinator == Drained
    decreases |rounds|
  {
    hide Inv, Stopping, Rank, Fair, Run;
    var t := Run(s, rounds[0]);
    RunDown(s, rounds[0]);
    if s.coordinator != Drained { RoundDescends(s, rounds[0]); }
    if t.coordinator == Drained {
      StaysDrained(t, rounds[1..]);
    } else {
      ShutdownEnds(t, rounds[1..]);
    }
  }

  lemma {:induction false} StaysDrained(s: State, rounds: seq<seq<Action>>)
    requires Inv(s) && Stopping(s) && s.coordinator == Drained && FairRounds(s, rounds)
    ensures RunRounds(s, rounds).coordinator == Drained
    decreases |rounds|
  {
    hide Inv, Stopping, Run;
    if rounds != [] {
      RunDown(s, rounds[0]);
      StaysDrained(Run(s, rounds[0]), rounds[1..]);
    }
  }

  // ---------------------------------------------------------------- from the signal to the closed queues

  function CoordinatorSteps(actions: seq<Action>): nat
    decreases |actions|
  {
    if actions == [] then 0 else (if actions[0].ACoordinate? then 1 else 0) + CoordinatorSteps(actions[1..])
  }

  lemma StageStep(s: State, a: Action)
    requires s.stop && !a.ACrash?
    ensures var t := Do(s, a);
            && t.stop && Stage(s.coordinator) <= Stage(t.coordinator)
            && (a.ACoordinate? && Stage(s.coordinator) < 4 ==> Stage(t.coordinator) == Stage(s.coordinator) + 1)
  {
    hide DoSource, DoStorage, DoMqtt, DoCommand, DoOutside, Coordinate, Stage;
    if ThreadOf(a) == CoordinatorThread {
      if Stage(s.coordinator) < 4 { CoordinateStage(s); } else { CoordinateLate(s); }
    }
  }

  lemma CoordinateStage(s: State)
    requires s.stop && Stage(s.coordinator) < 4
    ensures Coordinate(s).stop && Stage(Coordinate(s).coordinator) == Stage(s.coordinator) + 1
  {}

  lemma CoordinateLate(s: State)
    requires s.stop && Stage(s.coordinator) >= 4
    ensures Coordinate(s).stop && Stage(Coordinate(s).coordinator) >= Stage(s.coordinator)
  {
    if s.coordinator == MqttJoined {
      assert Coordinate(s) == CloseResultsAgain(s);
    } else if s.coordinator == StorageJoined {
      assert Coordinate(s) == Drain(s);
    } else if s.coordinator != Drained {
      hide CloseResultsAgain, Drain;
      assert Coordinate(s).stop && Stage(Coordinate(s).coordinator) >= Stage(s.coordinator);
    }
  }

  /** Once the stop flag is set, nothing can keep the coordinator from closing the queues: four of its own
      steps suffice, whatever the others do. */
  lemma {:induction false} StopClosesQueues(s: State, actions: seq<Action>)
    requires s.stop && CrashFree(actions) && Stage(s.coordinator) + CoordinatorSteps(actions) >= 4
    ensures Stopping(Run(s, actions))
    decreases |actions|
  {
    hide Do, Stage;
    if actions != [] {
      StageStep(s, actions[0]);
      StopClosesQueues(Do(s, actions[0]), actions[1..]);
    }
  }
}
