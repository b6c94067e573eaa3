/**
 A running pipeline is never in a dead end: from every reachable state without a stop, wherever its workers
 stand, some continuation delivers the first pending row, and some continuation stores what was accepted.

 First everything under way is brought to an end, one step at a time and by a measure; then the storage
 worker is where a delivery begins.
 */
module PipelineLiveness {
  import opened Common
  import opened Measurements
  import opened OutboxTables
  import Store = OutboxStore
  import Pub = Publisher
  import Q = BoundedQueue
  import opened Pipeline
  import opened PipelineInvariant
  import opened PipelineDurable
  import opened PipelineProgress

  /** Nobody asked to stop and both workers are up. */
  predicate Alive(s: State) { !s.stop && !s.storage.StorageExited? && !MqttGone(s) }

  /** Fresh message ids, as many as saves may be needed. */
  predicate FreshIds(t: Tables, ids: seq<string>) {
    && (forall i | 0 <= i < |ids| :: HexId(ids[i]) && MessageIdAdmitted(t, ids[i]))
    && (forall i, j | 0 <= i < j < |ids| :: ids[i] != ids[j])
  }

  /** The measurements the storage worker has still to save are valid; with an invalid one it gives up. */
  predicate Savable(s: State) {
    (s.storage.Saving? ==> Valid(s.storage.m)) && forall i | 0 <= i < |s.measurements.items| :: Valid(s.measurements.items[i])
  }

  /** A success is reported with a time after 1970; with another the storage worker gives up. */
  predicate ReportTimed(s: State) {
    LiveReport(s).Some? && LiveReport(s).value.result == Pub.PublishOk ==> LiveReport(s).value.sentAtMs > 0
  }

  ghost predicate Steady(s: State) { Inv(s) && Alive(s) && Savable(s) && ReportTimed(s) }

  ghost predicate Ready(s: State, ids: seq<string>) {
    Steady(s) && FreshIds(s.disk, ids) && |ids| >= SavesLeft(s)
  }

  /** How many measurements may have to be saved before the next delivery can begin. */
  function SavesLeft(s: State): nat {
    if s.storage == AtSchedule && !s.inflight then 0
    else if s.inflight && (s.storage.Saving? || s.storage == AtMeasurement) then 2
    else 1
  }

  // ---------------------------------------------------------------- the measure

  function MqttLeft(mqtt: Mqtt, queued: nat): nat {
    7 * queued +
    match mqtt
    case MqttHolding(_) => 6
    case MqttCalling(_, _) => 5
    case MqttWaiting(_) => 4
    case MqttReporting(_) => 3
    case _ => 0
  }

  function StorageLeft(storage: Storage, inflight: bool): nat {
    match storage
    case Scheduling => 200
    case Handing(_) => 190
    case Applying(_) => 11
    case AtResult => if inflight then 12 else 3
    case AtSchedule => if inflight then 13 else 0
    case Saving(_) => if inflight then 14 else 1
    case AwaitingMeasurement => if inflight then 14 else 1
    case AtMeasurement => if inflight then 15 else 2
    case StorageExited(_) => 0
  }

  function Left(s: State): nat {
    20 * MqttLeft(s.mqtt, |s.deliveries.items|) + (if s.command == CommandWaiting then 1 else 0)
    + 2 * StorageLeft(s.storage, s.inflight)
  }

  /** Nothing is under way and the storage worker may schedule. */
  predicate Idle(s: State) {
    s.mqtt == MqttIdle && |s.deliveries.items| == 0 && s.publisher.waiting.None? && s.storage == AtSchedule && !s.inflight
  }

  /** What a step towards rest does. */
  ghost predicate Closer(s: State, t: State) {
    && Left(t) < Left(s) && Alive(t) && Savable(t) && ReportTimed(t)
    && FirstPending(s.disk.outbox) <= FirstPending(t.disk.outbox) && |s.disk.outbox| <= |t.disk.outbox|
    && t.publisher.library == s.publisher.library && t.measurements.pushed == s.measurements.pushed
    && |t.measurements.items| <= |s.measurements.items| && t.base == s.base
  }

  /** A step that saves nothing takes no message id and needs no more of them. */
  predicate SameIds(s: State, t: State) {
    && SavesLeft(t) <= SavesLeft(s) && |t.disk.outbox| == |s.disk.outbox|
    && (forall i | 0 <= i < |s.disk.outbox| :: t.disk.outbox[i].messageId == s.disk.outbox[i].messageId)
  }

  // ---------------------------------------------------------------- steps of the MQTT worker

  predicate MqttBusy(s: State) { s.mqtt != MqttIdle || |s.deliveries.items| > 0 }

  lemma MqttEmptyAhead(s: State)
    requires Inv(s) && Alive(s)
    ensures !s.results.closed && s.results.capacity == 1 && (s.mqtt.MqttReporting? ==> |s.results.items| == 0)
    ensures MqttBusy(s) ==> !s.storage.Applying?
    ensures s.publisher.waiting.Some? ==> s.mqtt.MqttWaiting? || s.command == CommandWaiting
    ensures s.inflight ==> InFlight(s) == 1
    ensures !s.measurements.closed && !s.measurementClosed && !s.resultClosed && !s.deliveries.closed
  {
    hide Histories, HandlesOk, TokenMatches, LedgerOk, Durable, Pub.Sound;
  }

  lemma TakesItsJob(s: State)
    requires Steady(s) && s.mqtt == MqttIdle && |s.deliveries.items| > 0
    ensures Closer(s, PopJob(s, false)) && SameIds(s, PopJob(s, false))
  {
    MqttEmptyAhead(s);
    hide Inv, FirstPending;
  }

  lemma BuildsPayload(s: State)
    requires Steady(s) && s.mqtt.MqttHolding?
    ensures Closer(s, BuildPayload(s, true)) && SameIds(s, BuildPayload(s, true))
  {
    JobIsSendable(s);
    MqttEmptyAhead(s);
    hide Inv, FirstPending, Enrich;
  }

  lemma RefusesCall(s: State)
    requires Steady(s) && s.mqtt.MqttCalling? && s.publisher.waiting.None?
    ensures Closer(s, BeginPublish(s, false, Pub.Refused)) && SameIds(s, BeginPublish(s, false, Pub.Refused))
  {
    MqttEmptyAhead(s);
    hide Inv, FirstPending, Enter;
  }

  lemma TimesOut(s: State)
    requires Steady(s) && s.mqtt.MqttWaiting?
    ensures Closer(s, WakePublish(s, true, false, true, 0)) && SameIds(s, WakePublish(s, true, false, true, 0))
  {
    MqttEmptyAhead(s);
    hide Inv, FirstPending;
  }

  lemma HandsReportBack(s: State)
    requires Steady(s) && s.mqtt.MqttReporting?
    ensures Closer(s, PushReport(s, false)) && SameIds(s, PushReport(s, false))
  {
    MqttEmptyAhead(s);
    assert Q.Put(s.results, s.mqtt.report).items[0] == s.mqtt.report;
    hide Inv, FirstPending;
  }

  lemma CommandTimesOut(s: State)
    requires Steady(s) && s.command == CommandWaiting
    ensures Closer(s, CommandWake(s, true, false)) && SameIds(s, CommandWake(s, true, false))
  {
    hide Inv, FirstPending;
  }

  // ---------------------------------------------------------------- steps of the storage worker

  lemma LooksForReport(s: State)
    requires Steady(s) && s.storage == AtResult && !MqttBusy(s)
    ensures Closer(s, PopResult(s)) && SameIds(s, PopResult(s))
  {
    MqttEmptyAhead(s);
    hide Inv, FirstPending;
  }

  lemma TakesMeasurement(s: State)
    requires Alive(s) && Savable(s) && ReportTimed(s) && s.storage == AtMeasurement && |s.measurements.items| > 0
    ensures Closer(s, TakeMeasurement(s)) && SameIds(s, TakeMeasurement(s))
  {
    hide FirstPending;
  }

  lemma WaitsForMeasurement(s: State)
    requires Alive(s) && Savable(s) && ReportTimed(s) && s.storage == AtMeasurement
    ensures var t := s.(storage := AwaitingMeasurement); Closer(s, t) && SameIds(s, t)
  {
    hide FirstPending;
  }

  lemma LooksForMeasurement(s: State)
    requires Steady(s) && s.storage == AtMeasurement
    ensures Closer(s, PopMeasurement(s, false)) && SameIds(s, PopMeasurement(s, false))
  {
    MqttEmptyAhead(s);
    hide Inv, Closer, SameIds, TakeMeasurement, Savable, ReportTimed, Alive;
    if |s.measurements.items| > 0 { TakesMeasurement(s); } else { WaitsForMeasurement(s); }
  }

  lemma StopsWaiting(s: State)
    requires Steady(s) && s.storage == AwaitingMeasurement
    ensures Closer(s, PopMeasurement(s, true)) && SameIds(s, PopMeasurement(s, true))
  {
    hide Inv, FirstPending;
  }

  lemma TurnsAround(s: State)
    requires Steady(s) && s.storage == AtSchedule && s.inflight
    ensures Closer(s, DecideSchedule(s, true, true)) && SameIds(s, DecideSchedule(s, true, true))
  {
    MqttEmptyAhead(s);
    hide Inv, FirstPending;
  }

  lemma ReadsRow(s: State)
    requires Steady(s) && s.storage == Scheduling
    ensures Closer(s, ReadPending(s, true, [])) && SameIds(s, ReadPending(s, true, []))
  {
    MqttEmptyAhead(s);
    RowsPaired(s);
    assert Store.AllOk([], 2);
    hide Inv, FirstPending, ItemOf;
  }

  lemma HandsOver(s: State)
    requires Steady(s) && s.storage.Handing?
    ensures Closer(s, HandOver(s)) && SameIds(s, HandOver(s))
  {
    MqttEmptyAhead(s);
    assert InFlight(s) == 0 && s.deliveries.capacity == 1;
    hide Inv, FirstPending;
  }

  predicate SameMessageIds(t: Tables, u: Tables) {
    |u.outbox| == |t.outbox| && forall i | 0 <= i < |t.outbox| :: u.outbox[i].messageId == t.outbox[i].messageId
  }

  /** The report is gone and the frontier did not move back. */
  lemma ReportStepCloser(s: State, u: Tables, applied: seq<Report>)
    requires Alive(s) && Savable(s) && s.storage.Applying? && s.inflight && InFlight(s) == 1
    requires FirstPending(s.disk.outbox) <= FirstPending(u.outbox) && SameMessageIds(s.disk, u)
    ensures var t := s.(storage := AtMeasurement, inflight := false, applied := applied, disk := u); Closer(s, t) && SameIds(s, t)
  {
    hide FirstPending;
  }

  lemma UpdateKeepsIds(t: Tables, id: int, atMs: int, text: string)
    ensures SameMessageIds(t, MarkSent(t, id, atMs)) && SameMessageIds(t, RecordFailure(t, id, text))
  {}

  lemma AppliesItsReport(s: State)
    requires Steady(s) && s.storage.Applying?
    ensures Closer(s, ApplyReport(s, [], true)) && SameIds(s, ApplyReport(s, [], true))
  {
    var r, k := s.storage.report, FirstPending(s.disk.outbox);
    ReportIsAboutHead(s);
    assert InFlight(s) == 1 && s.inflight;
    UpdateKeepsIds(s.disk, r.id, r.sentAtMs, FailureText(r.result));
    MarkHead(s.disk, r.sentAtMs);
    FailHead(s.disk, FailureText(r.result));
    hide Inv, DiskOk, ApplyReport, FailureText, FirstPending, MarkSent, RecordFailure, SameMessageIds, Closer, SameIds;
    if r.result == Pub.PublishOk {
      Applies(s, r, k);
      ReportStepCloser(s, MarkSent(s.disk, r.id, r.sentAtMs), s.applied + [r]);
    } else {
      AppliesFailure(s, r, k);
      ReportStepCloser(s, RecordFailure(s.disk, r.id, FailureText(r.result)), s.applied + [r]);
    }
  }

  lemma SaveStepCloser(s: State, u: Tables, saved: seq<Measurement>)
    requires Alive(s) && Savable(s) && ReportTimed(s) && s.storage.Saving?
    requires FirstPending(s.disk.outbox) == FirstPending(u.outbox) && |s.disk.outbox| <= |u.outbox|
    ensures var t := s.(disk := u, storage := AtSchedule, saved := saved); Closer(s, t) && SavesLeft(t) < SavesLeft(s)
  {
    hide FirstPending;
  }

  lemma SavesItsMeasurement(s: State, id: string)
    requires Steady(s) && s.storage.Saving? && HexId(id) && MessageIdAdmitted(s.disk, id)
    ensures var t := SaveMeasurement(s, id, true, []);
            && Closer(s, t) && SavesLeft(t) < SavesLeft(s)
            && t.disk == Save(s.disk, ToJson(s.storage.m), Topic(s.storage.m), id)
            && t == s.(disk := t.disk, storage := AtSchedule, saved := s.saved + [s.storage.m])
  {
    var m := s.storage.m;
    SaveSucceeds(s, id);
    assert DiskOk(s.disk);
    SaveTail(s.disk, m, id);
    hide Inv, DiskOk, SaveMeasurement, Save, FirstPending, Closer, SavesLeft, HexId, MessageIdAdmitted, Evolves;
    SaveStepCloser(s, Save(s.disk, ToJson(m), Topic(m), id), s.saved + [m]);
  }

  lemma SaveSucceeds(s: State, id: string)
    requires Inv(s) && s.storage.Saving? && Valid(s.storage.m) && HexId(id) && MessageIdAdmitted(s.disk, id)
    ensures var m := s.storage.m;
            SaveMeasurement(s, id, true, []) == s.(disk := Save(s.disk, ToJson(m), Topic(m), id), storage := AtSchedule,
                                                   saved := s.saved + [m])
  {
    var m := s.storage.m;
    assert Store.Sound(Connection(s.disk)) && |Topic(m)| > 0;
    hide Inv, Store.Sound, ToJson, HexId, MessageIdAdmitted, Save;
    var op := Store.SaveOp(m, true, Topic(m), id, []);
    assert Store.AllOk([], 9);
    Store.SaveIsAllOrNothing(Connection(s.disk), op);
  }

  // ---------------------------------------------------------------- all the way to rest

  lemma CommandFlushStep(s: State)
    requires Steady(s) && s.command == CommandWaiting
    ensures var t := Do(s, ACommandWake(true, false)); Closer(s, t) && SameIds(s, t)
  {
    hide Inv, Closer, SameIds, Savable, ReportTimed, CommandWake, StopKept, DoStorage, DoMqtt, DoSource, DoOutside, Coordinate;
    CommandTimesOut(s);
  }

  lemma MqttFlushStep(s: State) returns (a: Action)
    requires Steady(s) && MqttBusy(s) && (s.mqtt.MqttCalling? ==> s.publisher.waiting.None?)
    ensures ThreadOf(a) == MqttThread && Closer(s, DoMqtt(s, a)) && SameIds(s, DoMqtt(s, a))
  {
    hide Inv, Closer, SameIds, Savable, ReportTimed, PopJob, BuildPayload, BeginPublish, WakePublish, PushReport, StopKept;
    match s.mqtt {
      case MqttIdle => a := APopJob(false); TakesItsJob(s);
      case MqttHolding(_) => a := ABuildPayload(true); BuildsPayload(s);
      case MqttCalling(_, _) => a := ABeginPublish(false, Pub.Refused); RefusesCall(s);
      case MqttWaiting(_) => a := AWakePublish(true, false, true, 0); TimesOut(s);
      case MqttReporting(_) => a := APushReport(false); HandsReportBack(s);
    }
  }

  lemma StorageFlushStep(s: State) returns (a: Action)
    requires Steady(s) && !MqttBusy(s) && !s.storage.Saving? && (s.storage != AtSchedule || s.inflight)
    ensures ThreadOf(a) == StorageThread && Closer(s, DoStorage(s, a)) && SameIds(s, DoStorage(s, a))
  {
    hide Inv, Closer, SameIds, Savable, ReportTimed, PopResult, ApplyReport, PopMeasurement, DecideSchedule, ReadPending, HandOver;
    hide StopKept;
    match s.storage {
      case AtResult => a := APopResult; LooksForReport(s);
      case Applying(_) => a := AApplyReport([], true); AppliesItsReport(s);
      case AtMeasurement => a := APopMeasurement(false); LooksForMeasurement(s);
      case AwaitingMeasurement => a := APopMeasurement(true); StopsWaiting(s);
      case AtSchedule => a := ADecide(true, true); TurnsAround(s);
      case Scheduling => a := AReadPending(true, []); ReadsRow(s);
      case Handing(_) => a := AHandOver; HandsOver(s);
    }
  }

  lemma KeptIdsFresh(s: State, t: State, ids: seq<string>)
    requires FreshIds(s.disk, ids) && SameIds(s, t)
    ensures FreshIds(t.disk, ids)
  {
    hide HexId;
  }

  lemma UsedIdFresh(t: Tables, payload: Json, topic: string, ids: seq<string>)
    requires FreshIds(t, ids) && |ids| > 0
    ensures FreshIds(Save(t, payload, topic, ids[0]), ids[1..])
  {
    hide HexId;
    var u := Save(t, payload, topic, ids[0]);
    assert forall i | 0 <= i < |u.outbox| :: u.outbox[i].messageId == if i < |t.outbox| then t.outbox[i].messageId else ids[0];
  }

  lemma SaveFlushStep(s: State, ids: seq<string>)
    requires Ready(s, ids) && s.storage.Saving?
    ensures |ids| > 0
    ensures var t := DoStorage(s, ASave(ids[0], true, []));
            Closer(s, t) && FreshIds(t.disk, ids[1..]) && |ids[1..]| >= SavesLeft(t) && SavesLeft(t) < SavesLeft(s)
  {
    hide Inv, Closer, Savable, ReportTimed, FreshIds, SavesLeft, Save, SaveMeasurement, StopKept, Alive, ToJson, Topic;
    hide HexId, MessageIdAdmitted;
    FirstIdFresh(s, ids);
    SavesItsMeasurement(s, ids[0]);
    UsedIdFresh(s.disk, ToJson(s.storage.m), Topic(s.storage.m), ids);
  }

  lemma StillReady(s: State, a: Action, ids: seq<string>)
    requires Ready(s, ids) && Closer(s, Do(s, a)) && SameIds(s, Do(s, a))
    ensures Ready(Do(s, a), ids) && SavesLeft(Do(s, a)) <= SavesLeft(s)
  {
    hide Inv, Do, Closer, SameIds, Savable, ReportTimed, FreshIds, SavesLeft, Alive;
    StepKeeps(s, a);
    CloserIsSteady(s, Do(s, a));
    KeptIds(s, Do(s, a), ids);
  }

  lemma DoMqttStep(s: State, a: Action)
    requires ThreadOf(a) == MqttThread
    ensures Do(s, a) == DoMqtt(s, a) && !a.ACrash?
  {}

  lemma DoStorageStep(s: State, a: Action)
    requires ThreadOf(a) == StorageThread
    ensures Do(s, a) == DoStorage(s, a) && !a.ACrash?
  {}

  /** One step towards rest, with the message ids that remain. */
  lemma FlushStep(s: State, ids: seq<string>) returns (a: Action, rest: seq<string>)
    requires Ready(s, ids) && !Idle(s)
    ensures !a.ACrash? && Closer(s, Do(s, a)) && Ready(Do(s, a), rest)
    ensures |rest| + SavesLeft(s) >= |ids| + SavesLeft(Do(s, a))
  {
    PublisherIsFree(s);
    assert Idle(s) <==> !MqttBusy(s) && s.publisher.waiting.None? && s.storage == AtSchedule && !s.inflight;
    hide Inv, Closer, SameIds, Savable, ReportTimed, FreshIds, SavesLeft, Do, DoStorage, DoMqtt, ThreadOf, Alive, Idle, MqttBusy;
    a, rest := ACommandWake(true, false), ids;
    if s.command == CommandWaiting {
      CommandFlushStep(s);
      StillReady(s, a, ids);
    } else if MqttBusy(s) {
      a := MqttFlushStep(s);
      DoMqttStep(s, a);
      StillReady(s, a, ids);
    } else if s.storage.Saving? {
      SaveFlushStep(s, ids);
      a, rest := ASave(ids[0], true, []), ids[1..];
      SaveIsStorage(ids[0]);
      DoStorageStep(s, a);
      StepKeeps(s, a);
      CloserIsSteady(s, Do(s, a));
    } else {
      a := StorageFlushStep(s);
      DoStorageStep(s, a);
      StillReady(s, a, ids);
    }
  }

  lemma SaveIsStorage(id: string)
    ensures ThreadOf(ASave(id, true, [])) == StorageThread
  {}

  /** Once the command worker does not wait, only the MQTT worker can hold the publisher. */
  lemma PublisherIsFree(s: State)
    requires Inv(s)
    ensures s.command != CommandWaiting && !s.mqtt.MqttWaiting? ==> s.publisher.waiting.None?
    ensures !MqttBusy(s) ==> !s.mqtt.MqttWaiting?
  {
    hide Histories, HandlesOk, TokenMatches, LedgerOk, Durable, Pub.Sound;
  }

  lemma KeptIds(s: State, t: State, ids: seq<string>)
    requires FreshIds(s.disk, ids) && |ids| >= SavesLeft(s) && SameIds(s, t)
    ensures FreshIds(t.disk, ids) && |ids| >= SavesLeft(t) && SavesLeft(t) <= SavesLeft(s)
  {
    KeptIdsFresh(s, t, ids);
  }

  lemma FirstIdFresh(s: State, ids: seq<string>)
    requires FreshIds(s.disk, ids) && |ids| >= SavesLeft(s) && s.storage.Saving?
    ensures |ids| > 0 && HexId(ids[0]) && MessageIdAdmitted(s.disk, ids[0])
  {}

  lemma CloserIsSteady(s: State, t: State)
    requires Closer(s, t)
    ensures Alive(t) && Savable(t) && ReportTimed(t)
  {}

  /** What holds between the beginning and the end of any number of such steps. */
  ghost predicate Onward(s: State, t: State) {
    && FirstPending(s.disk.outbox) <= FirstPending(t.disk.outbox) && |s.disk.outbox| <= |t.disk.outbox|
    && t.publisher.library == s.publisher.library && t.measurements.pushed == s.measurements.pushed
    && |t.measurements.items| <= |s.measurements.items| && t.base == s.base
  }

  lemma CloserIsOnward(s: State, t: State, u: State)
    requires Closer(s, t) && Onward(t, u)
    ensures Onward(s, u) && Left(t) < Left(s)
  {
    hide Left, FirstPending, Savable, ReportTimed;
  }

  /** Everything under way comes to an end and the storage worker is ready to schedule. */
  lemma {:induction false} Flush(s: State, ids: seq<string>) returns (actions: seq<Action>, rest: seq<string>)
    requires Ready(s, ids)
    ensures CrashFree(actions) && Ready(Run(s, actions), rest) && Idle(Run(s, actions)) && Onward(s, Run(s, actions))
    ensures |rest| + SavesLeft(s) >= |ids|
    decreases Left(s)
  {
    hide Ready, Closer, Onward, Do, Left, SavesLeft, Idle, Run;
    if Idle(s) {
      actions, rest := [], ids;
      NothingToFlush(s);
    } else {
      var a, more := FlushStep(s, ids);
      LeftDrops(s, Do(s, a));
      var tail, last := Flush(Do(s, a), more);
      actions, rest := [a] + tail, last;
      RunOne(s, a, tail);
      CloserIsOnward(s, Do(s, a), Run(Do(s, a), tail));
    }
  }

  lemma NothingToFlush(s: State)
    ensures Run(s, []) == s && Onward(s, s)
  {}

  lemma LeftDrops(s: State, t: State)
    requires Closer(s, t)
    ensures Left(t) < Left(s)
  {}

  // ---------------------------------------------------------------- the first pending row

  lemma NetworkStep(s: State, e: Pub.Event)
    requires !e.StopRequested? && !e.StopDone?
    ensures Do(s, ANetwork(e)) == s.(publisher := Pub.Handle(s.publisher, e))
  {
    hide Pub.Handle, DoSource, DoStorage, DoMqtt, DoCommand, Coordinate, StopKept;
  }

  const RECONNECT := [ANetwork(Pub.ConnectResult(true))]

  function Reconnected(s: State): State { s.(publisher := s.publisher.(connection := Pub.Connected)) }

  lemma Reconnects(s: State, rest: seq<Action>)
    requires Inv(s) && Alive(s)
    ensures Run(s, RECONNECT + rest) == Run(Reconnected(s), rest) && Inv(Reconnected(s))
  {
    var a := ANetwork(Pub.ConnectResult(true));
    StopsOnTheWayOut(s);
    NetworkStep(s, Pub.ConnectResult(true));
    assert Do(s, a) == Reconnected(s);
    hide Do, Run, Inv, Reconnected;
    RunOne(s, a, rest);
    StepKeeps(s, a);
  }

  lemma IdleDelivers(s: State, mid: int, nowMs: int)
    requires Inv(s) && Alive(s) && Idle(s) && FirstPending(s.disk.outbox) < |s.disk.outbox|
    requires Pub.FreshId(s.publisher.library, mid) && nowMs > 0
    ensures FirstPending(Run(s, RECONNECT + DeliveryCycle(mid, nowMs)).disk.outbox) == FirstPending(s.disk.outbox) + 1
  {
    Reconnects(s, DeliveryCycle(mid, nowMs));
    var t := Reconnected(s);
    assert AtRest(t);
    hide Inv, Run, Pub.FreshId, FirstPending;
    CycleDelivers(t, mid, nowMs);
  }

  /** From every reachable state without a stop and with both workers up, wherever they stand and whatever is
      under way, some continuation without a crash marks the row that is the first pending one as sent. It
      needs valid measurements, a clock after 1970, two unused message ids and an unused packet id. */
  lemma RowGetsDelivered(s: State, ids: seq<string>, mid: int, nowMs: int) returns (actions: seq<Action>)
    requires Ready(s, ids) && Pub.FreshId(s.publisher.library, mid) && nowMs > 0
    requires FirstPending(s.disk.outbox) < |s.disk.outbox|
    ensures CrashFree(actions)
    ensures var k, t := FirstPending(s.disk.outbox), Run(s, actions); k < |t.disk.outbox| && t.disk.outbox[k].sent
  {
    hide Inv, Run, Idle, Alive, Savable, ReportTimed, FreshIds, SavesLeft, Pub.FreshId, DeliveryCycle;
    var k := FirstPending(s.disk.outbox);
    var flush, rest := Flush(s, ids);
    var t := Run(s, flush);
    actions := flush;
    if FirstPending(t.disk.outbox) == k {
      IdleDelivers(t, mid, nowMs);
      RunSplits(s, flush, RECONNECT + DeliveryCycle(mid, nowMs));
      CycleIsCrashFree(mid, nowMs);
      actions := flush + (RECONNECT + DeliveryCycle(mid, nowMs));
    }
  }

  lemma CycleIsCrashFree(mid: int, nowMs: int)
    ensures CrashFree(RECONNECT + DeliveryCycle(mid, nowMs))
  {}

  // ---------------------------------------------------------------- the queue of measurements

  /** The storage worker goes round with nothing to deliver and takes the oldest measurement. */
  function TakesOldest(s: State): State
    requires |s.measurements.items| > 0
  {
    s.(storage := Saving(s.measurements.items[0]), measurements := Q.Take(s.measurements))
  }

  lemma GoesRound(s: State)
    requires Inv(s) && Alive(s) && Idle(s) && |s.measurements.items| > 0
    ensures Do(Do(Do(s, ADecide(false, true)), APopResult), APopMeasurement(false)) == TakesOldest(s)
  {
    MqttEmptyAhead(s);
    assert InFlight(s) == 0;
    hide Inv, DoSource, DoMqtt, DoCommand, DoOutside, Coordinate, StopKept;
    var a := Do(s, ADecide(false, true));
    assert a == s.(storage := AtResult);
    var b := Do(a, APopResult);
    assert b == s.(storage := AtMeasurement);
  }

  function StoreOne(id: string): seq<Action> { [ADecide(false, true), APopResult, APopMeasurement(false), ASave(id, true, [])] }

  function StoredOne(s: State, id: string): State
    requires |s.measurements.items| > 0
  {
    var m := s.measurements.items[0];
    s.(disk := Save(s.disk, ToJson(m), Topic(m), id), measurements := Q.Take(s.measurements), saved := s.saved + [m])
  }

  lemma RoundKeeps(s: State)
    requires Inv(s) && Alive(s) && Idle(s) && |s.measurements.items| > 0
    ensures Inv(TakesOldest(s))
  {
    GoesRound(s);
    hide Inv, Do, TakesOldest;
    StepKeeps(s, ADecide(false, true));
    StepKeeps(Do(s, ADecide(false, true)), APopResult);
    StepKeeps(Do(Do(s, ADecide(false, true)), APopResult), APopMeasurement(false));
  }

  lemma SavesOldest(s: State, id: string)
    requires |s.measurements.items| > 0 && Inv(TakesOldest(s)) && Valid(s.measurements.items[0])
    requires s.storage == AtSchedule && HexId(id) && MessageIdAdmitted(s.disk, id)
    ensures DoStorage(TakesOldest(s), ASave(id, true, [])) == StoredOne(s, id)
  {
    SaveSucceeds(TakesOldest(s), id);
    hide Inv, SaveMeasurement, Save, StopKept;
  }

  lemma StoresOne(s: State, id: string, rest: seq<Action>)
    requires Steady(s) && Idle(s) && |s.measurements.items| > 0 && HexId(id) && MessageIdAdmitted(s.disk, id)
    ensures Run(s, StoreOne(id) + rest) == Run(StoredOne(s, id), rest) && Inv(StoredOne(s, id))
  {
    var a, b, c, d := ADecide(false, true), APopResult, APopMeasurement(false), ASave(id, true, []);
    hide Do, Run, Inv, StoredOne, TakesOldest, DoStorage;
    GoesRound(s);
    RoundKeeps(s);
    SavesOldest(s, id);
    var t := TakesOldest(s);
    SaveIsStorage(id);
    DoStorageStep(t, d);
    StepKeeps(t, d);
    assert StoreOne(id) + rest == [a, b, c] + ([d] + rest);
    RunThree(s, a, b, c, [d] + rest);
    RunOne(t, d, rest);
  }

  lemma StoredOneIsSteady(s: State, ids: seq<string>)
    requires Steady(s) && Idle(s) && |s.measurements.items| > 0 && FreshIds(s.disk, ids) && |ids| > 0
    ensures var t := StoredOne(s, ids[0]);
            && (Inv(t) ==> Steady(t)) && Idle(t) && FreshIds(t.disk, ids[1..])
            && |t.measurements.items| < |s.measurements.items| && t.measurements.pushed == s.measurements.pushed
            && t.base == s.base
  {
    UsedIdFresh(s.disk, ToJson(s.measurements.items[0]), Topic(s.measurements.items[0]), ids);
    hide Inv, FreshIds, Save, ToJson;
  }

  /** From a state at rest, the whole queue is stored in order. */
  lemma {:induction false} StoresAll(s: State, ids: seq<string>) returns (actions: seq<Action>)
    requires Steady(s) && Idle(s) && FreshIds(s.disk, ids) && |ids| >= |s.measurements.items|
    ensures CrashFree(actions)
    ensures var t := Run(s, actions);
            Inv(t) && Idle(t) && |t.measurements.items| == 0 && t.measurements.pushed == s.measurements.pushed && t.base == s.base
    decreases |s.measurements.items|
  {
    hide Inv, Idle, Alive, Savable, ReportTimed, FreshIds, StoredOne, Run, Onward;
    if |s.measurements.items| == 0 {
      actions := [];
      NothingToFlush(s);
    } else {
      FirstOfFresh(s.disk, ids);
      StoredOneIsSteady(s, ids);
      var t := StoredOne(s, ids[0]);
      StoresOne(s, ids[0], []);
      var more := StoresAll(t, ids[1..]);
      StoresOne(s, ids[0], more);
      actions := StoreOne(ids[0]) + more;
      StoreOneIsCrashFree(ids[0]);
    }
  }

  lemma StoreOneIsCrashFree(id: string)
    ensures CrashFree(StoreOne(id))
  {}

  lemma FirstOfFresh(t: Tables, ids: seq<string>)
    requires FreshIds(t, ids) && |ids| > 0
    ensures HexId(ids[0]) && MessageIdAdmitted(t, ids[0])
  {}

  /** Everything in the database that this run saved, when nothing is in hand: all that was accepted. */
  lemma AllAcceptedSaved(s: State)
    requires Inv(s) && Idle(s) && |s.measurements.items| == 0
    ensures s.saved == s.measurements.pushed && |s.disk.measurements| == s.base + |s.saved|
    ensures forall i | 0 <= i < |s.saved| :: s.disk.measurements[s.base + i].payload == ToJson(s.saved[i])
  {
    hide Control, HandlesOk, TokenMatches, PublisherOk, DiskOk, AttemptsOk, SentDelivered;
    assert s.measurements.items == [];
  }

  /** Whatever else is under way, what the queue accepted gets stored, all of it and in order. */
  lemma AcceptedGetsStored(s: State, ids: seq<string>) returns (actions: seq<Action>)
    requires Ready(s, ids) && |ids| >= SavesLeft(s) + |s.measurements.items|
    ensures CrashFree(actions)
    ensures var t := Run(s, actions);
            && t.saved == s.measurements.pushed && |t.disk.measurements| == s.base + |t.saved|
            && (forall i | 0 <= i < |t.saved| :: t.disk.measurements[s.base + i].payload == ToJson(t.saved[i]))
  {
    hide Inv, Idle, Alive, Savable, ReportTimed, FreshIds, Run, FirstPending, SavesLeft, ToJson;
    var flush, rest := Flush(s, ids);
    var t := Run(s, flush);
    var store := StoresAll(t, rest);
    RunSplits(s, flush, store);
    actions := flush + store;
    AllAcceptedSaved(Run(s, actions));
  }

  /** A measurement that is collected while the queue has room gets stored, after all that was accepted
      before it. */
  lemma MeasurementIsStored(s: State, m: Measurement, ids: seq<string>) returns (actions: seq<Action>)
    requires Ready(s, ids) && |ids| >= SavesLeft(s) + |s.measurements.items| + 1
    requires s.source == SourceReading && !s.measurements.Full() && Valid(m)
    ensures CrashFree(actions)
    ensures var t := Run(s, [ACollect(m), APushMeasurement(false)] + actions);
            && t.saved == s.measurements.pushed + [m] && |t.disk.measurements| == s.base + |t.saved|
            && (forall i | 0 <= i < |t.saved| :: t.disk.measurements[s.base + i].payload == ToJson(t.saved[i]))
  {
    hide Inv, Alive, Savable, ReportTimed, FreshIds, Run, SavesLeft, ToJson, Do;
    var a, b := ACollect(m), APushMeasurement(false);
    MqttEmptyAhead(s);
    StepKeeps(s, a);
    StepKeeps(Do(s, a), b);
    IsAccepted(s, m);
    AcceptedIsReady(s, m, ids);
    actions := AcceptedGetsStored(Do(Do(s, a), b), ids);
    assert [a, b] + actions == [a] + ([b] + actions);
    RunOne(s, a, [b] + actions);
    RunOne(Do(s, a), b, actions);
  }

  lemma IsAccepted(s: State, m: Measurement)
    requires s.source == SourceReading && !s.measurements.Full() && !s.measurements.closed
    ensures Do(Do(s, ACollect(m)), APushMeasurement(false))
         == s.(source := SourceIdle, collected := s.collected + 1, measurements := Q.Put(s.measurements, m))
  {
    hide DoStorage, DoMqtt, DoCommand, DoOutside, Coordinate, StopKept;
  }

  lemma AcceptedIsReady(s: State, m: Measurement, ids: seq<string>)
    requires Ready(s, ids) && Valid(m)
    ensures var t := s.(source := SourceIdle, collected := s.collected + 1, measurements := Q.Put(s.measurements, m));
            (Inv(t) ==> Ready(t, ids)) && SavesLeft(t) == SavesLeft(s) && |t.measurements.items| == |s.measurements.items| + 1
  {
    hide Inv, FreshIds;
  }
}
