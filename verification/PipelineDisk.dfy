/**
 Which steps of the pipeline touch the database, and the interval in it.
 */
module PipelineDisk {
  import opened Common
  import opened Measurements
  import opened OutboxTables
  import Store = OutboxStore
  import Pub = Publisher
  import opened Pipeline

  lemma SavedPreserves(t: Tables, op: Store.Op)
    requires op.SaveOp?
    ensures Store.After(Connection(t), op).committed.interval == t.interval
  {
    hide Store.SaveCommits, Store.SaveStarts, Store.Partial, ToJson;
  }

  lemma SavePreserves(s: State, messageId: string, memory: bool, codes: seq<Store.SqlCode>)
    ensures SaveMeasurement(s, messageId, memory, codes).disk.interval == s.disk.interval
  {
    hide StopKept, Store.SaveResult, Store.After, Topic, HexId;
    if s.storage.Saving? {
      SavedPreserves(s.disk, Store.SaveOp(s.storage.m, memory, Topic(s.storage.m), messageId, codes));
    }
  }

  lemma ReportPreserves(t: Tables, r: Report, codes: seq<Store.SqlCode>)
    ensures Store.After(Connection(t), ReportOp(r, codes)).committed.interval == t.interval
  {
    hide FailureText, Store.AllOk;
  }

  lemma ApplyPreserves(s: State, codes: seq<Store.SqlCode>, clockOk: bool)
    ensures ApplyReport(s, codes, clockOk).disk.interval == s.disk.interval
  {
    hide StopKept, HasRow, Store.AllOk, Store.After, ReportOp, Connection;
    if s.storage.Applying? { ReportPreserves(s.disk, s.storage.report, codes); }
  }

  lemma PopsPreserve(s: State, timedOut: bool)
    ensures PopResult(s).disk == StorageBreaks(s).disk == PopMeasurement(s, timedOut).disk == s.disk
  {
    ResultPreserves(s);
    hide StopKept, PopResult;
  }

  lemma ResultPreserves(s: State)
    ensures PopResult(s).disk == s.disk
  {
    hide StopKept;
  }

  lemma DecidingPreserves(s: State, due: bool, clockOk: bool)
    ensures DecideSchedule(s, due, clockOk).disk == s.disk
  {
    hide StopKept;
  }

  lemma ReadingPreserves(s: State, memory: bool, codes: seq<Store.SqlCode>)
    ensures ReadPending(s, memory, codes).disk == s.disk
  {
    hide StopKept, FirstPending, Store.AllOk, ItemOf;
  }

  lemma HandOverPreserves(s: State)
    ensures HandOver(s).disk == s.disk
  {
    hide StopKept;
  }

  lemma StoragePreserves(s: State, a: Action)
    requires !a.AStoreInterval?
    ensures DoStorage(s, a).disk.interval == s.disk.interval
  {
    hide StopKept, SaveMeasurement, ApplyReport, StoreInterval, PopResult, StorageBreaks, PopMeasurement;
    hide DecideSchedule, ReadPending, HandOver;
    match a {
      case APopResult => PopsPreserve(s, true);
      case AStorageBreaks => PopsPreserve(s, true);
      case APopMeasurement(timedOut) => PopsPreserve(s, timedOut);
      case ASave(messageId, memory, codes) => SavePreserves(s, messageId, memory, codes);
      case AApplyReport(codes, clockOk) => ApplyPreserves(s, codes, clockOk);
      case ADecide(due, clockOk) => DecidingPreserves(s, due, clockOk);
      case AReadPending(memory, codes) => ReadingPreserves(s, memory, codes);
      case AHandOver => HandOverPreserves(s);
      case _ =>
    }
  }

  lemma SourcePreserves(s: State, a: Action)
    ensures DoSource(s, a).disk == s.disk
  {
    hide StopKept;
  }

  lemma EnterPreserves(s: State, answer: Pub.Accepted)
    requires s.mqtt.MqttCalling? && MayEnter(s.publisher, answer)
    ensures Enter(s, answer).disk == s.disk
  {
    hide StopKept, Pub.Begin, MayEnter, FirstPending;
  }

  lemma BeginPreserves(s: State, clockOk: bool, answer: Pub.Accepted)
    ensures BeginPublish(s, clockOk, answer).disk == s.disk
  {
    hide StopKept, MayEnter, Enter;
    if s.mqtt.MqttCalling? && MayEnter(s.publisher, answer) { EnterPreserves(s, answer); }
  }

  lemma WakePreserves(s: State, timedOut: bool, failed: bool, clockOk: bool, nowMs: int)
    ensures WakePublish(s, timedOut, failed, clockOk, nowMs).disk == s.disk
  {
    hide StopKept, Pub.Woken, Pub.Leave;
  }

  lemma JobPreserves(s: State, fails: bool, memory: bool)
    ensures PopJob(s, fails).disk == s.disk && BuildPayload(s, memory).disk == s.disk
  {
    hide StopKept, Enrich;
  }

  lemma ReportingPreserves(s: State, fails: bool)
    ensures PushReport(s, fails).disk == s.disk && CloseResults(s).disk == s.disk
  {
    hide StopKept;
  }

  lemma MqttPreserves(s: State, a: Action)
    ensures DoMqtt(s, a).disk == s.disk
  {
    hide StopKept, BeginPublish, WakePublish, PopJob, BuildPayload, PushReport, CloseResults;
    match a {
      case APopJob(fails) => JobPreserves(s, fails, true);
      case ABuildPayload(memory) => JobPreserves(s, true, memory);
      case ABeginPublish(clockOk, answer) => BeginPreserves(s, clockOk, answer);
      case AWakePublish(timedOut, failed, clockOk, nowMs) => WakePreserves(s, timedOut, failed, clockOk, nowMs);
      case APushReport(fails) => ReportingPreserves(s, fails);
      case ACloseResults => ReportingPreserves(s, true);
      case _ =>
    }
  }

  lemma RequestPreserves(s: State, timedOut: bool, fails: bool)
    ensures PopCommand(s, timedOut).disk == s.disk && DropCommand(s, fails).disk == s.disk
  {
    hide StopKept;
  }

  lemma AnswerPreserves(s: State, answer: Pub.Accepted, timedOut: bool, failed: bool)
    ensures CommandBegin(s, answer).disk == s.disk && CommandWake(s, timedOut, failed).disk == s.disk
  {
    hide StopKept, Pub.Begin, Pub.Woken, Pub.Leave, MayEnter;
  }

  lemma CommandPreserves(s: State, a: Action)
    ensures DoCommand(s, a).disk == s.disk
  {
    hide StopKept, PopCommand, DropCommand, CommandBegin, CommandWake;
    match a {
      case APopCommand(timedOut) => RequestPreserves(s, timedOut, true);
      case ADropCommand(fails) => RequestPreserves(s, true, fails);
      case ACommandBegin(answer) => AnswerPreserves(s, answer, true, true);
      case ACommandWake(timedOut, failed) => AnswerPreserves(s, Pub.Refused, timedOut, failed);
      case _ =>
    }
  }

  lemma OutsidePreserves(s: State, a: Action)
    ensures DoOutside(s, a).disk == s.disk
  {
    hide StopKept, Pub.Handle;
  }

  lemma CoordinatorPreserves(s: State)
    ensures Coordinate(s).disk == s.disk
  {
    hide StopKept;
  }

  /** No step of the pipeline but a served set_interval changes the interval on disk. */
  lemma IntervalStays(s: State, a: Action)
    requires !a.AStoreInterval?
    ensures Do(s, a).disk.interval == s.disk.interval
  {
    StoragePreserves(s, a);
    SourcePreserves(s, a);
    MqttPreserves(s, a);
    CommandPreserves(s, a);
    OutsidePreserves(s, a);
    CoordinatorPreserves(s);
    hide DoSource, DoStorage, DoMqtt, DoCommand, DoOutside, Coordinate;
  }

  /** What serving a set_interval leaves in the tables. */
  lemma ServedInterval(s: State, ms: int, codes: seq<Store.SqlCode>)
    requires s.storage == AtResult
    ensures Do(s, AStoreInterval(ms, codes)).disk.interval
            == if 100 <= ms <= 60000 && Store.AllOk(codes, 3) then Some(ms) else s.disk.interval
  {
    hide DoSource, DoMqtt, DoCommand, DoOutside, Coordinate, StopKept, Store.AllOk;
  }
}
