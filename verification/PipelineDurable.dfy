/**
 The actions that touch the database or the publisher, and with them the invariant of every run.
 */
module PipelineDurable {
  import opened Common
  import opened Measurements
  import opened OutboxTables
  import Store = OutboxStore
  import Pub = Publisher
  import opened Pipeline
  import opened PipelineInvariant

  // ---------------------------------------------------------------- the first pending row

  lemma {:induction false} FirstPendingIs(rows: seq<OutboxRow>, k: nat)
    requires k <= |rows| && (forall i | 0 <= i < k :: rows[i].sent) && (k < |rows| ==> !rows[k].sent)
    ensures FirstPending(rows) == k
    decreases k
  {
    if k > 0 { FirstPendingIs(rows[1..], k - 1); }
  }

  /** Marking the first pending row moves the frontier by one and touches nothing else. */
  lemma MarkHead(t: Tables, atMs: int)
    requires DiskOk(t) && FirstPending(t.outbox) < |t.outbox|
    ensures var k, u := FirstPending(t.outbox), MarkSent(t, t.outbox[FirstPending(t.outbox)].id, atMs);
            && FirstPending(u.outbox) == k + 1 && SentPrefix(u.outbox)
            && |u.outbox| == |t.outbox| && u.measurements == t.measurements
            && (forall i | 0 <= i < |t.outbox| && i != k :: u.outbox[i] == t.outbox[i])
  {
    hide RowsStored, RowsOk, MessageIdsDistinct, Paired, MeasurementsOrdered;
    var k := FirstPending(t.outbox);
    var u := MarkSent(t, t.outbox[k].id, atMs);
    forall i | 0 <= i < |t.outbox| && i != k ensures u.outbox[i] == t.outbox[i] {
      assert t.outbox[i].id != t.outbox[k].id;
    }
    FirstPendingIs(u.outbox, k + 1);
  }

  lemma FailHead(t: Tables, text: string)
    requires DiskOk(t) && FirstPending(t.outbox) < |t.outbox|
    ensures var k, u := FirstPending(t.outbox), RecordFailure(t, t.outbox[FirstPending(t.outbox)].id, text);
            && FirstPending(u.outbox) == k && SentPrefix(u.outbox)
            && |u.outbox| == |t.outbox| && u.measurements == t.measurements
  {
    hide RowsStored, RowsOk, MessageIdsDistinct, Paired, MeasurementsOrdered, OutboxOrdered;
    var k := FirstPending(t.outbox);
    var u := RecordFailure(t, t.outbox[k].id, text);
    assert forall i | 0 <= i < |t.outbox| :: u.outbox[i].sent == t.outbox[i].sent;
    FirstPendingIs(u.outbox, k);
  }

  /** A save appends one pending row and leaves the frontier where it was. */
  lemma SaveTail(t: Tables, m: Measurement, messageId: string)
    requires DiskOk(t) && Valid(m) && HexId(messageId) && MessageIdAdmitted(t, messageId)
    ensures var u := Save(t, ToJson(m), Topic(m), messageId);
            && DiskOk(u) && Evolves(t, u)
            && FirstPending(u.outbox) == FirstPending(t.outbox)
            && |u.outbox| == |t.outbox| + 1 && u.outbox[..|t.outbox|] == t.outbox
            && u.measurements[|t.outbox|].payload == ToJson(m)
  {
    var u := Save(t, ToJson(m), Topic(m), messageId);
    assert |Topic(m)| > 0;
    SaveKeeps(t, ToJson(m), Topic(m), messageId);
    SaveAppends(t, ToJson(m), Topic(m), messageId);
    hide Consistent, ToJson, FromJson, Topic, Save;
    JsonRoundTrip(m, []);
    assert ToJson(m) + [] == ToJson(m);
    FirstPendingIs(u.outbox, FirstPending(t.outbox));
    forall i | 0 <= i < |u.outbox| ensures RowStored(u, i) {
      if i < |t.outbox| { assert RowStored(t, i); }
    }
  }

  // ---------------------------------------------------------------- messages and attempts under evolution

  lemma MessagesKeep(t: Tables, u: Tables)
    requires Consistent(t) && Consistent(u) && Evolves(t, u)
    ensures forall i | 0 <= i < |t.outbox| :: MessageOf(u, i) == MessageOf(t, i)
    ensures RowsStored(t) && |u.outbox| == |t.outbox| ==> RowsStored(u)
  {
    forall i | 0 <= i < |t.outbox|
      ensures MessageOf(u, i) == MessageOf(t, i) && (RowStored(t, i) ==> RowStored(u, i))
    {
      assert RowEvolves(t.outbox[i], u.outbox[i]);
    }
  }

  lemma AttemptsKeep(t: Tables, u: Tables, attempts: seq<Attempt>, published: seq<Pub.Message>)
    requires Consistent(t) && Consistent(u) && Evolves(t, u)
    requires AttemptsOk(t, attempts, published) && FirstPending(t.outbox) <= FirstPending(u.outbox)
    ensures AttemptsOk(u, attempts, published)
  {
    hide MessageOf;
    MessagesKeep(t, u);
  }

  // ---------------------------------------------------------------- applying a report

  /** What the storage worker's update does to everything that survives a crash. */
  lemma ReportDurable(s: State, codes: seq<Store.SqlCode>)
    requires Inv(s) && s.storage.Applying? && Store.AllOk(codes, 4)
    ensures var u := Store.After(Connection(s.disk), ReportOp(s.storage.report, codes)).committed;
            Durable(u, s.attempts, s.publisher.library, s.base, s.saved)
  {
    hide Control, Histories, HandlesOk, PublisherOk, LedgerOk, AttemptsOk, MessageOf;
    var r, t, k := s.storage.report, s.disk, FirstPending(s.disk.outbox);
    assert ReportOk(t, s.attempts, s.publisher.library.acked, r);
    var u := Store.After(Connection(t), ReportOp(r, codes)).committed;
    if r.result == Pub.PublishOk {
      MarkHead(t, r.sentAtMs);
      MarkSentKeeps(t, r.id, r.sentAtMs);
    } else {
      FailHead(t, FailureText(r.result));
      RecordFailureKeeps(t, r.id, FailureText(r.result));
    }
    hide Consistent, Evolves;
    MessagesKeep(t, u);
    AttemptsKeep(t, u, s.attempts, s.publisher.library.published);
  }

  lemma StorageFailsKeeps(s: State)
    requires Inv(s) && !s.storage.StorageExited? && !s.storage.Handing?
    ensures Inv(StorageFails(s))
  {
    hide Durable, JobOk, ReportOk, PayloadOk, WaitOk, Pub.Sound;
  }

  /** The report was applied to the database and the worker goes on or gives up. */
  lemma ReportVolatile(s: State, disk: Tables, fails: bool)
    requires Volatile(s) && s.storage.Applying?
    ensures var t := s.(disk := disk, inflight := false, applied := s.applied + [s.storage.report]);
            Volatile(if fails then StorageFails(t) else t.(storage := AtMeasurement))
  {
    hide JobOk, ReportOk, PayloadOk, WaitOk, Pub.Sound;
    assert LiveJob(s) == None && !s.mqtt.MqttReporting? && |s.results.items| == 0;
  }

  lemma AppliedKeeps(s: State, codes: seq<Store.SqlCode>, fails: bool)
    requires Inv(s) && s.storage.Applying? && Store.AllOk(codes, 4)
    ensures Inv(Applied(s, codes, fails))
  {
    ReportDurable(s, codes);
    ReportVolatile(s, Store.After(Connection(s.disk), ReportOp(s.storage.report, codes)).committed, fails);
    hide Volatile, Durable, Store.AllOk, Store.After, ReportOp;
  }

  lemma ApplyReportKeeps(s: State, codes: seq<Store.SqlCode>, clockOk: bool)
    requires Inv(s)
    ensures Inv(ApplyReport(s, codes, clockOk))
  {
    hide Inv, StorageFails, Applied, Store.AllOk, HasRow;
    if s.storage.Applying? {
      StorageFailsKeeps(s);
      if Store.AllOk(codes, 4) { AppliedKeeps(s, codes, s.storage.report.result != Pub.PublishOk && !clockOk); }
    }
  }

  // ---------------------------------------------------------------- saving a measurement

  lemma SaveMeasurementKeeps(s: State, messageId: string, memory: bool, codes: seq<Store.SqlCode>)
    requires Inv(s)
    ensures Inv(SaveMeasurement(s, messageId, memory, codes))
  {
    var t := SaveMeasurement(s, messageId, memory, codes);
    if s.storage.Saving? && HexId(messageId) {
      if t.storage == AtSchedule {
        SaveDurable(s, messageId, memory, codes);
        SaveVolatile(s, t);
      } else {
        StorageFailsKeeps(s);
      }
    }
  }

  lemma SaveDurable(s: State, messageId: string, memory: bool, codes: seq<Store.SqlCode>)
    requires Inv(s) && s.storage.Saving? && HexId(messageId)
    requires SaveMeasurement(s, messageId, memory, codes).storage == AtSchedule
    ensures var t := SaveMeasurement(s, messageId, memory, codes);
            && Durable(t.disk, t.attempts, t.publisher.library, t.base, t.saved)
            && t == s.(disk := t.disk, storage := AtSchedule, saved := s.saved + [s.storage.m])
            && SameHead(s.disk, t.disk)
  {
    hide Volatile, AttemptsOk, MessageOf, SentDelivered, MessageIdAdmitted;
    var m, t := s.storage.m, SaveMeasurement(s, messageId, memory, codes);
    var op := Store.SaveOp(m, memory, Topic(m), messageId, codes);
    assert Store.Sound(Connection(s.disk));
    Store.SaveIsAllOrNothing(Connection(s.disk), op);
    SaveTail(s.disk, m, messageId);
    AttemptsKeep(s.disk, t.disk, s.attempts, s.publisher.library.published);
    SentKept(s.disk, t.disk, s.attempts, s.publisher.library.acked);
  }

  lemma SentKept(t: Tables, u: Tables, attempts: seq<Attempt>, acked: set<nat>)
    requires SentDelivered(t, attempts, acked) && FirstPending(u.outbox) == FirstPending(t.outbox)
    ensures SentDelivered(u, attempts, acked)
  {}

  /** Nothing a job or a report says about the first pending row has changed. */
  predicate SameHead(t: Tables, u: Tables) {
    var k := FirstPending(t.outbox);
    && FirstPending(u.outbox) == k && |t.outbox| == |t.measurements| && |u.outbox| == |u.measurements|
    && |t.outbox| <= |u.outbox|
    && (k < |t.outbox| ==> u.outbox[k] == t.outbox[k] && u.measurements[k] == t.measurements[k])
  }

  lemma SaveVolatile(s: State, t: State)
    requires Volatile(s) && s.storage.Saving? && SameHead(s.disk, t.disk)
    requires t == s.(disk := t.disk, storage := AtSchedule, saved := s.saved + [s.storage.m])
    ensures Volatile(t)
  {
    hide Pub.Sound, FirstPending;
    assert LiveJob(t) == LiveJob(s) && LiveReport(t) == LiveReport(s);
  }

  // ---------------------------------------------------------------- reading, and the interval

  lemma RowsPaired(s: State)
    requires Inv(s)
    ensures |s.disk.outbox| == |s.disk.measurements|
  {}

  lemma ReadPendingKeeps(s: State, memory: bool, codes: seq<Store.SqlCode>)
    requires Inv(s)
    ensures Inv(ReadPending(s, memory, codes))
  {
    hide Inv, StorageFails, NextTurn, Store.AllOk, FirstPending, ItemOf;
    if s.storage == Scheduling {
      StorageFailsKeeps(s);
      NextTurnKeeps(s);
      RowsPaired(s);
      var k := FirstPending(s.disk.outbox);
      if k < |s.disk.outbox| { HandingKeeps(s, ItemOf(s.disk, k)); }
    }
  }

  lemma NextTurnKeeps(s: State)
    requires Inv(s) && s.storage == Scheduling
    ensures Inv(NextTurn(s))
  {
    hide Durable, JobOk, ReportOk, PayloadOk, WaitOk, Pub.Sound;
  }

  lemma HandingKeeps(s: State, item: Store.Item)
    requires Inv(s) && s.storage == Scheduling && JobOk(s.disk, item)
    ensures Inv(s.(storage := Handing(Job(item, s.nextHandle)), nextHandle := s.nextHandle + 1))
  {
    hide Durable, JobOk, ReportOk, PayloadOk, WaitOk, Pub.Sound;
    assert InFlight(s) == 0;
  }

  lemma StoreIntervalKeeps(s: State, ms: int, codes: seq<Store.SqlCode>)
    requires Inv(s)
    ensures Inv(StoreInterval(s, ms, codes))
  {
    var u := Store.After(Connection(s.disk), Store.IntervalOp(ms, codes)).committed;
    assert u == s.disk.(interval := u.interval) && IntervalOk(u.interval);
    IntervalDurable(s.disk, u, s.attempts, s.publisher.library, s.base, s.saved);
    if s.storage == AtResult { DiskVolatile(s, u); }
    hide Volatile, Durable, Store.After;
  }

  lemma IntervalDurable(t: Tables, u: Tables, attempts: seq<Attempt>, library: Pub.Library, base: nat, saved: seq<Measurement>)
    requires Durable(t, attempts, library, base, saved) && u == t.(interval := u.interval) && IntervalOk(u.interval)
    ensures Durable(u, attempts, library, base, saved)
  {
    hide FirstPending;
    assert forall i | 0 <= i < |t.outbox| :: RowStored(t, i) ==> RowStored(u, i);
    assert forall i | 0 <= i < |t.outbox| :: MessageOf(u, i) == MessageOf(t, i);
  }

  lemma DiskVolatile(s: State, u: Tables)
    requires Volatile(s) && SameHead(s.disk, u)
    ensures Volatile(s.(disk := u))
  {
    hide Pub.Sound, FirstPending;
    var t := s.(disk := u);
    assert LiveJob(t) == LiveJob(s) && LiveReport(t) == LiveReport(s);
  }

  // ---------------------------------------------------------------- the publisher

  lemma DeliveredGrows(attempts: seq<Attempt>, later: seq<Attempt>, acked: set<nat>, ackedLater: set<nat>, i: nat)
    requires Delivered(attempts, acked, i) && attempts <= later && acked <= ackedLater
    ensures Delivered(later, ackedLater, i)
  {
    var j :| 0 <= j < |attempts| && attempts[j].row == i && attempts[j].index in acked;
    assert later[j] == attempts[j];
  }

  lemma DurableGrows(s: State, library: Pub.Library)
    requires Durable(s.disk, s.attempts, s.publisher.library, s.base, s.saved) && Pub.Grows(s.publisher.library, library)
    ensures Durable(s.disk, s.attempts, library, s.base, s.saved)
  {
    hide RowsStored, SentPrefix, MeasurementsOrdered, OutboxOrdered, MessageIdsDistinct, RowsOk, SavedOk, MessageOf, Delivered;
    forall i | 0 <= i < FirstPending(s.disk.outbox) ensures Delivered(s.attempts, library.acked, i) {
      DeliveredGrows(s.attempts, s.attempts, s.publisher.library.acked, library.acked, i);
    }
  }

  /** The publisher moved, but not under the delivery worker's wait. */
  lemma PublisherMoves(s: State, p: Pub.State, c: Command)
    requires Volatile(s) && Pub.Sound(p) && Pub.Grows(s.publisher.library, p.library)
    requires s.mqtt.MqttWaiting? ==> p.waiting == s.publisher.waiting
    requires p.waiting.Some? <==> s.mqtt.MqttWaiting? || c == CommandWaiting
    requires !(s.mqtt.MqttWaiting? && c == CommandWaiting)
    requires c == CommandExited <==> s.command == CommandExited
    requires p.connection == Pub.Stopping ==> s.stop
    ensures Volatile(s.(publisher := p, command := c))
  {
    hide Pub.Sound, FirstPending, JobOk, PayloadOk;
    var t := s.(publisher := p, command := c);
    assert LiveJob(t) == LiveJob(s) && LiveReport(t) == LiveReport(s);
  }

  lemma CommandBeginKeeps(s: State, answer: Pub.Accepted)
    requires Inv(s)
    ensures Inv(CommandBegin(s, answer))
  {
    var t := CommandBegin(s, answer);
    if t != s {
      Pub.BeginKeeps(s.publisher, s.command.m, answer);
      PublisherMoves(s, t.publisher, t.command);
      DurableGrows(s, t.publisher.library);
    }
  }

  lemma CommandWakeKeeps(s: State, timedOut: bool, failed: bool)
    requires Inv(s)
    ensures Inv(CommandWake(s, timedOut, failed))
  {
    var t := CommandWake(s, timedOut, failed);
    if t != s {
      Pub.OkMeansAcknowledged(s.publisher, timedOut, failed);
      PublisherMoves(s, t.publisher, t.command);
      DurableGrows(s, t.publisher.library);
    }
  }

  lemma NetworkKeeps(s: State, e: Pub.Event)
    requires Inv(s) && (e.StopRequested? || e.StopDone? ==> s.stop)
    ensures Inv(s.(publisher := Pub.Handle(s.publisher, e)))
  {
    Pub.HandleKeeps(s.publisher, e);
    PublisherMoves(s, Pub.Handle(s.publisher, e), s.command);
    DurableGrows(s, Pub.Handle(s.publisher, e).library);
    hide Volatile, Durable, Pub.Handle;
  }

  /** The publish call returns: the job becomes a report about the same row. */
  lemma ReturnedKeeps(s: State, p: Pub.State, result: Pub.PublishResult, sentAtMs: int)
    requires Volatile(s) && (s.mqtt.MqttCalling? || s.mqtt.MqttWaiting?)
    requires Pub.Sound(p) && Pub.Grows(s.publisher.library, p.library)
    requires p.waiting.Some? <==> s.command == CommandWaiting
    requires p.connection == Pub.Stopping ==> s.stop
    requires result == Pub.PublishOk ==> Delivered(s.attempts, p.library.acked, FirstPending(s.disk.outbox))
    ensures Volatile(Returned(s.(publisher := p), s.mqtt.job, result, sentAtMs))
  {
    hide Pub.Sound, FirstPending, PayloadOk, WaitOk;
    var t := Returned(s.(publisher := p), s.mqtt.job, result, sentAtMs);
    assert InFlight(s) == 1 && LiveReport(s) == None && LiveJob(s) == Some(s.mqtt.job);
    assert LiveJob(t) == None && LiveReport(t) == Some(t.mqtt.report);
  }

  /** The connection is taken down after a stop was requested only. */
  lemma StopsOnTheWayOut(s: State)
    requires Inv(s)
    ensures s.publisher.connection == Pub.Stopping ==> s.stop
  {
    hide Tracking, Histories, Durable;
  }

  lemma RefusedKeeps(s: State, result: Pub.PublishResult)
    requires Inv(s) && s.mqtt.MqttCalling? && s.publisher.waiting.None? && result != Pub.PublishOk
    ensures Inv(Returned(s, s.mqtt.job, result, 0))
  {
    StopsOnTheWayOut(s);
    hide Control, Histories, HandlesOk, TokenMatches, LedgerOk, Durable, Pub.Sound;
    ReturnedKeeps(s, s.publisher, result, 0);
  }

  lemma BeginPublishKeeps(s: State, clockOk: bool, answer: Pub.Accepted)
    requires Inv(s)
    ensures Inv(BeginPublish(s, clockOk, answer))
  {
    hide Inv, Returned, Enter;
    if s.mqtt.MqttCalling? && MayEnter(s.publisher, answer) {
      RefusedKeeps(s, Pub.PublishInvalid);
      RefusedKeeps(s, Pub.PublishLibraryError);
      EnterKeeps(s, answer);
    }
  }

  lemma EnterKeeps(s: State, answer: Pub.Accepted)
    requires Inv(s) && s.mqtt.MqttCalling? && MayEnter(s.publisher, answer)
    ensures Inv(Enter(s, answer))
  {
    StopsOnTheWayOut(s);
    hide Control, Histories, HandlesOk, TokenMatches, LedgerOk, Durable, Pub.Sound;
    var message := Pub.Message(s.mqtt.job.item.topic, s.mqtt.payload);
    Pub.BeginKeeps(s.publisher, message, answer);
    var (p, result) := Pub.Begin(s.publisher, message, answer);
    if result.Some? {
      ReturnedKeeps(s, p, result.value, 0);
      DurableGrows(s, p.library);
    } else {
      AttemptDurable(s, message);
      AttemptVolatile(s, p);
      BeginDurable(s, p, message, answer);
    }
  }

  lemma BeginDurable(s: State, p: Pub.State, message: Pub.Message, answer: Pub.Accepted)
    requires s.publisher.waiting.None? && (answer.Accepted? ==> Pub.FreshId(s.publisher.library, answer.mid))
    requires Pub.Begin(s.publisher, message, answer) == (p, None)
    requires var library := s.publisher.library.(published := s.publisher.library.published + [message]);
             var attempt := Attempt(FirstPending(s.disk.outbox), |s.publisher.library.published|);
             Durable(s.disk, s.attempts + [attempt], library, s.base, s.saved)
    ensures var attempt := Attempt(FirstPending(s.disk.outbox), |s.publisher.library.published|);
            Durable(s.disk, s.attempts + [attempt], p.library, s.base, s.saved)
  {
    hide DiskOk, AttemptsOk, SentDelivered, SavedOk;
  }

  /** One more publication: of the first pending row's message, after all the others. */
  lemma AttemptDurable(s: State, message: Pub.Message)
    requires Inv(s) && s.mqtt.MqttCalling? && message == Pub.Message(s.mqtt.job.item.topic, s.mqtt.payload)
    ensures var library := s.publisher.library.(published := s.publisher.library.published + [message]);
            var attempt := Attempt(FirstPending(s.disk.outbox), |s.publisher.library.published|);
            Durable(s.disk, s.attempts + [attempt], library, s.base, s.saved)
  {
    hide RowsStored, SentPrefix, MeasurementsOrdered, OutboxOrdered, MessageIdsDistinct, RowsOk, SavedOk;
    hide Histories, HandlesOk, PublisherOk, LedgerOk, Enrich, StagesOk, Delivered;
    var k := FirstPending(s.disk.outbox);
    assert LiveJob(s) == Some(s.mqtt.job);
    assert JobOk(s.disk, s.mqtt.job.item) && PayloadOk(s.disk, s.mqtt.payload);
    var attempts := s.attempts + [Attempt(k, |s.publisher.library.published|)];
    forall i | 0 <= i < k ensures Delivered(attempts, s.publisher.library.acked, i) {
      DeliveredGrows(s.attempts, attempts, s.publisher.library.acked, s.publisher.library.acked, i);
    }
  }

  lemma AttemptVolatile(s: State, p: Pub.State)
    requires Volatile(s) && s.mqtt.MqttCalling? && s.publisher.waiting.None?
    requires Pub.Sound(p) && p.waiting.Some? && p.waiting.value.index == |s.publisher.library.published|
    requires p.connection == Pub.Stopping ==> s.stop
    ensures var attempt := Attempt(FirstPending(s.disk.outbox), |s.publisher.library.published|);
            Volatile(s.(publisher := p, mqtt := MqttWaiting(s.mqtt.job), attempts := s.attempts + [attempt]))
  {
    hide Pub.Sound, JobOk, PayloadOk, FirstPending, ReportOk;
    assert LiveReport(s) == None;
  }

  lemma WakePublishKeeps(s: State, timedOut: bool, failed: bool, clockOk: bool, nowMs: int)
    requires Inv(s)
    ensures Inv(WakePublish(s, timedOut, failed, clockOk, nowMs))
  {
    var t := WakePublish(s, timedOut, failed, clockOk, nowMs);
    if t != s {
      Pub.OkMeansAcknowledged(s.publisher, timedOut, failed);
      var r := t.mqtt.report.result;
      if r == Pub.PublishOk {
        assert s.attempts[|s.attempts| - 1].index in s.publisher.library.acked;
        assert Delivered(s.attempts, s.publisher.library.acked, FirstPending(s.disk.outbox));
      }
      ReturnedKeeps(s, Pub.Leave(s.publisher), r, nowMs);
    }
  }

  // ---------------------------------------------------------------- every action, every run

  lemma SignalKeeps(s: State)
    requires Inv(s)
    ensures Inv(s.(stop := true))
  {
    hide Durable, JobOk, ReportOk, PayloadOk, WaitOk, Pub.Sound;
  }

  lemma SourceStepKeeps(s: State, a: Action)
    requires Inv(s)
    ensures Inv(DoSource(s, a))
  {
    hide Inv, SourceLoop, CollectNothing, Collect, PushMeasurement, SourceFails;
    match a {
      case ASourceLoop => SourceLoopKeeps(s);
      case ACollectNothing => CollectNothingKeeps(s);
      case ACollect(m) => CollectKeeps(s, m);
      case APushMeasurement(timedOut) => PushMeasurementKeeps(s, timedOut);
      case ASourceFails => SourceFailsKeeps(s);
      case _ =>
    }
  }

  lemma StorageStepKeeps(s: State, a: Action)
    requires Inv(s)
    ensures Inv(DoStorage(s, a))
  {
    hide Inv, PopResult, StorageBreaks, StoreInterval, ApplyReport, PopMeasurement, SaveMeasurement;
    hide DecideSchedule, ReadPending, HandOver;
    match a {
      case APopResult => PopResultKeeps(s);
      case AStorageBreaks => StorageBreaksKeeps(s);
      case AStoreInterval(ms, codes) => StoreIntervalKeeps(s, ms, codes);
      case AApplyReport(codes, clockOk) => ApplyReportKeeps(s, codes, clockOk);
      case APopMeasurement(timedOut) => PopMeasurementKeeps(s, timedOut);
      case ASave(messageId, memory, codes) => SaveMeasurementKeeps(s, messageId, memory, codes);
      case ADecide(due, clockOk) => DecideKeeps(s, due, clockOk);
      case AReadPending(memory, codes) => ReadPendingKeeps(s, memory, codes);
      case AHandOver => HandOverKeeps(s);
      case _ =>
    }
  }

  lemma MqttStepKeeps(s: State, a: Action)
    requires Inv(s)
    ensures Inv(DoMqtt(s, a))
  {
    hide Inv, PopJob, BuildPayload, BeginPublish, WakePublish, PushReport, CloseResults;
    match a {
      case APopJob(fails) => PopJobKeeps(s, fails);
      case ABuildPayload(memory) => BuildPayloadKeeps(s, memory);
      case ABeginPublish(clockOk, answer) => BeginPublishKeeps(s, clockOk, answer);
      case AWakePublish(timedOut, failed, clockOk, nowMs) => WakePublishKeeps(s, timedOut, failed, clockOk, nowMs);
      case APushReport(fails) => PushReportKeeps(s, fails);
      case ACloseResults => CloseResultsKeeps(s);
      case _ =>
    }
  }

  lemma CommandStepKeeps(s: State, a: Action)
    requires Inv(s)
    ensures Inv(DoCommand(s, a))
  {
    hide Inv, PopCommand, DropCommand, CommandBegin, CommandWake;
    match a {
      case APopCommand(timedOut) => PopCommandKeeps(s, timedOut);
      case ADropCommand(fails) => DropCommandKeeps(s, fails);
      case ACommandBegin(answer) => CommandBeginKeeps(s, answer);
      case ACommandWake(timedOut, failed) => CommandWakeKeeps(s, timedOut, failed);
      case _ =>
    }
  }

  lemma OutsideStepKeeps(s: State, a: Action)
    requires Inv(s)
    ensures Inv(DoOutside(s, a))
  {
    hide Inv, ReceiveCommand, Crash, Pub.Handle;
    match a {
      case AReceiveCommand(m) => ReceiveCommandKeeps(s, m);
      case ANetwork(event) =>
        if s.stop || !(event.StopRequested? || event.StopDone?) { NetworkKeeps(s, event); }
      case ASignal => SignalKeeps(s);
      case ACrash => CrashKeeps(s);
      case _ =>
    }
  }

  lemma StepKeeps(s: State, a: Action)
    requires Inv(s)
    ensures Inv(Do(s, a))
  {
    hide Inv, DoSource, DoStorage, DoMqtt, DoCommand, DoOutside, Coordinate, StopKept;
    SourceStepKeeps(s, a);
    StorageStepKeeps(s, a);
    MqttStepKeeps(s, a);
    CommandStepKeeps(s, a);
    CoordinateKeeps(s);
    OutsideStepKeeps(s, a);
  }

  /** Every state that any interleaving of the threads, any failures and any number of crashes can reach. */
  lemma {:induction false} EveryRunKeeps(s: State, actions: seq<Action>)
    requires Inv(s)
    ensures Inv(Run(s, actions))
    decreases |actions|
  {
    hide Inv, Do;
    if actions != [] {
      StepKeeps(s, actions[0]);
      EveryRunKeeps(Do(s, actions[0]), actions[1..]);
    }
  }

  lemma InitOk()
    ensures Inv(Init())
  {
    StartOk(EMPTY, [], {}, []);
  }
}
