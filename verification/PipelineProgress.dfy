/**
 What the pipeline does when nothing fails: from every reachable state at rest, one cycle delivers the
 first pending row.
 */
module PipelineProgress {
  import opened Common
  import opened Measurements
  import opened OutboxTables
  import Store = OutboxStore
  import Pub = Publisher
  import Q = BoundedQueue
  import opened Pipeline
  import opened PipelineInvariant
  import opened PipelineDurable

  /** The storage worker may schedule, the MQTT worker is idle, the broker is connected and the publisher
      is free. */
  predicate AtRest(s: State) {
    && s.storage == AtSchedule && !s.inflight && !s.stop
    && s.mqtt == MqttIdle && s.publisher.waiting.None? && s.publisher.connection == Pub.Connected
  }

  /** At rest nothing is under way and every queue is open. */
  lemma RestIsEmpty(s: State)
    requires Inv(s) && AtRest(s)
    ensures InFlight(s) == 0 && !s.deliveries.closed && !s.results.closed && !s.measurements.closed
    ensures !s.measurementClosed && !s.resultClosed && s.deliveries.capacity == 1 && s.results.capacity == 1
    ensures |s.disk.outbox| == |s.disk.measurements|
  {
    hide Histories, Tracking, RowsStored, SentPrefix, AttemptsOk, SentDelivered, SavedOk;
  }

  // ---------------------------------------------------------------- one delivery, step by step

  function JobOf(s: State): Job
    requires |s.disk.outbox| == |s.disk.measurements| && FirstPending(s.disk.outbox) < |s.disk.outbox|
  {
    Job(ItemOf(s.disk, FirstPending(s.disk.outbox)), s.nextHandle)
  }

  /** The job has been handed to the MQTT worker. */
  function Handed(s: State, job: Job): State {
    s.(storage := AtResult, inflight := true, nextHandle := s.nextHandle + 1,
       deliveries := Q.Put(s.deliveries, job))
  }

  lemma Schedules(s: State)
    requires Inv(s) && AtRest(s) && FirstPending(s.disk.outbox) < |s.disk.outbox|
    ensures |s.disk.outbox| == |s.disk.measurements|
    ensures Scheduled(s) == Handed(s, JobOf(s))
  {
    RestIsEmpty(s);
    hide Inv, FirstPending, ItemOf;
    assert Store.AllOk([], 2);
    var t := DecideSchedule(s, true, true);
    assert t == s.(storage := Scheduling);
    var u := ReadPending(t, true, []);
    assert u == s.(storage := Handing(JobOf(s)), nextHandle := s.nextHandle + 1);
  }

  /** The message of the first pending row, which is never empty. */
  lemma MessageIsSendable(s: State)
    requires Inv(s) && FirstPending(s.disk.outbox) < |s.disk.outbox|
    ensures |s.disk.outbox| == |s.disk.measurements|
    ensures var k := FirstPending(s.disk.outbox);
            var m := MessageOf(s.disk, k);
            && Enrich(s.disk.measurements[k].payload, s.disk.outbox[k].messageId) == Some(m.payload)
            && m.topic == s.disk.outbox[k].topic && m.topic != "" && m.payload != []
  {
    var k := FirstPending(s.disk.outbox);
    assert RowStored(s.disk, k) && RowOk(s.disk.outbox[k]);
    hide Volatile, FromJson, ToJson, Get;
    EnrichRoundTrip(FromJson(s.disk.measurements[k].payload).value, s.disk.outbox[k].messageId);
  }

  lemma JobIsSendable(s: State)
    requires Inv(s) && s.mqtt.MqttHolding?
    ensures Enrich(s.mqtt.job.item.payload, s.mqtt.job.item.messageId).Some?
  {
    hide Histories, HandlesOk, PublisherOk, LedgerOk, AttemptsOk, SentDelivered, SavedOk, Enrich, StagesOk;
    assert LiveJob(s) == Some(s.mqtt.job) && JobOk(s.disk, s.mqtt.job.item);
    MessageIsSendable(s);
  }

  lemma TakesJob(s: State, job: Job)
    requires s.mqtt == MqttIdle && s.deliveries.items == []
    ensures PopJob(Handed(s, job), false)
         == Handed(s, job).(mqtt := MqttHolding(job), deliveries := Q.Take(Q.Put(s.deliveries, job)))
  {
    assert Q.Put(s.deliveries, job).items[0] == job;
  }

  lemma Builds(s: State, job: Job, payload: Json)
    requires s.mqtt == MqttHolding(job) && Enrich(job.item.payload, job.item.messageId) == Some(payload)
    ensures BuildPayload(s, true) == s.(mqtt := MqttCalling(job, payload))
  {
    hide Enrich;
  }

  /** The publisher on its own: handed over, acknowledged, called back. */
  lemma PublisherCompletes(p: Pub.State, m: Pub.Message, mid: int)
    requires p.waiting.None? && p.connection == Pub.Connected && Pub.FreshId(p.library, mid)
    ensures Pub.Begin(p, m, Pub.Accepted(mid)).1 == None
    ensures var a := Pub.Begin(p, m, Pub.Accepted(mid)).0;
            var c := Pub.Handle(Pub.Handle(a, Pub.Puback(mid)), Pub.Callback(mid));
            && Pub.Woken(c, false, false) == Some(Pub.PublishOk) && c.connection == Pub.Connected
            && c.library.published == p.library.published + [m] && |p.library.published| in c.library.acked
  {}

  /** The publication is handed over, acknowledged and reported. */
  lemma Publishes(s: State, job: Job, payload: Json, mid: int, nowMs: int)
    requires s.mqtt == MqttCalling(job, payload) && job.item.topic != "" && payload != []
    requires s.publisher.waiting.None? && s.publisher.connection == Pub.Connected
    requires Pub.FreshId(s.publisher.library, mid)
    ensures var a := BeginPublish(s, true, Pub.Accepted(mid));
            var b := a.(publisher := Pub.Handle(a.publisher, Pub.Puback(mid)));
            var c := b.(publisher := Pub.Handle(b.publisher, Pub.Callback(mid)));
            var t := WakePublish(c, false, false, true, nowMs);
            && t == s.(mqtt := MqttReporting(Report(job.item.id, Pub.PublishOk, nowMs)), publisher := t.publisher,
                       attempts := t.attempts, freed := s.freed + multiset{job.handle})
            && t.publisher.library.published == s.publisher.library.published + [Pub.Message(job.item.topic, payload)]
            && t.publisher.waiting.None? && t.publisher.connection == Pub.Connected
            && t.attempts == s.attempts + [Attempt(FirstPending(s.disk.outbox), |s.publisher.library.published|)]
            && |s.publisher.library.published| in t.publisher.library.acked
  {
    PublisherCompletes(s.publisher, Pub.Message(job.item.topic, payload), mid);
    hide FirstPending, Pub.Begin, Pub.Handle, Pub.Woken, Pub.FreshId;
  }

  lemma Reports(s: State, r: Report)
    requires s.mqtt == MqttReporting(r) && s.storage == AtResult && s.results.items == [] && !s.results.closed
    requires s.results.capacity == 1
    ensures var t := PopResult(PushReport(s, false));
            t == s.(mqtt := MqttIdle, storage := Applying(r), results := Q.Take(Q.Put(s.results, r)))
  {
    assert Q.Put(s.results, r).items[0] == r;
  }

  lemma Applies(s: State, r: Report, k: nat)
    requires s.storage == Applying(r) && r.result == Pub.PublishOk && r.sentAtMs > 0
    requires k < |s.disk.outbox| && s.disk.outbox[k].id == r.id
    ensures ApplyReport(s, [], true)
         == s.(storage := AtMeasurement, inflight := false, applied := s.applied + [r],
               disk := MarkSent(s.disk, r.id, r.sentAtMs))
  {
    assert HasRow(s.disk, r.id);
    assert Store.AllOk([], 4);
    hide MarkSent;
  }

  /** The actions of one failure-free delivery. */
  function DeliveryCycle(mid: int, nowMs: int): seq<Action> {
    [ADecide(true, true), AReadPending(true, []), AHandOver, APopJob(false), ABuildPayload(true),
     ABeginPublish(true, Pub.Accepted(mid)), ANetwork(Pub.Puback(mid)), ANetwork(Pub.Callback(mid)),
     AWakePublish(false, false, true, nowMs), APushReport(false), APopResult, AApplyReport([], true)]
  }

  lemma RunOne(s: State, a: Action, rest: seq<Action>)
    ensures Run(s, [a] + rest) == Run(Do(s, a), rest)
  {
    hide Do;
    assert ([a] + rest)[0] == a && ([a] + rest)[1..] == rest;
  }

  lemma RunThree(s: State, a: Action, b: Action, c: Action, rest: seq<Action>)
    ensures Run(s, [a, b, c] + rest) == Run(Do(Do(Do(s, a), b), c), rest)
  {
    hide Do, Run;
    assert [a, b, c] + rest == [a] + ([b] + ([c] + rest));
    RunOne(s, a, [b] + ([c] + rest));
    RunOne(Do(s, a), b, [c] + rest);
    RunOne(Do(Do(s, a), b), c, rest);
  }

  /** The first three steps: from the decision to the job in the queue. */
  function Scheduled(s: State): State { HandOver(ReadPending(DecideSchedule(s, true, true), true, [])) }

  function Begun(s: State, mid: int): State {
    BeginPublish(BuildPayload(PopJob(s, false), true), true, Pub.Accepted(mid))
  }

  function Acknowledged(s: State, mid: int, nowMs: int): State {
    var b := s.(publisher := Pub.Handle(s.publisher, Pub.Puback(mid)));
    var c := b.(publisher := Pub.Handle(b.publisher, Pub.Callback(mid)));
    WakePublish(c, false, false, true, nowMs)
  }

  function Recorded(s: State): State { ApplyReport(PopResult(PushReport(s, false)), [], true) }

  lemma ScheduledRuns(s: State)
    ensures Do(Do(Do(s, ADecide(true, true)), AReadPending(true, [])), AHandOver) == Scheduled(s)
  {
    hide DecideSchedule, ReadPending, HandOver;
  }

  lemma BegunRuns(s: State, mid: int)
    ensures Do(Do(Do(s, APopJob(false)), ABuildPayload(true)), ABeginPublish(true, Pub.Accepted(mid))) == Begun(s, mid)
  {
    hide PopJob, BuildPayload, BeginPublish;
  }

  lemma AcknowledgedRuns(s: State, mid: int, nowMs: int)
    ensures Do(Do(Do(s, ANetwork(Pub.Puback(mid))), ANetwork(Pub.Callback(mid))), AWakePublish(false, false, true, nowMs))
         == Acknowledged(s, mid, nowMs)
  {
    hide WakePublish, Pub.Handle;
  }

  lemma RecordedRuns(s: State)
    ensures Do(Do(Do(s, APushReport(false)), APopResult), AApplyReport([], true)) == Recorded(s)
  {
    hide PushReport, PopResult, ApplyReport;
  }

  lemma RunCycle(s: State, mid: int, nowMs: int)
    ensures Run(s, DeliveryCycle(mid, nowMs)) == Recorded(Acknowledged(Begun(Scheduled(s), mid), mid, nowMs))
  {
    hide Do, Scheduled, Begun, Acknowledged, Recorded;
    var a := Scheduled(s);
    var b := Begun(a, mid);
    var c := Acknowledged(b, mid, nowMs);
    var cycle := DeliveryCycle(mid, nowMs);
    assert cycle == [ADecide(true, true), AReadPending(true, []), AHandOver] + cycle[3..];
    assert cycle[3..] == [APopJob(false), ABuildPayload(true), ABeginPublish(true, Pub.Accepted(mid))] + cycle[6..];
    assert cycle[6..] == [ANetwork(Pub.Puback(mid)), ANetwork(Pub.Callback(mid)), AWakePublish(false, false, true, nowMs)] + cycle[9..];
    assert cycle[9..] == [APushReport(false), APopResult, AApplyReport([], true)] + [];
    RunThree(s, ADecide(true, true), AReadPending(true, []), AHandOver, cycle[3..]);
    RunThree(a, APopJob(false), ABuildPayload(true), ABeginPublish(true, Pub.Accepted(mid)), cycle[6..]);
    RunThree(b, ANetwork(Pub.Puback(mid)), ANetwork(Pub.Callback(mid)), AWakePublish(false, false, true, nowMs), cycle[9..]);
    RunThree(c, APushReport(false), APopResult, AApplyReport([], true), []);
    ScheduledRuns(s);
    BegunRuns(a, mid);
    AcknowledgedRuns(b, mid, nowMs);
    RecordedRuns(c);
  }

  /** The state in which the report about `job` is about to be pushed. */
  ghost predicate Reporting(s: State, t: State, job: Job, m: Pub.Message, nowMs: int) {
    && t == Handed(s, job).(mqtt := MqttReporting(Report(job.item.id, Pub.PublishOk, nowMs)),
                            deliveries := Q.Take(Q.Put(s.deliveries, job)), publisher := t.publisher,
                            attempts := t.attempts, freed := s.freed + multiset{job.handle})
    && t.publisher.library.published == s.publisher.library.published + [m]
    && t.publisher.waiting.None? && |s.publisher.library.published| in t.publisher.library.acked
  }

  lemma MiddleOfCycle(s: State, job: Job, m: Pub.Message, mid: int, nowMs: int)
    requires s.mqtt == MqttIdle && s.deliveries.items == []
    requires Enrich(job.item.payload, job.item.messageId) == Some(m.payload)
    requires m.topic == job.item.topic && m.topic != "" && m.payload != []
    requires s.publisher.waiting.None? && s.publisher.connection == Pub.Connected
    requires Pub.FreshId(s.publisher.library, mid)
    ensures Reporting(s, Acknowledged(Begun(Handed(s, job), mid), mid, nowMs), job, m, nowMs)
  {
    TakesJob(s, job);
    var b := PopJob(Handed(s, job), false);
    Builds(b, job, m.payload);
    var c := BuildPayload(b, true);
    Publishes(c, job, m.payload, mid, nowMs);
    hide PopJob, BuildPayload, BeginPublish, WakePublish, Pub.Handle, Pub.FreshId, Enrich;
  }

  lemma EndOfCycle(s: State, c: State, job: Job, m: Pub.Message, nowMs: int, k: nat)
    requires Reporting(s, c, job, m, nowMs) && nowMs > 0
    requires s.results.items == [] && !s.results.closed && s.results.capacity == 1
    requires k < |s.disk.outbox| && s.disk.outbox[k].id == job.item.id
    ensures var t := Recorded(c);
            && t.disk == MarkSent(s.disk, job.item.id, nowMs)
            && t.publisher == c.publisher && t.freed == s.freed + multiset{job.handle}
            && t.storage == AtMeasurement && t.mqtt == MqttIdle && !t.inflight
  {
    var r := Report(job.item.id, Pub.PublishOk, nowMs);
    Reports(c, r);
    var d := PopResult(PushReport(c, false));
    Applies(d, r, k);
    hide PopResult, PushReport, ApplyReport, MarkSent;
  }

  /** From every state at rest with a pending row, a cycle without failures publishes exactly the first
      pending row's message, once, has it acknowledged, marks that row with the time of success, frees the
      job, and leaves the workers ready for the next turn. */
  lemma CycleDelivers(s: State, mid: int, nowMs: int)
    requires Inv(s) && AtRest(s) && FirstPending(s.disk.outbox) < |s.disk.outbox|
    requires Pub.FreshId(s.publisher.library, mid) && nowMs > 0
    ensures |s.disk.outbox| == |s.disk.measurements|
    ensures var k, t := FirstPending(s.disk.outbox), Run(s, DeliveryCycle(mid, nowMs));
            && t.disk == MarkSent(s.disk, s.disk.outbox[k].id, nowMs) && FirstPending(t.disk.outbox) == k + 1
            && t.publisher.library.published == s.publisher.library.published + [MessageOf(s.disk, k)]
            && |s.publisher.library.published| in t.publisher.library.acked
            && t.freed == s.freed + multiset{s.nextHandle}
            && t.storage == AtMeasurement && t.mqtt == MqttIdle && !t.inflight && t.publisher.waiting.None?
  {
    var k := FirstPending(s.disk.outbox);
    RestIsEmpty(s);
    Schedules(s);
    MessageIsSendable(s);
    assert DiskOk(s.disk);
    MarkHead(s.disk, nowMs);
    var job, m := JobOf(s), MessageOf(s.disk, k);
    hide Inv, FirstPending, MarkSent, MessageOf, Enrich, Run, Handed, Begun, Acknowledged, Recorded, DiskOk;
    hide DecideSchedule, ReadPending, HandOver, Pub.FreshId;
    RunCycle(s, mid, nowMs);
    MiddleOfCycle(s, job, m, mid, nowMs);
    EndOfCycle(s, Acknowledged(Begun(Handed(s, job), mid), mid, nowMs), job, m, nowMs, k);
  }

  lemma AppliesFailure(s: State, r: Report, k: nat)
    requires s.storage == Applying(r) && r.result != Pub.PublishOk
    requires k < |s.disk.outbox| && s.disk.outbox[k].id == r.id
    ensures ApplyReport(s, [], true)
         == s.(storage := AtMeasurement, inflight := false, applied := s.applied + [r],
               disk := RecordFailure(s.disk, r.id, FailureText(r.result)))
  {
    assert HasRow(s.disk, r.id);
    assert Store.AllOk([], 4) && FailureText(r.result) != "";
    hide RecordFailure, FailureText;
  }

  lemma ReportIsAboutHead(s: State)
    requires Inv(s) && s.storage.Applying?
    ensures DiskOk(s.disk) && FirstPending(s.disk.outbox) < |s.disk.outbox|
    ensures s.disk.outbox[FirstPending(s.disk.outbox)].id == s.storage.report.id
  {
    hide Control, Histories, HandlesOk, PublisherOk, LedgerOk, AttemptsOk, SentDelivered, SavedOk, DiskOk, FirstPending;
    assert ReportOk(s.disk, s.attempts, s.publisher.library.acked, s.storage.report);
  }

  /** What the delivery worker reports when its wait ends: about its own job, the outcome of the call, except that
      a success without a readable clock becomes a failure; the time is that of the clock, and the job is freed. */
  lemma OutcomeIsReported(s: State, timedOut: bool, failed: bool, clockOk: bool, nowMs: int)
    requires s.mqtt.MqttWaiting? && Pub.Woken(s.publisher, timedOut, failed).Some?
    ensures var outcome := Pub.Woken(s.publisher, timedOut, failed).value;
            var t := WakePublish(s, timedOut, failed, clockOk, nowMs);
            && t.mqtt.MqttReporting? && t.mqtt.report.id == s.mqtt.job.item.id
            && (t.mqtt.report.result == Pub.PublishOk <==> outcome == Pub.PublishOk && clockOk)
            && (outcome != Pub.PublishOk ==> t.mqtt.report.result == outcome)
            && (outcome == Pub.PublishOk && !clockOk ==> t.mqtt.report.result == Pub.PublishLibraryError)
            && t.mqtt.report.sentAtMs == (if t.mqtt.report.result == Pub.PublishOk then nowMs else 0)
            && t.freed == s.freed + multiset{s.mqtt.job.handle} && t.publisher.waiting == None
  {
    hide StopKept, Pub.Woken;
  }

  /** A call that does not get to wait is reported too: an empty topic or payload, no clock, or the publisher's
      own answer. */
  lemma RefusalIsReported(s: State, clockOk: bool, answer: Pub.Accepted)
    requires s.mqtt.MqttCalling? && MayEnter(s.publisher, answer)
    ensures var m := Pub.Message(s.mqtt.job.item.topic, s.mqtt.payload);
            var empty := m.topic == "" || m.payload == [];
            var outcome := if empty then Some(Pub.PublishInvalid) else if !clockOk then Some(Pub.PublishLibraryError)
                           else Pub.Begin(s.publisher, m, answer).1;
            var t := BeginPublish(s, clockOk, answer);
            && (outcome.Some? ==>
                  t.mqtt == MqttReporting(Report(s.mqtt.job.item.id, outcome.value, 0)) && t.attempts == s.attempts)
            && (outcome.None? ==>
                  && t.mqtt == MqttWaiting(s.mqtt.job) && t.publisher == Pub.Begin(s.publisher, m, answer).0
                  && t.attempts == s.attempts + [Attempt(FirstPending(s.disk.outbox), |s.publisher.library.published|)])
  {
    hide StopKept, Pub.Begin, FirstPending;
  }

  /** The command worker publishes the very message it holds, under the same rules. */
  lemma CommandIsPublished(s: State, answer: Pub.Accepted)
    requires s.command.CommandHolding? && MayEnter(s.publisher, answer)
    ensures var t := CommandBegin(s, answer);
            if s.publisher.connection == Pub.Connected && answer.Accepted? then
              && t.command == CommandWaiting && t.publisher.library.published == s.publisher.library.published + [s.command.m]
              && t.publisher.waiting == Some(Pub.Wait(s.command.m, |s.publisher.library.published|))
            else t.command == CommandIdle && t.publisher.library == s.publisher.library
  {
    hide StopKept;
  }

  /** The texts that are kept, with the numbers of the publisher's results. */
  lemma FailureTexts()
    ensures FailureText(Pub.PublishInvalid) == "mqtt publish failed: -1"
    ensures FailureText(Pub.PublishLibraryError) == "mqtt publish failed: -3"
    ensures FailureText(Pub.PublishNotConnected) == "mqtt publish failed: -4"
    ensures FailureText(Pub.PublishTimeout) == "mqtt publish failed: -5"
  {}

  /** A report of a failed delivery counts the attempt and keeps the reason on the row it is about, which
      stays the first pending one and so is the next to be tried. */
  lemma FailureIsRecorded(s: State)
    requires Inv(s) && s.storage.Applying? && s.storage.report.result != Pub.PublishOk
    ensures var k, t := FirstPending(s.disk.outbox), ApplyReport(s, [], true);
            && k < |s.disk.outbox| == |t.disk.outbox| && FirstPending(t.disk.outbox) == k
            && t.disk.outbox[k] == s.disk.outbox[k].(attempts := s.disk.outbox[k].attempts + 1,
                                                     lastError := Some(FailureText(s.storage.report.result)))
            && t.storage == AtMeasurement && !t.inflight
  {
    var r, k := s.storage.report, FirstPending(s.disk.outbox);
    ReportIsAboutHead(s);
    FailHead(s.disk, FailureText(r.result));
    AppliesFailure(s, r, k);
    hide Inv, DiskOk, ApplyReport, FailureText;
  }
}
