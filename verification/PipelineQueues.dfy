/**
 The workers' steps on their queues are calls of the bounded queue: each step does what the answer of the call
 tells its worker to do. A call that would wait (`None`) leaves its worker inside the wait.
 */
module PipelineQueues {
  import opened Common
  import Pub = Publisher
  import Q = BoundedQueue
  import opened Pipeline

  /** bq_pop with timeout -1: a job, or the end of the worker once the queue is closed and empty. */
  lemma PopJobIsPop(s: State)
    requires s.mqtt == MqttIdle
    ensures var (q, result, x) := Q.PopFrom(s.deliveries, -1, []);
            var t := PopJob(s, false);
            && t.deliveries == q
            && (x.Some? ==> t.mqtt == MqttHolding(x.value))
            && (result == Some(Q.QueueClosed) ==> t.mqtt == MqttClosing)
            && (result == None ==> t == s)
            && result != Some(Q.QueueTimeout)
  {
    Q.PopNow(s.deliveries, -1);
    hide StopKept, Q.PopFrom;
  }

  /** bq_pop with timeout 0: a report, the remembered close, or nothing. */
  lemma PopResultIsPop(s: State)
    requires s.storage == AtResult
    ensures var (q, result, x) := Q.PopFrom(s.results, 0, []);
            var t := PopResult(s);
            && t.results == q && result.Some?
            && (x.Some? ==> t.storage == Applying(x.value))
            && (result == Some(Q.QueueClosed) ==> t.storage == AtMeasurement && t.resultClosed && !t.inflight)
            && (result == Some(Q.QueueTimeout) ==> t == s.(storage := AtMeasurement))
  {
    Q.PopNow(s.results, 0);
    hide StopKept, Q.PopFrom;
  }

  /** bq_pop with a positive timeout, called or continued, unless the close was seen before. */
  lemma PopMeasurementIsPop(s: State)
    requires (s.storage == AtMeasurement || s.storage == AwaitingMeasurement) && !s.measurementClosed
    ensures var (q, result, x) := Q.PopFrom(s.measurements, 100, []);
            var t := PopMeasurement(s, false);
            && t.measurements == q
            && (x.Some? ==> t.storage == Saving(x.value))
            && (result == Some(Q.QueueClosed) ==> t.storage == AtSchedule && t.measurementClosed)
            && (result == None ==> t == s.(storage := AwaitingMeasurement))
  {
    Q.PopNow(s.measurements, 100);
    hide StopKept, Q.PopFrom;
  }

  lemma PopCommandIsPop(s: State)
    requires s.command == CommandIdle || s.command == CommandAwaiting
    ensures var (q, result, x) := Q.PopFrom(s.commands, 100, []);
            var t := PopCommand(s, false);
            && t.commands == q
            && (x.Some? ==> t.command == CommandHolding(x.value))
            && (result == Some(Q.QueueClosed) ==> t.command == CommandExited)
            && (result == None ==> t == s.(command := CommandAwaiting))
  {
    Q.PopNow(s.commands, 100);
    hide StopKept, Q.PopFrom;
  }

  /** bq_push with a positive timeout: accepted, refused for good, or waiting. */
  lemma PushMeasurementIsPush(s: State)
    requires Holds(s.source)
    ensures var (q, result) := Q.PushFrom(s.measurements, s.source.m, 100, []);
            var t := PushMeasurement(s, false);
            && t.measurements == q
            && (result == Some(Q.QueueOk) ==> t.source == SourceIdle)
            && (result == Some(Q.QueueClosed) ==> t.source == SourceDone(true))
            && (result == None ==> t.source == SourceBlocked(s.source.m))
  {
    Q.PushNow(s.measurements, s.source.m, 100);
    hide StopKept, Q.PushFrom;
  }

  /** A wait that times out returns without another look at the queue: the source keeps its measurement and tries
      again, or drops it once a stop is set; the other two go on. */
  lemma TimeoutsTouchNothing(s: State)
    ensures s.source.SourceBlocked? ==>
              PushMeasurement(s, true) == s.(source := if s.stop then SourceDone(true) else SourceHolding(s.source.m))
    ensures s.storage == AwaitingMeasurement ==> PopMeasurement(s, true) == s.(storage := AtSchedule)
    ensures s.command == CommandAwaiting ==> PopCommand(s, true) == s.(command := CommandIdle)
  {
    hide StopKept;
  }

  /** bq_push with timeout 0: the job is in flight, or its strings are freed at once. */
  lemma HandOverIsPush(s: State)
    requires s.storage.Handing?
    ensures var (q, result) := Q.PushFrom(s.deliveries, s.storage.job, 0, []);
            var t := HandOver(s);
            && t.deliveries == q && result.Some?
            && (result == Some(Q.QueueOk) ==> t.inflight && t.freed == s.freed)
            && (result != Some(Q.QueueOk) ==> t.inflight == s.inflight && t.freed == s.freed + multiset{s.storage.job.handle})
  {
    Q.PushNow(s.deliveries, s.storage.job, 0);
    hide StopKept, Q.PushFrom;
  }

  /** bq_push with a positive timeout, repeated: the report is back, or dropped only if the queue is closed or a
      worker has failed. */
  lemma PushReportIsPush(s: State)
    requires s.mqtt.MqttReporting?
    ensures var (q, result) := Q.PushFrom(s.results, s.mqtt.report, 100, []);
            var t := PushReport(s, false);
            && t.results == q
            && (result == Some(Q.QueueOk) ==> t.mqtt == MqttIdle)
            && (result == Some(Q.QueueClosed) ==> t.mqtt == MqttClosing)
            && (result == None ==> if s.fatal then t.mqtt == MqttClosing else t == s)
  {
    Q.PushNow(s.results, s.mqtt.report, 100);
    hide StopKept, Q.PushFrom;
  }

  lemma ReceiveCommandIsPush(s: State, m: Pub.Message)
    ensures ReceiveCommand(s, m) == s.(commands := Q.PushFrom(s.commands, m, 0, []).0)
  {
    Q.PushNow(s.commands, m, 0);
    hide StopKept, Q.PushFrom;
  }
}
