/**
 When the gateway fails and when it stops: exactly at the failures of its workers and at the signal, and at
 nothing else.
 */
module PipelineFailures {
  import opened Measurements
  import opened OutboxTables
  import Store = OutboxStore
  import Pub = Publisher
  import opened Pipeline
  import opened PipelineInvariant
  import PipelineDurable
  import PipelineProgress

  // ---------------------------------------------------------------- which steps fail

  predicate SourceFailure(s: State, a: Action) { a.ASourceFails? && !s.source.SourceDone? }

  /** The report cannot be applied: a time before 1970, a failing call, a row that is gone, or no clock for the
      time of the next try. */
  predicate ApplyFailure(s: State, codes: seq<Store.SqlCode>, clockOk: bool) {
    && s.storage.Applying?
    && var r := s.storage.report;
       || (r.result == Pub.PublishOk && r.sentAtMs <= 0)
       || !Store.AllOk(codes, 4) || !HasRow(s.disk, r.id)
       || (r.result != Pub.PublishOk && !clockOk)
  }

  /** The measurement is not valid, there is no memory, a call fails or the message id is taken. */
  predicate SaveFailure(s: State, messageId: string, memory: bool, codes: seq<Store.SqlCode>) {
    && s.storage.Saving? && HexId(messageId)
    && !(Valid(s.storage.m) && memory && Store.AllOk(codes, 9) && MessageIdAdmitted(s.disk, messageId))
  }

  predicate StorageFailure(s: State, a: Action) {
    match a
    case AStorageBreaks => s.storage == AtResult || PopsMeasurement(s)
    case AApplyReport(codes, clockOk) => ApplyFailure(s, codes, clockOk)
    case ASave(messageId, memory, codes) => SaveFailure(s, messageId, memory, codes)
    case ADecide(_, clockOk) => s.storage == AtSchedule && !s.inflight && !s.stop && !clockOk
    case AReadPending(memory, codes) =>
      s.storage == Scheduling && (!Store.AllOk(codes, 2) || (FirstPending(s.disk.outbox) < |s.disk.outbox| && !memory))
    case _ => false
  }

  predicate MqttFailure(s: State, a: Action) {
    match a
    case APopJob(fails) => s.mqtt == MqttIdle && fails
    case ABuildPayload(memory) => s.mqtt.MqttHolding? && !memory
    case APushReport(fails) => s.mqtt.MqttReporting? && fails
    case _ => false
  }

  predicate CommandFailure(s: State, a: Action) { a.ADropCommand? && s.command.CommandHolding? && a.fails }

  predicate Fails(s: State, a: Action) {
    SourceFailure(s, a) || StorageFailure(s, a) || MqttFailure(s, a) || CommandFailure(s, a)
  }

  /** `t` is a failed gateway if `s` was or the step failed, and a stopping one in the same way or if told to. */
  predicate Follows(s: State, t: State, fails: bool, told: bool) {
    (t.fatal <==> s.fatal || fails) && (t.stop <==> s.stop || fails || told)
  }

  // ---------------------------------------------------------------- one step

  lemma SourceSteps(s: State, a: Action)
    ensures Follows(s, DoSource(s, a), SourceFailure(s, a), false)
  {
    hide StopKept;
  }

  lemma ApplySteps(s: State, codes: seq<Store.SqlCode>, clockOk: bool)
    ensures Follows(s, ApplyReport(s, codes, clockOk), ApplyFailure(s, codes, clockOk), false)
  {
    hide StopKept, HasRow, Store.AllOk, Store.After, ReportOp;
  }

  lemma SaveSteps(s: State, messageId: string, memory: bool, codes: seq<Store.SqlCode>)
    requires Inv(s)
    ensures Follows(s, SaveMeasurement(s, messageId, memory, codes), SaveFailure(s, messageId, memory, codes), false)
  {
    if s.storage.Saving? {
      var m := s.storage.m;
      var op := Store.SaveOp(m, memory, Topic(m), messageId, codes);
      DiskIsConsistent(s);
      hide Inv;
      Store.SaveIsAllOrNothing(Connection(s.disk), op);
      TopicFits(m);
      hide StopKept, Store.AllOk, Store.After, Store.SaveResult, Topic, HexId, Valid, MessageIdAdmitted;
    }
  }

  lemma DiskIsConsistent(s: State)
    requires Inv(s)
    ensures Consistent(s.disk) && |s.disk.outbox| == |s.disk.measurements|
  {
    hide Volatile, SavedOk, SentDelivered, AttemptsOk;
  }

  lemma TopicFits(m: Measurement)
    ensures Topic(m) != "" && (Valid(m) ==> |Topic(m)| < TOPIC_CAPACITY)
  {}

  lemma ReadSteps(s: State, memory: bool, codes: seq<Store.SqlCode>)
    requires Inv(s)
    ensures Follows(s, ReadPending(s, memory, codes), StorageFailure(s, AReadPending(memory, codes)), false)
  {
    DiskIsConsistent(s);
    hide StopKept, Inv, Consistent, FirstPending, Store.AllOk;
  }

  lemma OtherStorageSteps(s: State, a: Action)
    requires a.APopResult? || a.AStorageBreaks? || a.APopMeasurement? || a.ADecide? || a.AHandOver? || a.AStoreInterval?
    ensures Follows(s, DoStorage(s, a), StorageFailure(s, a), false)
  {
    hide StopKept, ReadPending, SaveMeasurement, ApplyReport, Store.After;
  }

  lemma StorageSteps(s: State, a: Action)
    requires Inv(s)
    ensures Follows(s, DoStorage(s, a), StorageFailure(s, a), false)
  {
    hide StopKept, Inv, Follows, ReadPending, SaveMeasurement, ApplyReport, ApplyFailure, SaveFailure;
    match a {
      case AApplyReport(codes, clockOk) => ApplySteps(s, codes, clockOk);
      case ASave(messageId, memory, codes) => SaveSteps(s, messageId, memory, codes);
      case AReadPending(memory, codes) => ReadSteps(s, memory, codes);
      case APopResult => OtherStorageSteps(s, a);
      case AStorageBreaks => OtherStorageSteps(s, a);
      case APopMeasurement(_) => OtherStorageSteps(s, a);
      case ADecide(_, _) => OtherStorageSteps(s, a);
      case AHandOver => OtherStorageSteps(s, a);
      case AStoreInterval(_, _) => OtherStorageSteps(s, a);
      case _ => NothingFollows(s);
    }
  }

  lemma NothingFollows(s: State)
    ensures Follows(s, s, false, false)
  {}

  lemma BuildSteps(s: State, memory: bool)
    requires Inv(s)
    ensures Follows(s, BuildPayload(s, memory), MqttFailure(s, ABuildPayload(memory)), false)
  {
    if s.mqtt.MqttHolding? { PipelineProgress.JobIsSendable(s); }
    hide StopKept, Inv, Enrich;
  }

  lemma EnterSteps(s: State, answer: Pub.Accepted)
    requires s.mqtt.MqttCalling? && MayEnter(s.publisher, answer)
    ensures Follows(s, Enter(s, answer), false, false)
  {
    hide StopKept, Pub.Begin, MayEnter, FirstPending;
  }

  lemma PublishSteps(s: State, clockOk: bool, answer: Pub.Accepted)
    ensures Follows(s, BeginPublish(s, clockOk, answer), false, false)
  {
    hide StopKept, MayEnter, Enter;
    if s.mqtt.MqttCalling? && MayEnter(s.publisher, answer) { EnterSteps(s, answer); }
  }

  lemma WakeSteps(s: State, timedOut: bool, failed: bool, clockOk: bool, nowMs: int)
    ensures Follows(s, WakePublish(s, timedOut, failed, clockOk, nowMs), false, false)
  {
    hide StopKept, Pub.Woken, Pub.Leave;
  }

  lemma OtherMqttSteps(s: State, a: Action)
    requires a.APopJob? || a.APushReport? || a.ACloseResults?
    ensures Follows(s, DoMqtt(s, a), MqttFailure(s, a), false)
  {
    hide StopKept, BuildPayload, BeginPublish, WakePublish;
  }

  lemma MqttSteps(s: State, a: Action)
    requires Inv(s)
    ensures Follows(s, DoMqtt(s, a), MqttFailure(s, a), false)
  {
    hide StopKept, Inv, Follows, BuildPayload, BeginPublish, WakePublish, PopJob, PushReport, CloseResults;
    match a {
      case APopJob(_) => OtherMqttSteps(s, a);
      case ABuildPayload(memory) => BuildSteps(s, memory);
      case ABeginPublish(clockOk, answer) => PublishSteps(s, clockOk, answer);
      case AWakePublish(timedOut, failed, clockOk, nowMs) => WakeSteps(s, timedOut, failed, clockOk, nowMs);
      case APushReport(_) => OtherMqttSteps(s, a);
      case ACloseResults => OtherMqttSteps(s, a);
      case _ => NothingFollows(s);
    }
  }

  lemma CommandSteps(s: State, a: Action)
    ensures Follows(s, DoCommand(s, a), CommandFailure(s, a), false)
  {
    hide StopKept, Pub.Begin, Pub.Woken, Pub.Leave, MayEnter;
  }

  lemma OutsideSteps(s: State, a: Action)
    requires !a.ACrash?
    ensures Follows(s, DoOutside(s, a), false, a.ASignal?)
  {
    hide StopKept, Pub.Handle;
  }

  lemma CoordinatorSteps(s: State)
    ensures Follows(s, Coordinate(s), false, false)
  {
    hide StopKept;
  }

  lemma OnlyItsThread(s: State, a: Action)
    ensures ThreadOf(a) != SourceThread ==> !SourceFailure(s, a)
    ensures ThreadOf(a) != StorageThread ==> !StorageFailure(s, a)
    ensures ThreadOf(a) != MqttThread ==> !MqttFailure(s, a)
    ensures ThreadOf(a) != CommandThread ==> !CommandFailure(s, a)
    ensures ThreadOf(a) != Outside ==> !a.ASignal? && !a.ACrash?
  {
    hide ApplyFailure, SaveFailure, FirstPending;
  }

  /** A step of any thread makes the gateway fail exactly if it fails, and makes it stop exactly if it fails or is
      the signal; no step takes either back. */
  lemma FailsIff(s: State, a: Action)
    requires Inv(s) && !a.ACrash?
    ensures Follows(s, Do(s, a), Fails(s, a), a.ASignal?)
  {
    OnlyItsThread(s, a);
    hide Inv, Follows, SourceFailure, StorageFailure, MqttFailure, CommandFailure;
    hide DoSource, DoStorage, DoMqtt, DoCommand, DoOutside, Coordinate;
    match ThreadOf(a) {
      case SourceThread => SourceSteps(s, a);
      case StorageThread => StorageSteps(s, a);
      case MqttThread => MqttSteps(s, a);
      case CommandThread => CommandSteps(s, a);
      case CoordinatorThread => CoordinatorSteps(s);
      case Outside => OutsideSteps(s, a);
    }
  }

  // ---------------------------------------------------------------- whole runs

  predicate SomeFails(s: State, actions: seq<Action>)
    decreases |actions|
  {
    actions != [] && (Fails(s, actions[0]) || SomeFails(Do(s, actions[0]), actions[1..]))
  }

  /** In every run without a crash the gateway has failed if and only if some step of a worker failed, and is
      stopping if and only if one did or the signal came. */
  lemma {:induction false} RunFailsIff(s: State, actions: seq<Action>)
    requires Inv(s) && CrashFree(actions)
    ensures Run(s, actions).fatal <==> s.fatal || SomeFails(s, actions)
    ensures Run(s, actions).stop <==> s.stop || SomeFails(s, actions) || exists k :: 0 <= k < |actions| && actions[k].ASignal?
    decreases |actions|
  {
    hide Inv, Do, Fails;
    if actions != [] {
      FailsIff(s, actions[0]);
      PipelineDurable.StepKeeps(s, actions[0]);
      RunFailsIff(Do(s, actions[0]), actions[1..]);
      assert forall k | 1 <= k < |actions| :: actions[k] == actions[1..][k - 1];
      assert forall k | 0 <= k < |actions| - 1 :: actions[1..][k] == actions[k + 1];
    }
  }
}
