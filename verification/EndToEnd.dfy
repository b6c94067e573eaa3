/**
 From the gateway's database to the consumer's: however often messages are published and delivered, each
 sent outbox row has exactly one business row.
 */
module EndToEnd {
  import opened Common
  import opened Measurements
  import opened OutboxTables
  import opened OutboxStore
  import C = Consumer
  import opened Pipeline
  import opened PipelineInvariant
  import PipelineDurable
  import Migration
  import MigratedStart

  /** The measurement of row `i`. */
  function MeasurementOf(t: Tables, i: nat): Measurement
    requires i < |t.outbox| && |t.outbox| == |t.measurements| && RowStored(t, i)
  {
    FromJson(t.measurements[i].payload).value
  }

  function PayloadOf(s: State, j: nat): Json
    requires j < |s.attempts| && s.attempts[j].index < |s.publisher.library.published|
  {
    s.publisher.library.published[s.attempts[j].index].payload
  }

  // ---------------------------------------------------------------- what the broker is assumed to do

  /** It delivers only what it was given, in any order and any number of times. */
  ghost predicate OnlyPublished(s: State, ds: seq<C.Delivery>) {
    forall k | 0 <= k < |ds| :: Published(s, ds[k].payload)
  }

  ghost predicate Published(s: State, payload: Json) {
    exists j: nat :: j < |s.attempts| && s.attempts[j].index < |s.publisher.library.published| && PayloadOf(s, j) == payload
  }

  /** What it acknowledged it delivers at least once, at a moment when the consumer's database works. */
  ghost predicate AckedDelivered(s: State, ds: seq<C.Delivery>) {
    forall j: nat | j < |s.attempts| && s.attempts[j].index < |s.publisher.library.published|
                    && s.attempts[j].index in s.publisher.library.acked ::
      Arrives(ds, PayloadOf(s, j))
  }

  ghost predicate Arrives(ds: seq<C.Delivery>, payload: Json) {
    exists k :: 0 <= k < |ds| && ds[k].payload == payload && AllOk(ds[k].codes, C.CALLS)
  }

  // ---------------------------------------------------------------- messages identify rows

  /** The message of a row is read back as that row's id and measurement. */
  lemma MessageParses(t: Tables, i: nat)
    requires i < |t.outbox| && |t.outbox| == |t.measurements| && RowStored(t, i)
    ensures C.Parse(MessageOf(t, i).payload) == Some(C.Parsed(t.outbox[i].messageId, MeasurementOf(t, i)))
  {
    hide FromJson, ToJson, Get;
    EnrichRoundTrip(MeasurementOf(t, i), t.outbox[i].messageId);
  }

  /** Whatever is published belongs to one row. */
  ghost predicate StemsFrom(s: State, payload: Json, i: nat) {
    && i < |s.disk.outbox| && |s.disk.outbox| == |s.disk.measurements| && RowStored(s.disk, i)
    && payload == MessageOf(s.disk, i).payload
    && C.Parse(payload) == Some(C.Parsed(s.disk.outbox[i].messageId, MeasurementOf(s.disk, i)))
  }

  lemma PublishedStems(s: State, payload: Json) returns (i: nat)
    requires Inv(s) && Published(s, payload)
    ensures StemsFrom(s, payload, i)
  {
    hide Volatile, RowStored, MessageOf, C.Parse, SavedOk, SentDelivered, FromJson;
    var j: nat :| j < |s.attempts| && s.attempts[j].index < |s.publisher.library.published| && PayloadOf(s, j) == payload;
    i := s.attempts[j].row;
    assert RowStored(s.disk, i);
    MessageParses(s.disk, i);
  }

  // ---------------------------------------------------------------- topics name devices

  lemma TopicParts(m: Measurement)
    ensures Topic(m) == "edgevision/v1/devices/" + m.deviceId + "/measurements"
    ensures |"edgevision/v1/devices/"| == 22 && |"/measurements"| == 13
    ensures Topic(m)[22..|Topic(m)| - 13] == m.deviceId
  {
    assert |"edgevision/v1/devices/"| == 22 && |"/measurements"| == 13;
  }

  /** Measurements share a topic exactly if they are of the same device, and the topic of a valid one always fits
      the buffer it is written into. */
  lemma TopicsAreDevices(m: Measurement, n: Measurement)
    ensures Topic(m) == Topic(n) <==> m.deviceId == n.deviceId
    ensures Valid(m) ==> |Topic(m)| < TOPIC_CAPACITY
  {
    TopicParts(m);
    TopicParts(n);
  }

  /** Whatever is published goes to the topic of the device that the consumer reads from that very payload. */
  lemma PublishedUnderItsDevice(start: State, actions: seq<Action>, j: nat)
    requires Inv(start) && j < |Run(start, actions).attempts|
    ensures var s := Run(start, actions);
            && s.attempts[j].index < |s.publisher.library.published|
            && var message := s.publisher.library.published[s.attempts[j].index];
               && C.Parse(message.payload).Some?
               && message.topic == "edgevision/v1/devices/" + C.Parse(message.payload).value.measurement.deviceId + "/measurements"
  {
    hide Inv, Run, C.Parse;
    PipelineDurable.EveryRunKeeps(start, actions);
    AttemptUnderItsDevice(Run(start, actions), j);
  }

  lemma AttemptUnderItsDevice(s: State, j: nat)
    requires Inv(s) && j < |s.attempts|
    ensures s.attempts[j].index < |s.publisher.library.published|
    ensures var message := s.publisher.library.published[s.attempts[j].index];
            && C.Parse(message.payload).Some?
            && message.topic == "edgevision/v1/devices/" + C.Parse(message.payload).value.measurement.deviceId + "/measurements"
  {
    hide Volatile, SavedOk, SentDelivered, C.Parse, FromJson, ToJson, Get, Topic, Valid, HexId;
    var i := s.attempts[j].row;
    assert RowStored(s.disk, i);
    MessageParses(s.disk, i);
    TopicParts(MeasurementOf(s.disk, i));
  }

  lemma SameIdSameRow(s: State, a: Json, i: nat, b: Json, j: nat)
    requires Inv(s) && StemsFrom(s, a, i) && StemsFrom(s, b, j) && C.SameId(a, b)
    ensures i == j && a == b
  {
    hide Volatile, RowStored, MessageOf, C.Parse, SavedOk, SentDelivered, AttemptsOk, FromJson;
    assert MessageIdsDistinct(s.disk.outbox);
  }

  lemma NeverConflicts(s: State, ds: seq<C.Delivery>)
    requires Inv(s) && OnlyPublished(s, ds)
    ensures C.NoConflict(C.NO_ROWS, ds)
  {
    hide Inv, Published, C.SameId, StemsFrom;
    forall a, b | 0 <= a < |ds| && 0 <= b < |ds| && C.SameId(ds[a].payload, ds[b].payload)
      ensures ds[a].payload == ds[b].payload
    {
      var i := PublishedStems(s, ds[a].payload);
      var j := PublishedStems(s, ds[b].payload);
      SameIdSameRow(s, ds[a].payload, i, ds[b].payload, j);
    }
  }

  // ---------------------------------------------------------------- exactly once

  /** Row `i` has had its effect: one business row under its message id, with its measurement. */
  ghost predicate Effect(s: State, u: C.Tables, i: nat) {
    && i < |s.disk.outbox| && |s.disk.outbox| == |s.disk.measurements| && RowStored(s.disk, i)
    && s.disk.outbox[i].messageId in u.business
    && u.business[s.disk.outbox[i].messageId] == MeasurementOf(s.disk, i)
  }

  lemma DeliveredHasEffect(s: State, ds: seq<C.Delivery>, k: nat)
    requires Inv(s) && OnlyPublished(s, ds) && k < |ds| && AllOk(ds[k].codes, C.CALLS)
    ensures forall i | StemsFrom(s, ds[k].payload, i) :: Effect(s, C.DeliverAll(C.NO_ROWS, ds), i)
  {
    NeverConflicts(s, ds);
    var i := PublishedStems(s, ds[k].payload);
    C.DeliveredIsProcessed(C.NO_ROWS, ds, k);
  }

  lemma SentHasEffect(s: State, ds: seq<C.Delivery>, i: nat)
    requires Inv(s) && OnlyPublished(s, ds) && AckedDelivered(s, ds)
    requires i < |s.disk.outbox| && s.disk.outbox[i].sent
    ensures Effect(s, C.DeliverAll(C.NO_ROWS, ds), i)
  {
    hide Volatile, RowStored, MessageOf, SavedOk, FromJson, Effect, C.DeliverAll;
    assert i < FirstPending(s.disk.outbox);
    assert Delivered(s.attempts, s.publisher.library.acked, i);
    var j :| 0 <= j < |s.attempts| && s.attempts[j].row == i && s.attempts[j].index in s.publisher.library.acked;
    var k :| 0 <= k < |ds| && ds[k].payload == PayloadOf(s, j) && AllOk(ds[k].codes, C.CALLS);
    assert RowStored(s.disk, i);
    MessageParses(s.disk, i);
    DeliveredHasEffect(s, ds, k);
    assert StemsFrom(s, ds[k].payload, i);
  }

  lemma EffectHasRow(s: State, ds: seq<C.Delivery>, id: string) returns (i: nat)
    requires Inv(s) && OnlyPublished(s, ds) && id in C.DeliverAll(C.NO_ROWS, ds).business
    ensures Effect(s, C.DeliverAll(C.NO_ROWS, ds), i) && s.disk.outbox[i].messageId == id
  {
    hide Inv, Published, RowStored, MessageOf, FromJson, C.DeliverAll;
    C.DeliverAllKeeps(C.NO_ROWS, ds);
    var u := C.DeliverAll(C.NO_ROWS, ds);
    var k :| 0 <= k < |ds| && ds[k].payload == u.inbox[id];
    i := PublishedStems(s, ds[k].payload);
  }

  lemma IdsDistinct(s: State)
    requires Inv(s)
    ensures MessageIdsDistinct(s.disk.outbox)
  {
    hide Volatile, SavedOk, SentDelivered, AttemptsOk;
  }

  /** Exactly once, end to end. Whatever the threads, the network, the disk and the crashes did: if the
      consumer sees only published messages, in any order and with any repetition, and sees each
      acknowledged one at least once, then every sent row has its effect and every effect belongs to
      exactly one row. */
  lemma ExactlyOnce(start: State, actions: seq<Action>, ds: seq<C.Delivery>)
    requires Inv(start)
    requires OnlyPublished(Run(start, actions), ds) && AckedDelivered(Run(start, actions), ds)
    ensures var s, u := Run(start, actions), C.DeliverAll(C.NO_ROWS, ds);
            && (forall i: nat | i < |s.disk.outbox| && s.disk.outbox[i].sent :: Effect(s, u, i))
            && (forall id | id in u.business :: exists i: nat :: Effect(s, u, i) && s.disk.outbox[i].messageId == id)
            && (forall i: nat, j: nat | Effect(s, u, i) && Effect(s, u, j) && s.disk.outbox[i].messageId == s.disk.outbox[j].messageId ::
                  i == j)
            && C.InStep(u)
  {
    hide Inv, Run, C.DeliverAll;
    var s, u := Run(start, actions), C.DeliverAll(C.NO_ROWS, ds);
    PipelineDurable.EveryRunKeeps(start, actions);
    C.DeliverAllKeeps(C.NO_ROWS, ds);
    IdsDistinct(s);
    hide C.InStep, OnlyPublished, AckedDelivered, RowStored, FromJson;
    forall i: nat | i < |s.disk.outbox| && s.disk.outbox[i].sent ensures Effect(s, u, i) {
      SentHasEffect(s, ds, i);
    }
    forall id | id in u.business ensures exists i: nat :: Effect(s, u, i) && s.disk.outbox[i].messageId == id {
      var i := EffectHasRow(s, ds, id);
    }
  }

  /** The same for a gateway that takes over a database of any earlier version in which nothing was sent yet,
      after any number of failed attempts to migrate it: every row it holds in the end that is sent, old or
      new, has its effect once. */
  lemma MigratedExactlyOnce(f: Migration.File, attempts: seq<Migration.Attempt>, actions: seq<Action>, ds: seq<C.Delivery>)
    requires Migration.WellFormed(f) && MigratedStart.Content(f) && MigratedStart.HexIds(f) && MigratedStart.FromGateway(f)
    requires forall k | 0 <= k < |attempts| :: MigratedStart.DrawsHex(attempts[k])
    requires Migration.OpenedAll(f, attempts).version == Migration.CURRENT
    requires forall i | 0 <= i < |f.rows| :: !f.rows[i].sent
    requires var g := Migration.OpenedAll(f, attempts);
             && Migration.WellFormed(g)
             && var s := Run(Start(MigratedStart.ToTables(g), [], {}, []), actions);
                OnlyPublished(s, ds) && AckedDelivered(s, ds)
    ensures var s := Run(Start(MigratedStart.ToTables(Migration.OpenedAll(f, attempts)), [], {}, []), actions);
            var u := C.DeliverAll(C.NO_ROWS, ds);
            && (forall i: nat | i < |s.disk.outbox| && s.disk.outbox[i].sent :: Effect(s, u, i))
            && (forall id | id in u.business :: exists i: nat :: Effect(s, u, i) && s.disk.outbox[i].messageId == id)
  {
    hide Inv, Effect, Run, Start, OnlyPublished, AckedDelivered, Migration.OpenedAll, C.DeliverAll, MigratedStart.ToTables;
    hide MigratedStart.Content, MigratedStart.HexIds, MigratedStart.FromGateway, Migration.WellFormed, MigratedStart.DrawsHex;
    MigratedStart.MigratedDatabaseStarts(f, attempts, [], {}, []);
    ExactlyOnce(Start(MigratedStart.ToTables(Migration.OpenedAll(f, attempts)), [], {}, []), actions, ds);
  }

  /** No delivery that finds a working database is ever refused: it is processed if its message is new there, and
      a known duplicate otherwise. */
  lemma NoDeliveryIsRefused(start: State, actions: seq<Action>, ds: seq<C.Delivery>, k: nat)
    requires Inv(start)
    requires OnlyPublished(Run(start, actions), ds) && k < |ds| && AllOk(ds[k].codes, C.CALLS)
    ensures var result := C.Deliver(C.DeliverAll(C.NO_ROWS, ds[..k]), ds[k].payload, ds[k].codes).1;
            && result != C.ConsumerError
            && (result == C.ConsumerProcessed <==>
                  forall j | 0 <= j < k && AllOk(ds[j].codes, C.CALLS) :: ds[j].payload != ds[k].payload)
  {
    hide Inv, Run, StemsFrom, Published, C.Deliver, C.DeliverAll;
    var s := Run(start, actions);
    PipelineDurable.EveryRunKeeps(start, actions);
    NeverConflicts(s, ds);
    ParsesWhenPublished(s, ds[k].payload);
    C.NeverRefused(C.NO_ROWS, ds, k);
    C.AnswersFollowFirst(ds, k);
    FirstIffNew(ds, k, C.Parse(ds[k].payload).value.id);
  }

  /** Without conflicts a delivery is the first of its id exactly if its payload is new. */
  lemma FirstIffNew(ds: seq<C.Delivery>, k: nat, id: string)
    requires k < |ds| && C.Carries(ds[k], id) && C.NoConflict(C.NO_ROWS, ds)
    ensures C.FirstWith(ds, id, k) <==> forall j | 0 <= j < k && AllOk(ds[j].codes, C.CALLS) :: ds[j].payload != ds[k].payload
  {
    hide C.Parse;
    forall j | 0 <= j < k ensures C.Carries(ds[j], id) <==> AllOk(ds[j].codes, C.CALLS) && ds[j].payload == ds[k].payload {
      assert C.Carries(ds[j], id) ==> C.SameId(ds[j].payload, ds[k].payload);
    }
  }

  lemma ParsesWhenPublished(s: State, payload: Json)
    requires Inv(s) && Published(s, payload)
    ensures C.Parse(payload).Some?
  {
    var i := PublishedStems(s, payload);
  }
}
