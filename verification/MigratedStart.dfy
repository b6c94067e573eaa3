/**
 A database written by an older version, once it has been opened, is one the store and the pipeline can
 start on.
 */
module MigratedStart {
  import opened Common
  import opened Measurements
  import opened OutboxTables
  import opened Migration
  import Pub = Publisher
  import Pipeline
  import opened PipelineInvariant

  /** What every version kept true of its rows, with the columns it had. */
  predicate Content(f: File) {
    && MeasurementsOrdered(f.measurements)
    && |f.rows| == |f.measurements|
    && (forall i | 0 <= i < |f.rows| :: f.rows[i].id > 0 && f.rows[i].measurementId == f.measurements[i].id && f.rows[i].topic != "")
    && (forall i, j | 0 <= i < j < |f.rows| :: f.rows[i].id < f.rows[j].id)
    && (forall i | 0 <= i < |f.rows| && f.rows[i].delivery.Some? :: DeliveryOk(f.rows[i].sent, f.rows[i].delivery.value))
    && IntervalOk(f.interval) && (!f.hasConfig ==> f.interval.None?)
  }

  predicate DeliveryOk(sent: bool, d: Delivery) {
    d.attempts >= 0 && (sent ==> d.lastError.None?) && (!sent ==> d.sentAtMs.None?)
  }

  /** Message ids, where there are any, have the form that lower(hex(randomblob(16))) yields. */
  predicate HexIds(f: File) { forall i | 0 <= i < |f.rows| && f.rows[i].messageId.Some? :: HexId(f.rows[i].messageId.value) }

  predicate DrawsHex(a: Attempt) { forall i | 0 <= i < |a.ids| :: HexId(a.ids[i]) }

  /** Every row stems from a valid measurement with its topic, and the sent rows come first. */
  predicate FromGateway(f: File) {
    && |f.rows| == |f.measurements|
    && (forall i | 0 <= i < |f.rows| ::
          var m := FromJson(f.measurements[i].payload);
          m.Some? && Valid(m.value) && f.measurements[i].payload == ToJson(m.value) && f.rows[i].topic == Pipeline.Topic(m.value))
    && (forall i, j | 0 <= i < j < |f.rows| && f.rows[j].sent :: f.rows[i].sent)
  }

  /** The current file as the store sees it. */
  function ToTables(f: File): Tables
    requires WellFormed(f) && f.version == CURRENT
  {
    Tables(f.measurements,
           seq(|f.rows|, i requires 0 <= i < |f.rows| =>
                 var row := f.rows[i];
                 var d := row.delivery.value;
                 OutboxRow(row.id, row.measurementId, row.messageId.value, row.topic, row.sent, d.attempts, d.lastError, d.sentAtMs)),
           f.interval)
  }

  // ---------------------------------------------------------------- migration keeps it

  lemma UpgradeKeepsContent(f: File, a: Attempt)
    requires WellFormed(f) && ScriptSucceeds(f, a)
    ensures Content(f) ==> Content(Upgraded(f, a))
    ensures HexIds(f) && DrawsHex(a) ==> HexIds(Upgraded(f, a))
    ensures FromGateway(f) ==> FromGateway(Upgraded(f, a))
  {
    hide FromJson, ToJson, Valid, HexId, Pipeline.Topic;
  }

  lemma {:induction false} OpenKeepsContent(f: File, a: Attempt)
    requires WellFormed(f) && Content(f) && HexIds(f) && DrawsHex(a) && FromGateway(f)
    ensures Content(Opened(f, a)) && HexIds(Opened(f, a)) && FromGateway(Opened(f, a))
    decreases CURRENT - f.version
  {
    hide WellFormed, Content, HexIds, FromGateway, Upgraded, DrawsHex;
    if ScriptSucceeds(f, a) {
      UpgradeKeeps(f, a);
      UpgradeKeepsContent(f, a);
      OpenKeepsContent(Upgraded(f, a), a);
    }
  }

  lemma {:induction false} AttemptsKeepContent(f: File, attempts: seq<Attempt>)
    requires WellFormed(f) && Content(f) && HexIds(f) && FromGateway(f)
    requires forall k | 0 <= k < |attempts| :: DrawsHex(attempts[k])
    ensures var g := OpenedAll(f, attempts); WellFormed(g) && Content(g) && HexIds(g) && FromGateway(g)
    decreases |attempts|
  {
    hide WellFormed, Content, HexIds, FromGateway, DrawsHex, Opened;
    if attempts != [] {
      OpenKeeps(f, attempts[0]);
      OpenKeepsContent(f, attempts[0]);
      AttemptsKeepContent(Opened(f, attempts[0]), attempts[1..]);
    }
  }

  // ---------------------------------------------------------------- the store and the pipeline can start

  lemma CurrentIsConsistent(f: File)
    requires WellFormed(f) && f.version == CURRENT && Content(f)
    ensures Consistent(ToTables(f))
  {
    var t := ToTables(f);
    assert forall i | 0 <= i < |f.rows| :: t.outbox[i].id == f.rows[i].id && t.outbox[i].messageId == f.rows[i].messageId.value;
    assert DistinctIds(f.rows);
    forall i | 0 <= i < |f.rows| ensures RowOk(t.outbox[i]) {
      assert DeliveryOk(f.rows[i].sent, f.rows[i].delivery.value);
    }
  }

  lemma CurrentIsDiskOk(f: File)
    requires WellFormed(f) && f.version == CURRENT && Content(f) && HexIds(f) && FromGateway(f)
    ensures DiskOk(ToTables(f))
  {
    hide FromJson, ToJson, Valid, HexId, Pipeline.Topic, Consistent;
    CurrentIsConsistent(f);
    var t := ToTables(f);
    assert |t.outbox| == |t.measurements|;
    forall i | 0 <= i < |t.outbox| ensures RowStored(t, i) {
      assert t.outbox[i].topic == f.rows[i].topic && t.outbox[i].messageId == f.rows[i].messageId.value;
    }
    var k := FirstPending(t.outbox);
    forall i | k <= i < |t.outbox| ensures !t.outbox[i].sent {
      assert t.outbox[i].sent == f.rows[i].sent && (k < |f.rows| ==> t.outbox[k].sent == f.rows[k].sent);
    }
  }

  lemma CurrentStarts(g: File, published: seq<Pub.Message>, acked: set<nat>, history: seq<Pipeline.Attempt>)
    requires WellFormed(g) && g.version == CURRENT && DiskOk(ToTables(g))
    requires forall i | i in acked :: i < |published|
    ensures AttemptsOk(ToTables(g), history, published) && SentDelivered(ToTables(g), history, acked) ==>
              Inv(Pipeline.Start(ToTables(g), published, acked, history))
    ensures FirstPending(ToTables(g).outbox) == 0 ==> Inv(Pipeline.Start(ToTables(g), published, acked, []))
  {
    var t := ToTables(g);
    assert |t.outbox| == |t.measurements|;
    if AttemptsOk(t, history, published) && SentDelivered(t, history, acked) {
      StartOk(t, published, acked, history);
    }
    if FirstPending(t.outbox) == 0 {
      NoHistory(t, published, acked);
      StartOk(t, published, acked, []);
    }
    hide Inv, Pipeline.Start, ToTables;
  }

  /** After any number of attempts, however they failed, a database of any earlier version that has reached
      the current one satisfies the store's invariant, and the pipeline can start on it: with the record of
      the publications behind the rows already sent, or with no record at all if none was sent. */
  lemma MigratedDatabaseStarts(f: File, attempts: seq<Attempt>, published: seq<Pub.Message>, acked: set<nat>,
                               history: seq<Pipeline.Attempt>)
    requires WellFormed(f) && Content(f) && HexIds(f) && FromGateway(f)
    requires forall k | 0 <= k < |attempts| :: DrawsHex(attempts[k])
    requires OpenedAll(f, attempts).version == CURRENT
    requires forall i | i in acked :: i < |published|
    ensures var g := OpenedAll(f, attempts);
            && WellFormed(g) && DiskOk(ToTables(g))
            && (AttemptsOk(ToTables(g), history, published) && SentDelivered(ToTables(g), history, acked) ==>
                  Inv(Pipeline.Start(ToTables(g), published, acked, history)))
            && ((forall i | 0 <= i < |f.rows| :: !f.rows[i].sent) ==> Inv(Pipeline.Start(ToTables(g), published, acked, [])))
  {
    hide Inv, Content, HexIds, FromGateway, OpenedAll, DiskOk, AttemptsOk, SentDelivered, ToTables, Pipeline.Start, WellFormed;
    AttemptsKeepContent(f, attempts);
    AttemptsKeep(f, attempts);
    var g := OpenedAll(f, attempts);
    CurrentIsDiskOk(g);
    CurrentStarts(g, published, acked, history);
    if forall i | 0 <= i < |f.rows| :: !f.rows[i].sent { NothingSentYet(f, g); }
  }

  lemma NoHistory(t: Tables, published: seq<Pub.Message>, acked: set<nat>)
    requires DiskOk(t) && FirstPending(t.outbox) == 0
    ensures AttemptsOk(t, [], published) && SentDelivered(t, [], acked)
  {}

  lemma NothingSentYet(f: File, g: File)
    requires WellFormed(g) && g.version == CURRENT && Preserved(f, g) && forall i | 0 <= i < |f.rows| :: !f.rows[i].sent
    ensures FirstPending(ToTables(g).outbox) == 0
  {
    if |g.rows| > 0 { assert SameRow(f.rows[0], g.rows[0]); }
  }
}
