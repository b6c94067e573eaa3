/**
 The tables of the gateway's database and what each SQL statement of the store does to them. Rows are
 kept in rowid order, as SQLite keeps them.
 */
module OutboxTables {
  import opened Common
  import opened Measurements

  const MESSAGE_ID_LENGTH := 32

  datatype MeasurementRow = MeasurementRow(id: int, payload: Json)

  datatype OutboxRow = OutboxRow(
    id: int, measurementId: int, messageId: string, topic: string, sent: bool,
    attempts: int, lastError: Option<string>, sentAtMs: Option<int>)

  datatype Tables = Tables(measurements: seq<MeasurementRow>, outbox: seq<OutboxRow>, interval: Option<int>)

  const EMPTY := Tables([], [], None)

  // ---------------------------------------------------------------- statements

  /** The rowid of an INSERT: one more than the largest. */
  function NextMeasurementId(t: Tables): int {
    if t.measurements == [] then 1 else t.measurements[|t.measurements| - 1].id + 1
  }

  function NextOutboxId(t: Tables): int {
    if t.outbox == [] then 1 else t.outbox[|t.outbox| - 1].id + 1
  }

  function InsertMeasurement(t: Tables, payload: Json): Tables {
    t.(measurements := t.measurements + [MeasurementRow(NextMeasurementId(t), payload)])
  }

  /** The constraints of table outbox: the reference, the two UNIQUEs and the two CHECKs. */
  predicate OutboxAdmits(t: Tables, measurementId: int, messageId: string, topic: string) {
    && (exists i :: 0 <= i < |t.measurements| && t.measurements[i].id == measurementId)
    && (forall i | 0 <= i < |t.outbox| :: t.outbox[i].measurementId != measurementId)
    && MessageIdAdmitted(t, messageId)
    && |topic| > 0
  }

  predicate MessageIdAdmitted(t: Tables, messageId: string) {
    |messageId| == MESSAGE_ID_LENGTH && forall i | 0 <= i < |t.outbox| :: t.outbox[i].messageId != messageId
  }

  function InsertOutbox(t: Tables, measurementId: int, messageId: string, topic: string): Tables {
    t.(outbox := t.outbox + [OutboxRow(NextOutboxId(t), measurementId, messageId, topic, false, 0, None, None)])
  }

  /** Both inserts of a save. */
  function Save(t: Tables, payload: Json, topic: string, messageId: string): Tables {
    InsertOutbox(InsertMeasurement(t, payload), NextMeasurementId(t), messageId, topic)
  }

  function MarkRow(row: OutboxRow, atMs: int): OutboxRow {
    if row.sent then row else row.(sent := true, sentAtMs := Some(atMs), lastError := None)
  }

  function FailRow(row: OutboxRow, text: string): OutboxRow {
    if row.sent then row else row.(attempts := row.attempts + 1, lastError := Some(text))
  }

  function MarkSent(t: Tables, id: int, atMs: int): Tables {
    t.(outbox := seq(|t.outbox|, i requires 0 <= i < |t.outbox| =>
                       if t.outbox[i].id == id then MarkRow(t.outbox[i], atMs) else t.outbox[i]))
  }

  function RecordFailure(t: Tables, id: int, text: string): Tables {
    t.(outbox := seq(|t.outbox|, i requires 0 <= i < |t.outbox| =>
                       if t.outbox[i].id == id then FailRow(t.outbox[i], text) else t.outbox[i]))
  }

  predicate HasRow(t: Tables, id: int) { exists i :: 0 <= i < |t.outbox| && t.outbox[i].id == id }

  /** ORDER BY id LIMIT 1 over the pending rows: the position of the first. */
  function FirstPending(rows: seq<OutboxRow>): (k: nat)
    ensures k <= |rows|
    ensures forall i | 0 <= i < k :: rows[i].sent
    ensures k < |rows| ==> !rows[k].sent
  {
    if rows == [] then 0 else if !rows[0].sent then 0 else 1 + FirstPending(rows[1..])
  }

  function CountSent(rows: seq<OutboxRow>): (n: nat)
    ensures n <= |rows|
  {
    if rows == [] then 0 else (if rows[0].sent then 1 else 0) + CountSent(rows[1..])
  }

  // ---------------------------------------------------------------- what every state keeps

  predicate MeasurementsOrdered(rows: seq<MeasurementRow>) {
    && (forall i | 0 <= i < |rows| :: rows[i].id > 0)
    && (forall i, j | 0 <= i < j < |rows| :: rows[i].id < rows[j].id)
  }

  predicate OutboxOrdered(rows: seq<OutboxRow>) {
    && (forall i | 0 <= i < |rows| :: rows[i].id > 0)
    && (forall i, j | 0 <= i < j < |rows| :: rows[i].id < rows[j].id)
  }

  /** Every outbox row has its own measurement and every measurement its own outbox row. */
  predicate Paired(t: Tables) {
    && |t.outbox| == |t.measurements|
    && (forall i | 0 <= i < |t.outbox| :: t.outbox[i].measurementId == t.measurements[i].id)
  }

  predicate MessageIdsDistinct(rows: seq<OutboxRow>) {
    forall i, j | 0 <= i < j < |rows| :: rows[i].messageId != rows[j].messageId
  }

  predicate RowsOk(rows: seq<OutboxRow>) { forall i | 0 <= i < |rows| :: RowOk(rows[i]) }

  predicate IntervalOk(interval: Option<int>) { interval.Some? ==> 100 <= interval.value <= 60000 }

  ghost predicate Consistent(t: Tables) {
    && MeasurementsOrdered(t.measurements)
    && OutboxOrdered(t.outbox)
    && Paired(t)
    && MessageIdsDistinct(t.outbox)
    && RowsOk(t.outbox)
    && IntervalOk(t.interval)
  }

  /** A row that was sent before the sent time was recorded has none. */
  predicate RowOk(row: OutboxRow) {
    && |row.messageId| == MESSAGE_ID_LENGTH && |row.topic| > 0 && row.attempts >= 0
    && (row.sent ==> row.lastError.None?)
    && (!row.sent ==> row.sentAtMs.None?)
  }

  /** Every sent row knows when; so it is in a database that only this version has written. */
  predicate SentTimed(rows: seq<OutboxRow>) { forall i | 0 <= i < |rows| && rows[i].sent :: rows[i].sentAtMs.Some? }

  /** A row's identity never changes, its state only moves from pending to sent, and a sent row is frozen. */
  predicate RowEvolves(a: OutboxRow, b: OutboxRow) {
    && a.id == b.id && a.measurementId == b.measurementId && a.messageId == b.messageId && a.topic == b.topic
    && a.attempts <= b.attempts
    && (a.sent ==> b == a)
  }

  ghost predicate Evolves(t: Tables, u: Tables) {
    && t.measurements <= u.measurements
    && |t.outbox| <= |u.outbox|
    && (forall i | 0 <= i < |t.outbox| :: RowEvolves(t.outbox[i], u.outbox[i]))
  }

  lemma EvolvesTransitive(t: Tables, u: Tables, v: Tables)
    requires Evolves(t, u) && Evolves(u, v)
    ensures Evolves(t, v)
  {
    forall i | 0 <= i < |t.outbox| ensures RowEvolves(t.outbox[i], v.outbox[i]) {
      assert RowEvolves(t.outbox[i], u.outbox[i]) && RowEvolves(u.outbox[i], v.outbox[i]);
    }
  }

  /** The CHECK and the UNIQUE of the message id. */
  lemma IdAdmittedIff(t: Tables, messageId: string)
    ensures MessageIdAdmitted(t, messageId) <==> |messageId| == 32 && messageId !in set i | 0 <= i < |t.outbox| :: t.outbox[i].messageId
  {}

  /** In a consistent database the outbox accepts the new measurement exactly when the drawn message id
      is new and well formed and the topic is not empty. */
  lemma AdmitsAfterInsert(t: Tables, payload: Json, topic: string, messageId: string)
    requires Consistent(t)
    ensures OutboxAdmits(InsertMeasurement(t, payload), NextMeasurementId(t), messageId, topic)
            <==> MessageIdAdmitted(t, messageId) && |topic| > 0
  {
    var u := InsertMeasurement(t, payload);
    assert u.measurements[|t.measurements|].id == NextMeasurementId(t);
    forall i | 0 <= i < |t.outbox| ensures t.outbox[i].measurementId < NextMeasurementId(t) {
      var last := |t.measurements| - 1;
      assert i < last ==> t.measurements[i].id < t.measurements[last].id;
    }
  }

  lemma OrderedAppend(rows: seq<OutboxRow>, row: OutboxRow)
    requires OutboxOrdered(rows) && row.id == (if rows == [] then 1 else rows[|rows| - 1].id + 1)
    ensures OutboxOrdered(rows + [row])
  {
    forall i | 0 <= i < |rows| ensures rows[i].id < row.id {
      assert i < |rows| - 1 ==> rows[i].id < rows[|rows| - 1].id;
    }
  }

  lemma MeasurementsAppend(rows: seq<MeasurementRow>, row: MeasurementRow)
    requires MeasurementsOrdered(rows) && row.id == (if rows == [] then 1 else rows[|rows| - 1].id + 1)
    ensures MeasurementsOrdered(rows + [row])
  {
    forall i | 0 <= i < |rows| ensures rows[i].id < row.id {
      assert i < |rows| - 1 ==> rows[i].id < rows[|rows| - 1].id;
    }
  }

  lemma SaveKeeps(t: Tables, payload: Json, topic: string, messageId: string)
    requires Consistent(t) && MessageIdAdmitted(t, messageId) && |topic| > 0
    ensures Consistent(Save(t, payload, topic, messageId))
    ensures Evolves(t, Save(t, payload, topic, messageId))
  {
    hide OutboxOrdered, MeasurementsOrdered;
    var u := Save(t, payload, topic, messageId);
    var n := |t.outbox|;
    OrderedAppend(t.outbox, u.outbox[n]);
    MeasurementsAppend(t.measurements, u.measurements[n]);
  }

  /** An update that only evolves rows and keeps each of them well formed keeps the database consistent. */
  lemma UpdateKeeps(t: Tables, u: Tables)
    requires Consistent(t) && u.measurements == t.measurements && IntervalOk(u.interval)
    requires |u.outbox| == |t.outbox| && RowsOk(u.outbox)
    requires forall i | 0 <= i < |t.outbox| :: RowEvolves(t.outbox[i], u.outbox[i])
    ensures Consistent(u) && Evolves(t, u)
  {
    assert forall i | 0 <= i < |t.outbox| ::
        u.outbox[i].id == t.outbox[i].id && u.outbox[i].messageId == t.outbox[i].messageId
        && u.outbox[i].measurementId == t.outbox[i].measurementId;
  }

  lemma MarkSentKeeps(t: Tables, id: int, atMs: int)
    requires Consistent(t)
    ensures Consistent(MarkSent(t, id, atMs)) && Evolves(t, MarkSent(t, id, atMs))
  {
    UpdateKeeps(t, MarkSent(t, id, atMs));
  }

  lemma RecordFailureKeeps(t: Tables, id: int, text: string)
    requires Consistent(t)
    ensures Consistent(RecordFailure(t, id, text)) && Evolves(t, RecordFailure(t, id, text))
  {
    UpdateKeeps(t, RecordFailure(t, id, text));
  }

  /** A save adds exactly one row, at the end; the other statements add none. */
  lemma SaveAppends(t: Tables, payload: Json, topic: string, messageId: string)
    requires Consistent(t)
    ensures var u := Save(t, payload, topic, messageId);
            && u.outbox[..|t.outbox|] == t.outbox && |u.outbox| == |t.outbox| + 1
            && u.measurements[..|t.outbox|] == t.measurements
            && u.measurements[|t.outbox|].payload == payload
            && u.outbox[|t.outbox|].topic == topic && u.outbox[|t.outbox|].messageId == messageId
            && !u.outbox[|t.outbox|].sent && u.outbox[|t.outbox|].attempts == 0
            && u.outbox[|t.outbox|].lastError == None && u.interval == t.interval
  {}
}
