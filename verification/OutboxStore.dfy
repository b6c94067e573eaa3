/**
 The store of modules/storage/outbox_store.c over one SQLite connection. `committed` is what a crash
 leaves behind, `working` is what the connection sees, and every SQLite call may fail: `codes` holds the
 result code of each call of an operation in order, and calls beyond its end succeed. As SQLite
 documents, finalizing a statement that ran to completion does not fail.
 */
module OutboxStore {
  import opened Common
  import opened Measurements
  import opened OutboxTables

  datatype SqlCode = SqlOk | SqlBusy | SqlLocked | SqlNoMem | SqlOther

  datatype StoreResult =
    | StoreOk | StoreEmpty | NotFound | InvalidArgument | Busy | DbError | SchemaError | SerializationError | NoMemory

  function MapSqlite(rc: SqlCode): StoreResult {
    match rc
    case SqlOk => StoreOk
    case SqlBusy => Busy
    case SqlLocked => Busy
    case SqlNoMem => NoMemory
    case SqlOther => DbError
  }

  function Code(codes: seq<SqlCode>, k: nat): SqlCode { if k < |codes| then codes[k] else SqlOk }

  predicate AllOk(codes: seq<SqlCode>, n: nat) { forall k | 0 <= k < n :: Code(codes, k) == SqlOk }

  /** The mapped code of the first call among the first `n` that fails. */
  function FirstFailure(codes: seq<SqlCode>, n: nat): (r: StoreResult)
    ensures r == StoreOk <==> AllOk(codes, n)
  {
    if n == 0 then StoreOk
    else if FirstFailure(codes, n - 1) != StoreOk then FirstFailure(codes, n - 1)
    else MapSqlite(Code(codes, n - 1))
  }

  // ---------------------------------------------------------------- the store as a value

  datatype Db = Db(committed: Tables, working: Tables, inTx: bool)

  datatype Op =
    | SaveOp(m: Measurement, memory: bool, topic: string, messageId: string, codes: seq<SqlCode>)
    | MarkSentOp(id: int, atMs: int, codes: seq<SqlCode>)
    | FailureOp(id: int, text: string, codes: seq<SqlCode>)
    | IntervalOp(ms: int, codes: seq<SqlCode>)
    | ReopenOp // a clean close or a crash, then a new connection

  // The calls of a save: 0 BEGIN, 1-3 first insert, 4-7 second insert, 8 COMMIT, 9 ROLLBACK.
  const COMMIT_CALL := 8
  const ROLLBACK_CALL := 9

  predicate SaveStarts(db: Db, op: Op)
    requires op.SaveOp?
  {
    Valid(op.m) && op.memory && op.topic != "" && !db.inTx && Code(op.codes, 0) == SqlOk
  }

  predicate SecondInsertAdmitted(t: Tables, op: Op)
    requires op.SaveOp?
  {
    OutboxAdmits(InsertMeasurement(t, ToJson(op.m)), NextMeasurementId(t), op.messageId, op.topic)
  }

  predicate SaveCommits(db: Db, op: Op)
    requires op.SaveOp?
  {
    SaveStarts(db, op) && AllOk(op.codes, COMMIT_CALL + 1) && SecondInsertAdmitted(db.committed, op)
  }

  /** What an abandoned save has written inside its transaction. */
  function Partial(t: Tables, op: Op): Tables
    requires op.SaveOp?
  {
    if !AllOk(op.codes, 4) then t
    else if !AllOk(op.codes, 8) || !SecondInsertAdmitted(t, op) then InsertMeasurement(t, ToJson(op.m))
    else Save(t, ToJson(op.m), op.topic, op.messageId)
  }

  /** A single statement: committed at once, unless a transaction was left open. */
  function Statement(db: Db, after: Tables): Db {
    db.(working := after, committed := if db.inTx then db.committed else after)
  }

  function After(db: Db, op: Op): Db {
    match op
    case SaveOp(m, _, topic, messageId, codes) =>
      if SaveCommits(db, op) then
        var saved := Save(db.committed, ToJson(m), topic, messageId);
        Db(saved, saved, false)
      else if !SaveStarts(db, op) then db
      else if Code(codes, ROLLBACK_CALL) == SqlOk then Db(db.committed, db.committed, false)
      else Db(db.committed, Partial(db.committed, op), true)
    case MarkSentOp(id, atMs, codes) =>
      if AllOk(codes, 4) then Statement(db, MarkSent(db.working, id, atMs)) else db
    case FailureOp(id, text, codes) =>
      if text != "" && AllOk(codes, 4) then Statement(db, RecordFailure(db.working, id, text)) else db
    case IntervalOp(ms, codes) =>
      if 100 <= ms <= 60000 && AllOk(codes, 3) then Statement(db, db.working.(interval := Some(ms))) else db
    case ReopenOp => Db(db.committed, db.committed, false)
  }

  function RunOps(db: Db, ops: seq<Op>): Db
    decreases |ops|
  {
    if ops == [] then db else RunOps(After(db, ops[0]), ops[1..])
  }

  // ---------------------------------------------------------------- all runs

  ghost predicate Sound(db: Db) {
    Consistent(db.committed) && (!db.inTx ==> db.working == db.committed)
  }

  lemma AfterKeepsTimes(db: Db, op: Op)
    requires Sound(db)
    ensures SentTimed(db.committed.outbox) ==> SentTimed(After(db, op).committed.outbox)
  {
    hide Consistent, SaveCommits, SaveStarts, Partial;
  }

  lemma AfterKeeps(db: Db, op: Op)
    requires Sound(db)
    ensures Sound(After(db, op))
    ensures Evolves(db.committed, After(db, op).committed)
    ensures SentTimed(db.committed.outbox) ==> SentTimed(After(db, op).committed.outbox)
  {
    hide Consistent, OutboxAdmits;
    AfterKeepsTimes(db, op);
    hide Save, SentTimed;
    var t := db.committed;
    match op {
      case SaveOp(m, _, topic, messageId, _) =>
        AdmitsAfterInsert(t, ToJson(m), topic, messageId);
        if SaveCommits(db, op) { SaveKeeps(t, ToJson(m), topic, messageId); }
      case MarkSentOp(id, atMs, _) => MarkSentKeeps(t, id, atMs);
      case FailureOp(id, text, _) => RecordFailureKeeps(t, id, text);
      case IntervalOp(ms, _) => IntervalKeeps(t, ms);
      case ReopenOp =>
    }
  }

  lemma IntervalKeeps(t: Tables, ms: int)
    requires Consistent(t)
    ensures 100 <= ms <= 60000 ==> Consistent(t.(interval := Some(ms))) && Evolves(t, t.(interval := Some(ms)))
    ensures Evolves(t, t)
  {}

  /** Whatever fails and however often the process restarts: outbox rows and measurements stay in
      bijection, ids and message ids stay distinct, a state only moves from pending to sent, and the
      first sent time, the attempt count and the error of a sent row never change again; and in a
      database that only these operations wrote, every sent row has its sent time. */
  lemma {:induction false} EveryRunKeeps(db: Db, ops: seq<Op>)
    requires Sound(db)
    ensures Sound(RunOps(db, ops))
    ensures Evolves(db.committed, RunOps(db, ops).committed)
    ensures SentTimed(db.committed.outbox) ==> SentTimed(RunOps(db, ops).committed.outbox)
    decreases |ops|
  {
    hide Consistent, SentTimed;
    if ops == [] {
      IntervalKeeps(db.committed, 0);
    } else {
      AfterKeeps(db, ops[0]);
      EveryRunKeeps(After(db, ops[0]), ops[1..]);
      EvolvesTransitive(db.committed, After(db, ops[0]).committed, RunOps(db, ops).committed);
    }
  }

  /** A save commits both rows or nothing, and it commits exactly when no call failed, the connection was
      not stuck in a transaction, the input was acceptable and the drawn message id was new. */
  lemma SaveIsAllOrNothing(db: Db, op: Op)
    requires Sound(db) && op.SaveOp?
    ensures var c, d := db.committed, After(db, op).committed;
            var accepted := && Valid(op.m) && op.memory && op.topic != "" && !db.inTx
                            && AllOk(op.codes, COMMIT_CALL + 1) && MessageIdAdmitted(c, op.messageId);
            && (accepted ==> d == Save(c, ToJson(op.m), op.topic, op.messageId))
            && (!accepted ==> d == c)
            && (accepted <==> |d.outbox| == |c.outbox| + 1)
            && (accepted <==> |d.measurements| == |c.measurements| + 1)
            && (SaveResult(db, op) == StoreOk <==> accepted)
  {
    hide Consistent, OutboxAdmits;
    AdmitsAfterInsert(db.committed, ToJson(op.m), op.topic, op.messageId);
  }

  /** The result code of a save. */
  function SaveResult(db: Db, op: Op): StoreResult
    requires op.SaveOp?
  {
    if op.topic == "" then InvalidArgument
    else if !Valid(op.m) then SerializationError
    else if !op.memory then NoMemory
    else if db.inTx then DbError
    else if !AllOk(op.codes, 8) then FirstFailure(op.codes, 8)
    else if !SecondInsertAdmitted(db.committed, op) then DbError
    else MapSqlite(Code(op.codes, COMMIT_CALL))
  }

  /** What a save reports: the arguments are looked at first, then memory, then the transaction, then the calls
      in order; a message id that is taken is a database error. */
  lemma SaveReports(db: Db, op: Op)
    requires Sound(db) && op.SaveOp?
    ensures var result := SaveResult(db, op);
            && (result == InvalidArgument <==> op.topic == "")
            && (result == SerializationError <==> op.topic != "" && !Valid(op.m))
            && (op.topic != "" && Valid(op.m) && !op.memory ==> result == NoMemory)
            && (op.topic != "" && Valid(op.m) && op.memory && db.inTx ==> result == DbError)
            && (op.topic != "" && Valid(op.m) && op.memory && !db.inTx ==>
                  && (!AllOk(op.codes, 8) ==> result == FirstFailure(op.codes, 8))
                  && (AllOk(op.codes, 8) && !MessageIdAdmitted(db.committed, op.messageId) ==> result == DbError)
                  && (AllOk(op.codes, 8) && MessageIdAdmitted(db.committed, op.messageId) ==> result == FirstFailure(op.codes, 9)))
  {
    hide Consistent, OutboxAdmits;
    AdmitsAfterInsert(db.committed, ToJson(op.m), op.topic, op.messageId);
    NamedFailures(op.codes, 8);
  }

  lemma {:induction false} NamedFailures(codes: seq<SqlCode>, n: nat)
    ensures FirstFailure(codes, n) in {StoreOk, Busy, NoMemory, DbError}
    decreases n
  {
    if n > 0 { NamedFailures(codes, n - 1); }
  }

  /** When a connection is stuck in a transaction: exactly after a save that began, did not commit and could not
      be rolled back, until the database is opened again. */
  lemma StuckIff(db: Db, op: Op)
    requires Sound(db)
    ensures After(db, op).inTx <==>
              || (db.inTx && op != ReopenOp)
              || (op.SaveOp? && !db.inTx && SaveResult(db, op) != StoreOk && op.topic != "" && Valid(op.m) && op.memory
                  && Code(op.codes, 0) == SqlOk && Code(op.codes, ROLLBACK_CALL) != SqlOk)
  {
    hide Consistent, OutboxAdmits, Partial, Save;
    if op.SaveOp? { AllOkSplits(op.codes); }
  }

  lemma AllOkSplits(codes: seq<SqlCode>)
    ensures AllOk(codes, 9) <==> AllOk(codes, 8) && Code(codes, 8) == SqlOk
  {}

  /** What such a connection sees: the first row once its insert went through, and the second one once that did;
      on disk there is neither. */
  lemma StuckSees(db: Db, op: Op)
    requires Sound(db) && op.SaveOp? && !db.inTx && After(db, op).inTx
    ensures var d := After(db, op);
            && d.committed == db.committed
            && |d.working.measurements| == |db.committed.measurements| + (if AllOk(op.codes, 4) then 1 else 0)
            && |d.working.outbox| == |db.committed.outbox|
                                     + (if AllOk(op.codes, 8) && MessageIdAdmitted(db.committed, op.messageId) then 1 else 0)
  {
    AdmitsAfterInsert(db.committed, ToJson(op.m), op.topic, op.messageId);
    assert AllOk(op.codes, 8) ==> AllOk(op.codes, 4);
    hide Consistent, OutboxAdmits;
  }

  // ---------------------------------------------------------------- counts

  function CountPending(rows: seq<OutboxRow>): nat {
    if rows == [] then 0 else (if rows[0].sent then 0 else 1) + CountPending(rows[1..])
  }

  lemma {:induction false} CountsAddUp(rows: seq<OutboxRow>)
    ensures CountPending(rows) + CountSent(rows) == |rows|
    decreases |rows|
  {
    if rows != [] { CountsAddUp(rows[1..]); }
  }

  /** The positions of the rows in one state. */
  function Positions(rows: seq<OutboxRow>, sent: bool): set<int> { set i | 0 <= i < |rows| && rows[i].sent == sent }

  lemma PositionsSnoc(front: seq<OutboxRow>, row: OutboxRow, sent: bool)
    ensures |Positions(front + [row], sent)| == |Positions(front, sent)| + (if row.sent == sent then 1 else 0)
  {
    var n := |front|;
    assert Positions(front + [row], sent) == if row.sent == sent then Positions(front, sent) + {n} else Positions(front, sent);
  }

  /** The two counts are the numbers of rows in either state. */
  lemma {:induction false} CountsAreNumbers(rows: seq<OutboxRow>)
    ensures CountPending(rows) == |Positions(rows, false)| && CountSent(rows) == |Positions(rows, true)|
    decreases |rows|
  {
    if rows != [] {
      hide Positions;
      var n := |rows| - 1;
      CountsAreNumbers(rows[..n]);
      CountsSnoc(rows, n);
      PositionsSnoc(rows[..n], rows[n], false);
      PositionsSnoc(rows[..n], rows[n], true);
      assert rows[..n + 1] == rows == rows[..n] + [rows[n]];
    }
  }

  /** In every state a run can leave behind, pending and sent add up to the measurements. */
  lemma StatsAddUp(ops: seq<Op>)
    ensures var t := RunOps(Db(EMPTY, EMPTY, false), ops).committed;
            CountPending(t.outbox) + CountSent(t.outbox) == |t.measurements| == |t.outbox|
  {
    EveryRunKeeps(Db(EMPTY, EMPTY, false), ops);
    CountsAddUp(RunOps(Db(EMPTY, EMPTY, false), ops).committed.outbox);
  }

  // ---------------------------------------------------------------- the connection

  datatype Stats = Stats(measurementTotal: nat, pendingCount: nat, sentCount: nat)

  /** An outbox item as read_earliest_pending hands it out. */
  datatype Item = Item(id: int, measurementId: int, attempts: int, messageId: string, topic: string, payload: Json)

  class Store {
    var committed: Tables
    var working: Tables
    var inTx: bool

    ghost function Abs(): Db
      reads this
    {
      Db(committed, working, inTx)
    }

    constructor (onDisk: Tables)
      ensures Abs() == Db(onDisk, onDisk, false)
    {
      committed, working, inTx := onDisk, onDisk, false;
    }

    /** outbox_store_save_measurement. */
    method SaveMeasurement(m: Measurement, memory: bool, topic: string, messageId: string, codes: seq<SqlCode>)
      returns (result: StoreResult)
      requires Sound(Abs())
      modifies this
      ensures Abs() == After(old(Abs()), SaveOp(m, memory, topic, messageId, codes))
      ensures result == SaveResult(old(Abs()), SaveOp(m, memory, topic, messageId, codes))
    {
      hide Consistent;
      if topic == "" {
        return InvalidArgument;
      }
      if !Valid(m) {
        return SerializationError;
      }
      if !memory {
        return NoMemory;
      }
      if inTx {
        return DbError; // BEGIN inside a transaction
      }
      if Code(codes, 0) != SqlOk {
        return FirstOf(codes, 0, 8);
      }
      inTx := true;
      result := InsertBoth(m, topic, messageId, codes);
      if result == StoreOk {
        result := MapSqlite(Code(codes, COMMIT_CALL));
        if result == StoreOk {
          committed := working;
          inTx := false;
        }
      }
      if inTx && Code(codes, ROLLBACK_CALL) == SqlOk {
        working := committed;
        inTx := false;
      }
    }

    /** The two inserts between BEGIN and COMMIT, stopping at the first call that fails. */
    method InsertBoth(m: Measurement, topic: string, messageId: string, codes: seq<SqlCode>)
      returns (result: StoreResult)
      requires inTx && working == committed && Code(codes, 0) == SqlOk
      modifies this`working
      ensures var op := SaveOp(m, true, topic, messageId, codes);
              && working == Partial(old(working), op)
              && result == (if !AllOk(codes, 8) then FirstFailure(codes, 8)
                            else if !SecondInsertAdmitted(old(working), op) then DbError
                            else StoreOk)
    {
      hide OutboxAdmits;
      var call := 1;
      while call < 4
        invariant 1 <= call <= 4 && AllOk(codes, call)
      {
        if Code(codes, call) != SqlOk {
          return FirstOf(codes, call, 8);
        }
        call := call + 1;
      }
      var measurementId := NextMeasurementId(working);
      working := InsertMeasurement(working, ToJson(m));
      while call < 8
        invariant 4 <= call <= 8 && AllOk(codes, call)
      {
        if Code(codes, call) != SqlOk {
          return FirstOf(codes, call, 8);
        }
        call := call + 1;
      }
      if !OutboxAdmits(working, measurementId, messageId, topic) {
        return DbError;
      }
      working := InsertOutbox(working, measurementId, messageId, topic);
      return StoreOk;
    }

    /** outbox_store_read_earliest_pending: the pending row with the smallest id, joined with its
        measurement. `memory` says whether the two copies could be allocated. */
    method ReadEarliestPending(memory: bool, codes: seq<SqlCode>) returns (result: StoreResult, item: Option<Item>)
      requires Consistent(working)
      ensures !AllOk(codes, 2) ==> result == FirstFailure(codes, 2)
      ensures AllOk(codes, 2) && FirstPending(working.outbox) == |working.outbox| ==> result == StoreEmpty
      ensures AllOk(codes, 2) && FirstPending(working.outbox) < |working.outbox| ==>
                result == if memory then StoreOk else NoMemory
      ensures result == StoreOk <==> item.Some?
      ensures item.Some? ==> IsEarliestPending(working, item.value)
    {
      if Code(codes, 0) != SqlOk {
        return FirstOf(codes, 0, 2), None;
      }
      if Code(codes, 1) != SqlOk {
        return FirstOf(codes, 1, 2), None;
      }
      var k := FirstPending(working.outbox);
      if k == |working.outbox| {
        return StoreEmpty, None;
      }
      var row := working.outbox[k];
      if row.attempts < 0 || |row.messageId| != MESSAGE_ID_LENGTH {
        return DbError, None;
      }
      if !memory {
        return NoMemory, None;
      }
      EarliestIsFirst(working, k);
      var found := Item(row.id, row.measurementId, row.attempts, row.messageId, row.topic, working.measurements[k].payload);
      return StoreOk, Some(found);
    }

    /** outbox_store_mark_sent. */
    method MarkAsSent(id: int, atMs: int, codes: seq<SqlCode>) returns (result: StoreResult)
      modifies this
      ensures Abs() == After(old(Abs()), MarkSentOp(id, atMs, codes))
      ensures result == if !AllOk(codes, 4) then FirstFailure(codes, 4)
                        else if HasRow(old(working), id) then StoreOk else NotFound
    {
      result := FirstFailure(codes, 4);
      if result != StoreOk {
        return;
      }
      var affected := 0;
      var rows := working.outbox;
      for i := 0 to |rows|
        invariant |rows| == |working.outbox|
        invariant forall k | 0 <= k < |rows| ::
            rows[k] == if k < i && working.outbox[k].id == id then MarkRow(working.outbox[k], atMs) else working.outbox[k]
        invariant affected > 0 <==> exists k :: 0 <= k < i && working.outbox[k].id == id
      {
        if rows[i].id == id {
          rows := rows[i := rows[i].(sent := true,
                                     sentAtMs := if rows[i].sent then rows[i].sentAtMs else Some(atMs),
                                     lastError := if rows[i].sent then rows[i].lastError else None)];
          affected := affected + 1;
        }
      }
      Write(rows, MarkSent(working, id, atMs));
      return if affected == 0 then NotFound else StoreOk;
    }

    /** outbox_store_record_delivery_failure. */
    method RecordDeliveryFailure(id: int, text: string, codes: seq<SqlCode>) returns (result: StoreResult)
      modifies this
      ensures Abs() == After(old(Abs()), FailureOp(id, text, codes))
      ensures result == if text == "" then InvalidArgument
                        else if !AllOk(codes, 4) then FirstFailure(codes, 4)
                        else if HasRow(old(working), id) then StoreOk else NotFound
    {
      if text == "" {
        return InvalidArgument;
      }
      result := FirstFailure(codes, 4);
      if result != StoreOk {
        return;
      }
      var affected := 0;
      var rows := working.outbox;
      for i := 0 to |rows|
        invariant |rows| == |working.outbox|
        invariant forall k | 0 <= k < |rows| ::
            rows[k] == if k < i && working.outbox[k].id == id then FailRow(working.outbox[k], text) else working.outbox[k]
        invariant affected > 0 <==> exists k :: 0 <= k < i && working.outbox[k].id == id
      {
        if rows[i].id == id {
          rows := rows[i := rows[i].(attempts := if rows[i].sent then rows[i].attempts else rows[i].attempts + 1,
                                     lastError := if rows[i].sent then rows[i].lastError else Some(text))];
          affected := affected + 1;
        }
      }
      Write(rows, RecordFailure(working, id, text));
      return if affected == 0 then NotFound else StoreOk;
    }

    /** End of an UPDATE: outside a transaction it is committed at once. */
    method Write(rows: seq<OutboxRow>, ghost expected: Tables)
      requires expected == working.(outbox := rows)
      modifies this
      ensures Abs() == Statement(old(Abs()), expected)
    {
      working := working.(outbox := rows);
      if !inTx {
        committed := working;
      }
    }

    /** outbox_store_save_interval. */
    method SaveInterval(ms: int, codes: seq<SqlCode>) returns (result: StoreResult)
      modifies this
      ensures Abs() == After(old(Abs()), IntervalOp(ms, codes))
      ensures result == if ms < 100 || ms > 60000 then InvalidArgument else FirstFailure(codes, 3)
    {
      if ms < 100 || ms > 60000 {
        return InvalidArgument;
      }
      result := FirstFailure(codes, 3);
      if result == StoreOk {
        working := working.(interval := Some(ms));
        if !inTx {
          committed := working;
        }
      }
    }

    /** outbox_store_load_interval. */
    method LoadInterval(codes: seq<SqlCode>) returns (result: StoreResult, ms: Option<int>)
      requires Consistent(working)
      ensures result == if !AllOk(codes, 2) then FirstFailure(codes, 2)
                        else if working.interval.None? then StoreEmpty else StoreOk
      ensures ms == if result == StoreOk then working.interval else None
    {
      result := FirstFailure(codes, 2);
      if result != StoreOk {
        return result, None;
      }
      match working.interval {
        case None => return StoreEmpty, None;
        case Some(value) =>
          if value < 100 || value > 60000 {
            return SchemaError, None;
          }
          return StoreOk, Some(value);
      }
    }

    /** outbox_store_get_stats. */
    method GetStats(codes: seq<SqlCode>) returns (result: StoreResult, stats: Option<Stats>)
      requires Consistent(working)
      ensures result == FirstFailure(codes, 2)
      ensures result == StoreOk <==> stats.Some?
      ensures stats.Some? ==>
                && stats.value.measurementTotal == |working.measurements|
                && stats.value.pendingCount == CountPending(working.outbox)
                && stats.value.sentCount == CountSent(working.outbox)
                && stats.value.measurementTotal == stats.value.pendingCount + stats.value.sentCount
    {
      result := FirstFailure(codes, 2);
      if result != StoreOk {
        return result, None;
      }
      var pending, sent := 0, 0;
      for i := 0 to |working.outbox|
        invariant pending == CountPending(working.outbox[..i]) && sent == CountSent(working.outbox[..i])
      {
        CountsSnoc(working.outbox, i);
        if working.outbox[i].sent { sent := sent + 1; } else { pending := pending + 1; }
      }
      assert working.outbox[..|working.outbox|] == working.outbox;
      CountsAddUp(working.outbox);
      return StoreOk, Some(Stats(|working.measurements|, pending, sent));
    }
  }

  /** The failure of call `k` when all before it succeeded. */
  function FirstOf(codes: seq<SqlCode>, k: nat, n: nat): (r: StoreResult)
    requires k < n && AllOk(codes, k) && Code(codes, k) != SqlOk
    ensures r == FirstFailure(codes, n) && r != StoreOk && !AllOk(codes, n)
    decreases n - k
  {
    FirstFailureAt(codes, k, n);
    MapSqlite(Code(codes, k))
  }

  /** What the caller is told of a failing call: busy and locked are one, memory is told apart. */
  lemma FailureIsNamed(codes: seq<SqlCode>, k: nat, n: nat)
    requires k < n && AllOk(codes, k) && Code(codes, k) != SqlOk
    ensures FirstFailure(codes, n) == Busy <==> Code(codes, k) == SqlBusy || Code(codes, k) == SqlLocked
    ensures FirstFailure(codes, n) == NoMemory <==> Code(codes, k) == SqlNoMem
    ensures FirstFailure(codes, n) == DbError <==> Code(codes, k) == SqlOther
  {
    FirstFailureAt(codes, k, n);
  }

  lemma {:induction false} FirstFailureAt(codes: seq<SqlCode>, k: nat, n: nat)
    requires k < n && AllOk(codes, k) && Code(codes, k) != SqlOk
    ensures FirstFailure(codes, n) == MapSqlite(Code(codes, k))
    decreases n
  {
    if k < n - 1 { FirstFailureAt(codes, k, n - 1); }
  }

  /** `item` is a pending row, its fields and its measurement's payload are the row's, and no pending row
      has a smaller id. */
  ghost predicate IsEarliestPending(t: Tables, item: Item) {
    && (forall i | 0 <= i < |t.outbox| && !t.outbox[i].sent :: item.id <= t.outbox[i].id)
    && (exists i, j :: 0 <= i < |t.outbox| && 0 <= j < |t.measurements| && IsRow(t, i, j, item))
  }

  predicate IsRow(t: Tables, i: nat, j: nat, item: Item)
    requires i < |t.outbox| && j < |t.measurements|
  {
    var row := t.outbox[i];
    && !row.sent && item.id == row.id && item.measurementId == row.measurementId
    && item.attempts == row.attempts && item.messageId == row.messageId && item.topic == row.topic
    && t.measurements[j].id == row.measurementId && item.payload == t.measurements[j].payload
  }

  lemma EarliestIsFirst(t: Tables, k: nat)
    requires Consistent(t) && k == FirstPending(t.outbox) < |t.outbox|
    ensures k < |t.measurements|
    ensures var row := t.outbox[k];
            IsEarliestPending(t, Item(row.id, row.measurementId, row.attempts, row.messageId, row.topic, t.measurements[k].payload))
  {
    var row := t.outbox[k];
    assert IsRow(t, k, k, Item(row.id, row.measurementId, row.attempts, row.messageId, row.topic, t.measurements[k].payload));
    forall i | 0 <= i < |t.outbox| && !t.outbox[i].sent ensures row.id <= t.outbox[i].id {
      assert i == k || k < i;
    }
  }

  lemma {:induction false} CountsSnoc(rows: seq<OutboxRow>, i: nat)
    requires i < |rows|
    ensures CountPending(rows[..i + 1]) == CountPending(rows[..i]) + (if rows[i].sent then 0 else 1)
    ensures CountSent(rows[..i + 1]) == CountSent(rows[..i]) + (if rows[i].sent then 1 else 0)
    decreases i
  {
    if i == 0 {
      assert rows[..1] == [rows[0]];
    } else {
      CountsSnoc(rows[1..], i - 1);
      assert rows[..i + 1][1..] == rows[1..][..i] && rows[..i][1..] == rows[1..][..i - 1];
    }
  }
}
