/**
 Opening a database of an older schema version. Each migration is one script that begins and commits its
 own transaction, so a statement that fails and a crash between two statements both leave the file as the
 last COMMIT left it.
 */
module Migration {
  import opened Common
  import opened OutboxTables
  import opened OutboxStore

  const CURRENT := 4

  datatype Delivery = Delivery(attempts: int, lastError: Option<string>, sentAtMs: Option<int>)

  /** An outbox row of any version: version 2 added the delivery columns, version 3 the message id. */
  datatype FileRow = FileRow(
    id: int, measurementId: int, topic: string, sent: bool, delivery: Option<Delivery>, messageId: Option<string>)

  /** The file on disk. Version 0 has no tables, version 4 added the configuration table. */
  datatype File = File(version: int, measurements: seq<MeasurementRow>, rows: seq<FileRow>, hasConfig: bool, interval: Option<int>)

  const NEW_FILE := File(0, [], [], false, None)

  predicate DistinctIds(rows: seq<FileRow>) {
    forall i, j | 0 <= i < j < |rows| :: rows[i].messageId != rows[j].messageId
  }

  /** What the scripts of each version leave behind. */
  predicate WellFormed(f: File) {
    && 0 <= f.version <= CURRENT
    && (f.version == 0 ==> f == NEW_FILE)
    && (forall i | 0 <= i < |f.rows| ::
          && (f.rows[i].delivery.Some? <==> f.version >= 2)
          && (f.rows[i].messageId.Some? <==> f.version >= 3)
          && (f.version >= 3 ==> |f.rows[i].messageId.value| == MESSAGE_ID_LENGTH))
    && (f.version >= 3 ==> DistinctIds(f.rows))
    && (f.hasConfig <==> f.version >= 4) && (!f.hasConfig ==> f.interval.None?)
  }

  // ---------------------------------------------------------------- the scripts

  function AddDelivery(f: File): File {
    f.(version := 2, rows := seq(|f.rows|, i requires 0 <= i < |f.rows| => f.rows[i].(delivery := Some(Delivery(0, None, None)))))
  }

  /** `ids` are the random identifiers the INSERT ... SELECT draws, one per row. */
  function AddMessageIds(f: File, ids: seq<string>): File
    requires |ids| >= |f.rows|
  {
    f.(version := 3, rows := seq(|f.rows|, i requires 0 <= i < |f.rows| => f.rows[i].(messageId := Some(ids[i]))))
  }

  /** The CHECK and the UNIQUE of the new table. */
  predicate IdsAdmitted(ids: seq<string>, n: nat)
    requires |ids| >= n
  {
    && (forall i | 0 <= i < n :: |ids[i]| == MESSAGE_ID_LENGTH)
    && (forall i, j | 0 <= i < j < n :: ids[i] != ids[j])
  }

  function AddConfig(f: File): File { f.(version := 4, hasConfig := true, interval := None) }

  function FreshSchema(): File { File(CURRENT, [], [], true, None) }

  /** How one attempt to open goes: the result code of every statement of the script that runs at each
      version, and the identifiers drawn. A crash, or a version number that cannot be read back, is a
      statement that does not succeed: nothing after it runs. */
  datatype Attempt = Attempt(codes: seq<seq<SqlCode>>, ids: seq<string>)

  function ScriptCodes(a: Attempt, version: nat): seq<SqlCode> {
    if version < |a.codes| then a.codes[version] else []
  }

  /** Statements per script, BEGIN and COMMIT included. */
  function ScriptLength(version: int): nat {
    if version == 0 then 7 else if version == 1 then 7 else if version == 2 then 8 else 4
  }

  predicate ScriptSucceeds(f: File, a: Attempt) {
    && 0 <= f.version < CURRENT && AllOk(ScriptCodes(a, f.version), ScriptLength(f.version))
    && (f.version == 2 ==> |a.ids| >= |f.rows| && IdsAdmitted(a.ids, |f.rows|))
  }

  /** What a script reports: busy and no memory as they are, every other failure as a schema error. */
  function ScriptResult(f: File, a: Attempt): StoreResult {
    if f.version < 0 || f.version >= CURRENT then SchemaError
    else
      var failure := FirstFailure(ScriptCodes(a, f.version), ScriptLength(f.version));
      if failure == Busy || failure == NoMemory then failure
      else if ScriptSucceeds(f, a) then StoreOk else SchemaError
  }

  /** Opening reports what the script that did not commit reports. */
  function OpenResult(f: File, a: Attempt): StoreResult {
    if Opened(f, a).version == CURRENT then StoreOk else ScriptResult(Opened(f, a), a)
  }

  function Upgraded(f: File, a: Attempt): File
    requires ScriptSucceeds(f, a)
  {
    match f.version
    case 0 => FreshSchema()
    case 1 => AddDelivery(f)
    case 2 => AddMessageIds(f, a.ids)
    case _ => AddConfig(f)
  }

  /** Where an attempt leaves the file: scripts run until one does not commit. */
  function Opened(f: File, a: Attempt): File
    decreases CURRENT - f.version
  {
    if ScriptSucceeds(f, a) then Opened(Upgraded(f, a), a) else f
  }

  // ---------------------------------------------------------------- what no attempt can lose

  /** A row that had no delivery columns gets them empty: no attempts, no error, no time. */
  predicate SameRow(a: FileRow, b: FileRow) {
    && a.id == b.id && a.measurementId == b.measurementId && a.topic == b.topic && a.sent == b.sent
    && (a.delivery.Some? ==> b.delivery == a.delivery)
    && (a.delivery.None? && b.delivery.Some? ==> b.delivery == Some(Delivery(0, None, None)))
    && (a.messageId.Some? ==> b.messageId == a.messageId)
  }

  ghost predicate Preserved(f: File, g: File) {
    && f.version <= g.version
    && g.measurements == f.measurements
    && |g.rows| == |f.rows|
    && (forall i | 0 <= i < |f.rows| :: SameRow(f.rows[i], g.rows[i]))
    && (f.hasConfig ==> g == f)
    && (!f.hasConfig ==> g.interval == None)
  }

  lemma PreservedTransitive(f: File, g: File, h: File)
    requires Preserved(f, g) && Preserved(g, h)
    ensures Preserved(f, h)
  {
    forall i | 0 <= i < |f.rows| ensures SameRow(f.rows[i], h.rows[i]) {
      assert SameRow(f.rows[i], g.rows[i]) && SameRow(g.rows[i], h.rows[i]);
    }
  }

  lemma PreservedByNothing(f: File)
    requires WellFormed(f)
    ensures Preserved(f, f)
  {}

  lemma UpgradeKeeps(f: File, a: Attempt)
    requires WellFormed(f) && ScriptSucceeds(f, a)
    ensures WellFormed(Upgraded(f, a)) && Preserved(f, Upgraded(f, a))
    ensures Upgraded(f, a).version > f.version
  {}

  lemma {:induction false} OpenKeeps(f: File, a: Attempt)
    requires WellFormed(f)
    ensures WellFormed(Opened(f, a)) && Preserved(f, Opened(f, a))
    decreases CURRENT - f.version
  {
    PreservedByNothing(f);
    hide WellFormed, Upgraded;
    if ScriptSucceeds(f, a) {
      UpgradeKeeps(f, a);
      OpenKeeps(Upgraded(f, a), a);
      PreservedTransitive(f, Upgraded(f, a), Opened(f, a));
    }
  }

  /** Every statement of the script that is due counts: if any of them fails, the file stays as it was. The new
      schema takes seven, the delivery columns seven, the message ids eight and the configuration four. */
  lemma EveryStatementCounts(f: File, a: Attempt, k: nat)
    requires WellFormed(f) && f.version < CURRENT && Code(ScriptCodes(a, f.version), k) != SqlOk
    requires k < 4 || (f.version < 3 && k < 7) || (f.version == 2 && k < 8)
    ensures Opened(f, a) == f
  {
    assert !AllOk(ScriptCodes(a, f.version), ScriptLength(f.version));
  }

  /** The message ids a migration adds are the ones it drew, in row order. */
  lemma DrawnIdsAreUsed(f: File, a: Attempt, i: nat)
    requires WellFormed(f) && f.version == 2 && ScriptSucceeds(f, a) && i < |f.rows|
    ensures i < |Opened(f, a).rows| && Opened(f, a).rows[i].messageId == Some(a.ids[i])
  {
    var g := Upgraded(f, a);
    UpgradeKeeps(f, a);
    OpenKeeps(g, a);
    assert SameRow(g.rows[i], Opened(g, a).rows[i]);
  }

  /** What opening reports: success exactly at the current version; busy or no memory exactly if that is how the
      first failing statement of the script that stopped it failed; a schema error otherwise. */
  lemma OpenReports(f: File, a: Attempt, k: nat)
    requires WellFormed(f)
    ensures 0 <= Opened(f, a).version <= CURRENT
    ensures OpenResult(f, a) == StoreOk <==> Opened(f, a).version == CURRENT
    ensures var v := Opened(f, a).version;
            v < CURRENT && k < ScriptLength(v) && AllOk(ScriptCodes(a, v), k) && Code(ScriptCodes(a, v), k) != SqlOk ==>
              && (OpenResult(f, a) == Busy <==> Code(ScriptCodes(a, v), k) in {SqlBusy, SqlLocked})
              && (OpenResult(f, a) == NoMemory <==> Code(ScriptCodes(a, v), k) == SqlNoMem)
              && (OpenResult(f, a) == SchemaError <==> Code(ScriptCodes(a, v), k) == SqlOther)
  {
    OpenKeeps(f, a);
    StopsHere(f, a);
    var g := Opened(f, a);
    if g.version < CURRENT && k < ScriptLength(g.version) && AllOk(ScriptCodes(a, g.version), k)
       && Code(ScriptCodes(a, g.version), k) != SqlOk {
      FailureIsNamed(ScriptCodes(a, g.version), k, ScriptLength(g.version));
    }
    hide Opened, Preserved;
  }

  lemma {:induction false} StopsHere(f: File, a: Attempt)
    ensures !ScriptSucceeds(Opened(f, a), a)
    decreases CURRENT - f.version
  {
    if ScriptSucceeds(f, a) { StopsHere(Upgraded(f, a), a); }
  }

  function OpenedAll(f: File, attempts: seq<Attempt>): File
    decreases |attempts|
  {
    if attempts == [] then f else OpenedAll(Opened(f, attempts[0]), attempts[1..])
  }

  /** Any number of attempts, each failing or crashing anywhere: no row, topic, state, delivery field or
      message id is lost or changed, and the version only grows. */
  lemma {:induction false} AttemptsKeep(f: File, attempts: seq<Attempt>)
    requires WellFormed(f)
    ensures WellFormed(OpenedAll(f, attempts)) && Preserved(f, OpenedAll(f, attempts))
    decreases |attempts|
  {
    PreservedByNothing(f);
    hide WellFormed, Opened;
    if attempts != [] {
      OpenKeeps(f, attempts[0]);
      AttemptsKeep(Opened(f, attempts[0]), attempts[1..]);
      PreservedTransitive(f, Opened(f, attempts[0]), OpenedAll(f, attempts));
    }
  }

  /** After any number of bad attempts, one attempt in which nothing fails ends at version 4. */
  lemma GoodAttemptFinishes(f: File, attempts: seq<Attempt>, good: Attempt)
    requires WellFormed(f) && good.codes == [] && |good.ids| >= |f.rows| && IdsAdmitted(good.ids, |f.rows|)
    ensures Opened(OpenedAll(f, attempts), good).version == CURRENT
  {
    AttemptsKeep(f, attempts);
    Finishes(OpenedAll(f, attempts), good);
  }

  lemma {:induction false} Finishes(f: File, good: Attempt)
    requires WellFormed(f) && good.codes == [] && |good.ids| >= |f.rows| && IdsAdmitted(good.ids, |f.rows|)
    ensures Opened(f, good).version == CURRENT
    decreases CURRENT - f.version
  {
    if f.version < CURRENT {
      UpgradeKeeps(f, good);
      Finishes(Upgraded(f, good), good);
    }
  }

  // ---------------------------------------------------------------- outbox_store_open

  class Connection {
    var file: File

    constructor (onDisk: File)
      ensures file == onDisk
    {
      file := onDisk;
    }

    /** One sqlite3_exec of the script for the current version. Nothing reaches the file before COMMIT. */
    method RunScript(a: Attempt) returns (result: StoreResult)
      requires 0 <= file.version < CURRENT
      modifies this
      ensures result == ScriptResult(old(file), a)
      ensures result == StoreOk <==> ScriptSucceeds(old(file), a)
      ensures file == if ScriptSucceeds(old(file), a) then Upgraded(old(file), a) else old(file)
    {
      var codes, length := ScriptCodes(a, file.version), ScriptLength(file.version);
      var k := 0;
      while k < length
        invariant k <= length && AllOk(codes, k)
      {
        var mapped := MapSqlite(Code(codes, k));
        if mapped != StoreOk {
          FirstFailureAt(codes, k, length);
          return if mapped == Busy || mapped == NoMemory then mapped else SchemaError;
        }
        k := k + 1;
      }
      if file.version == 2 && !(|a.ids| >= |file.rows| && IdsAdmitted(a.ids, |file.rows|)) {
        return SchemaError;
      }
      file := Upgraded(file, a);
      return StoreOk;
    }

    /** outbox_store_open from reading the version on. */
    method Open(a: Attempt) returns (result: StoreResult)
      requires WellFormed(file)
      modifies this
      ensures file == Opened(old(file), a)
      ensures result == OpenResult(old(file), a)
      ensures WellFormed(file) && Preserved(old(file), file)
    {
      hide WellFormed, Upgraded;
      OpenKeeps(file, a);
      InRange(file);
      result := StoreOk;
      if file.version == 0 {
        result := Advance(a);
        if result != StoreOk {
          return;
        }
      }
      if file.version == 1 {
        result := Advance(a);
        if result != StoreOk {
          return;
        }
      }
      if file.version == 2 {
        result := Advance(a);
      }
      if result == StoreOk && file.version == 3 {
        result := Advance(a);
      }
      if result != StoreOk || file.version != CURRENT {
        return if result != StoreOk then result else SchemaError;
      }
    }

    /** One script as part of opening. */
    method Advance(a: Attempt) returns (result: StoreResult)
      requires WellFormed(file) && file.version < CURRENT
      modifies this
      ensures WellFormed(file) && 0 <= file.version <= CURRENT
      ensures Opened(file, a) == Opened(old(file), a)
      ensures result == StoreOk ==> file.version > old(file).version
      ensures result != StoreOk ==> file == old(file) == Opened(file, a) && result == ScriptResult(file, a)
    {
      ghost var before := file;
      result := RunScript(a);
      if result == StoreOk { UpgradeKeeps(before, a); }
    }
  }

  lemma InRange(f: File)
    requires WellFormed(f)
    ensures 0 <= f.version <= CURRENT
  {}
}
