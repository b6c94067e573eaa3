/**
 What a database holds after any run of store operations, told from the operations alone: the interval is
 the one stored last, and every outbox row carries the outcome of exactly the operations that named it.
 */
module StoreHistory {
  import opened Common
  import opened OutboxTables
  import opened OutboxStore

  // ---------------------------------------------------------------- the interval

  /** The operation leaves an interval on disk: it is in range, no call fails and no transaction is stuck. */
  predicate StoresInterval(db: Db, op: Op) {
    op.IntervalOp? && 100 <= op.ms <= 60000 && AllOk(op.codes, 3) && !db.inTx
  }

  lemma IntervalStep(db: Db, op: Op)
    requires Sound(db)
    ensures After(db, op).committed.interval == if StoresInterval(db, op) then Some(op.ms) else db.committed.interval
  {
    hide Consistent, SaveCommits, SaveStarts, Partial, AllOk;
  }

  /** For each operation the interval it leaves on disk, if it does. */
  function Stored(db: Db, ops: seq<Op>): (values: seq<Option<int>>)
    ensures |values| == |ops|
    decreases |ops|
  {
    if ops == [] then []
    else [if StoresInterval(db, ops[0]) then Some(ops[0].ms) else None] + Stored(After(db, ops[0]), ops[1..])
  }

  ghost predicate IsLast(values: seq<Option<int>>, before: Option<int>, after: Option<int>) {
    if forall j | 0 <= j < |values| :: values[j].None? then after == before
    else exists k :: 0 <= k < |values| && values[k].Some? && after == values[k] && forall j | k < j < |values| :: values[j].None?
  }

  /** After any operations, failures and reopens the interval on disk is the one stored last, or the one that
      was there at the start. */
  lemma {:induction false} IntervalIsLast(db: Db, ops: seq<Op>)
    requires Sound(db)
    ensures IsLast(Stored(db, ops), db.committed.interval, RunOps(db, ops).committed.interval)
    decreases |ops|
  {
    if ops != [] {
      var d := After(db, ops[0]);
      IntervalStep(db, ops[0]);
      AfterKeeps(db, ops[0]);
      IntervalIsLast(d, ops[1..]);
      var v := if StoresInterval(db, ops[0]) then Some(ops[0].ms) else None;
      LastOfMore(v, Stored(d, ops[1..]), db.committed.interval, d.committed.interval, RunOps(d, ops[1..]).committed.interval);
    }
  }

  lemma LastOfMore(v: Option<int>, rest: seq<Option<int>>, before: Option<int>, mid: Option<int>, after: Option<int>)
    requires mid == (if v.Some? then v else before) && IsLast(rest, mid, after)
    ensures IsLast([v] + rest, before, after)
  {
    var all := [v] + rest;
    assert all[0] == v && forall j | 0 < j < |all| :: all[j] == rest[j - 1];
    assert forall j | 0 <= j < |rest| :: rest[j] == all[j + 1];
    if !(forall j | 0 <= j < |rest| :: rest[j].None?) {
      var k :| 0 <= k < |rest| && rest[k].Some? && after == rest[k] && forall j | k < j < |rest| :: rest[j].None?;
      assert all[k + 1] == rest[k];
    } else if v.Some? {
      assert after == all[0];
    }
  }

  // ---------------------------------------------------------------- a row of the outbox

  predicate MarksRow(db: Db, op: Op, id: int) { op.MarkSentOp? && op.id == id && AllOk(op.codes, 4) && !db.inTx }

  predicate FailsRow(db: Db, op: Op, id: int) {
    op.FailureOp? && op.id == id && op.text != "" && AllOk(op.codes, 4) && !db.inTx
  }

  /** What one operation does to a row that is on disk: only an operation that names it touches it, and only
      while it is pending. */
  lemma RowStep(db: Db, op: Op, i: nat)
    requires Sound(db) && i < |db.committed.outbox|
    ensures i < |After(db, op).committed.outbox|
    ensures var a, b := db.committed.outbox[i], After(db, op).committed.outbox[i];
            && b.id == a.id
            && (a.sent || (!MarksRow(db, op, a.id) && !FailsRow(db, op, a.id)) ==> b == a)
            && (!a.sent && MarksRow(db, op, a.id) ==>
                  b.sent && b.sentAtMs == Some(op.atMs) && b.lastError == None && b.attempts == a.attempts)
            && (!a.sent && FailsRow(db, op, a.id) ==>
                  !b.sent && b.sentAtMs == a.sentAtMs && b.lastError == Some(op.text) && b.attempts == a.attempts + 1)
  {
    hide Consistent, SaveCommits, SaveStarts, Partial, AllOk;
  }

  /** What an operation, run on `db`, means for the row with that id. */
  datatype Outcome = Untouched | Marked(atMs: int) | Failed(text: string)

  function OutcomeOf(db: Db, op: Op, id: int): Outcome {
    if MarksRow(db, op, id) then Marked(op.atMs) else if FailsRow(db, op, id) then Failed(op.text) else Untouched
  }

  function Outcomes(db: Db, ops: seq<Op>, id: int): (es: seq<Outcome>)
    ensures |es| == |ops|
    decreases |ops|
  {
    if ops == [] then [] else [OutcomeOf(db, ops[0], id)] + Outcomes(After(db, ops[0]), ops[1..], id)
  }

  function Failures(es: seq<Outcome>): nat {
    if es == [] then 0 else (if es[0].Failed? then 1 else 0) + Failures(es[1..])
  }

  predicate NoneMarked(es: seq<Outcome>) { forall j | 0 <= j < |es| :: !es[j].Marked? }

  predicate LastFailure(es: seq<Outcome>, k: nat) {
    k < |es| && es[k].Failed? && forall j | k < j < |es| :: !es[j].Failed?
  }

  /** A row that is not marked counts the failures and keeps the text of the last one. */
  ghost predicate Waits(a: OutboxRow, es: seq<Outcome>, b: OutboxRow) {
    && !b.sent && b.sentAtMs == a.sentAtMs && b.attempts == a.attempts + Failures(es)
    && (Failures(es) == 0 ==> b.lastError == a.lastError)
    && (forall k: nat | LastFailure(es, k) :: b.lastError == Some(es[k].text))
  }

  /** A row that is marked keeps the time of the first mark and the failures counted until then. */
  ghost predicate Delivered(a: OutboxRow, es: seq<Outcome>, b: OutboxRow) {
    forall k | 0 <= k < |es| && es[k].Marked? && NoneMarked(es[..k]) ::
      b.sent && b.sentAtMs == Some(es[k].atMs) && b.lastError == None && b.attempts == a.attempts + Failures(es[..k])
  }

  lemma {:induction false} SentIsFrozen(db: Db, ops: seq<Op>, i: nat)
    requires Sound(db) && i < |db.committed.outbox| && db.committed.outbox[i].sent
    ensures i < |RunOps(db, ops).committed.outbox| && RunOps(db, ops).committed.outbox[i] == db.committed.outbox[i]
    decreases |ops|
  {
    EveryRunKeeps(db, ops);
  }

  /** The life of a row that is pending: until an operation marks it, it counts the recorded failures and keeps
      the text of the last one; the first operation that marks it decides its time, and nothing changes it
      afterwards. An operation that does not name the row, fails, or runs in a stuck transaction leaves it. */
  lemma {:induction false} RowFollowsItsOperations(db: Db, ops: seq<Op>, i: nat)
    requires Sound(db) && i < |db.committed.outbox| && !db.committed.outbox[i].sent
    ensures i < |RunOps(db, ops).committed.outbox|
    ensures var a, b := db.committed.outbox[i], RunOps(db, ops).committed.outbox[i];
            var es := Outcomes(db, ops, a.id);
            && b.id == a.id && (b.sent <==> !NoneMarked(es))
            && (NoneMarked(es) ==> Waits(a, es, b))
            && Delivered(a, es, b)
    decreases |ops|
  {
    if ops != [] {
      var d := After(db, ops[0]);
      AfterKeeps(db, ops[0]);
      RowStep(db, ops[0], i);
      var a, c, id := db.committed.outbox[i], d.committed.outbox[i], db.committed.outbox[i].id;
      var e, rest := OutcomeOf(db, ops[0], id), Outcomes(d, ops[1..], id);
      assert RunOps(db, ops) == RunOps(d, ops[1..]) && Outcomes(db, ops, id) == [e] + rest;
      if c.sent {
        SentIsFrozen(d, ops[1..], i);
        hide RunOps, After, Sound, Outcomes;
        MarkedFirst(a, e, rest, c);
      } else {
        RowFollowsItsOperations(d, ops[1..], i);
        hide RunOps, After, Sound, Outcomes;
        LaterOutcomes(a, e, rest, c, RunOps(d, ops[1..]).committed.outbox[i]);
      }
    }
  }

  lemma MarkedFirst(a: OutboxRow, e: Outcome, rest: seq<Outcome>, b: OutboxRow)
    requires e.Marked? && b.sent && b.sentAtMs == Some(e.atMs) && b.lastError == None && b.attempts == a.attempts
    ensures !NoneMarked([e] + rest) && Delivered(a, [e] + rest, b)
  {
    var es := [e] + rest;
    assert es[0] == e;
    assert forall k | 0 < k <= |es| :: es[..k][0] == e;
  }

  lemma LaterOutcomes(a: OutboxRow, e: Outcome, rest: seq<Outcome>, c: OutboxRow, b: OutboxRow)
    requires !e.Marked? && c.attempts == a.attempts + (if e.Failed? then 1 else 0) && c.sentAtMs == a.sentAtMs
    requires c.lastError == (if e.Failed? then Some(e.text) else a.lastError)
    requires (NoneMarked(rest) ==> Waits(c, rest, b)) && Delivered(c, rest, b)
    ensures NoneMarked([e] + rest) <==> NoneMarked(rest)
    ensures (NoneMarked([e] + rest) ==> Waits(a, [e] + rest, b)) && Delivered(a, [e] + rest, b)
  {
    var es := [e] + rest;
    assert es[0] == e && es[1..] == rest && forall j | 0 < j < |es| :: es[j] == rest[j - 1];
    if NoneMarked(es) {
      assert forall j | 0 <= j < |rest| :: rest[j] == es[j + 1];
      forall k: nat | LastFailure(es, k) ensures b.lastError == Some(es[k].text) {
        if k > 0 {
          assert LastFailure(rest, k - 1);
        } else {
          NoFailures(rest);
        }
      }
    }
    forall k | 0 <= k < |es| && es[k].Marked? && NoneMarked(es[..k])
      ensures b.sent && b.sentAtMs == Some(es[k].atMs) && b.lastError == None && b.attempts == a.attempts + Failures(es[..k])
    {
      var front := rest[..k - 1];
      assert es[..k] == [e] + front && es[..k][1..] == front;
      forall j | 0 <= j < |front| ensures !front[j].Marked? {
        assert front[j] == es[..k][j + 1];
      }
    }
  }

  lemma {:induction false} NoFailures(es: seq<Outcome>)
    requires forall j | 0 <= j < |es| :: !es[j].Failed?
    ensures Failures(es) == 0
    decreases |es|
  {
    if es != [] { NoFailures(es[1..]); }
  }
}
