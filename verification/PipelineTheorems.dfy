/**
 What the pipeline promises in every state that any interleaving, any failures and any number of crashes
 and restarts can reach from a state that satisfies the invariant: from an empty database (`InitOk`), or
 from one that an older version wrote (`MigratedDatabaseStarts`).
 */
module PipelineTheorems {
  import opened Measurements
  import opened OutboxTables
  import opened Pipeline
  import opened PipelineInvariant
  import opened PipelineDurable

  // ---------------------------------------------------------------- order of deliveries

  /** A list of row numbers with immediate repetitions collapsed. */
  function Collapse(rows: seq<nat>): seq<nat>
    decreases |rows|
  {
    if rows == [] then []
    else
      var front, last := Collapse(rows[..|rows| - 1]), rows[|rows| - 1];
      if front != [] && front[|front| - 1] == last then front else front + [last]
  }

  function UpTo(n: nat): seq<nat> { seq(n, i => i) }

  function AttemptedRows(attempts: seq<Attempt>): seq<nat> {
    seq(|attempts|, i requires 0 <= i < |attempts| => attempts[i].row)
  }

  /** Rows in order without a gap collapse to an initial stretch of the numbers. */
  lemma {:induction false} CollapseGapless(rows: seq<nat>)
    requires forall i, j | 0 <= i < j < |rows| :: rows[i] <= rows[j]
    requires forall n: nat, j | 0 <= j < |rows| && n < rows[j] :: n in rows
    ensures Collapse(rows) == UpTo(if rows == [] then 0 else rows[|rows| - 1] + 1)
    decreases |rows|
  {
    if |rows| > 0 {
      var front, last := rows[..|rows| - 1], rows[|rows| - 1];
      forall n: nat, j | 0 <= j < |front| && n < front[j] ensures n in front {
        assert front[j] == rows[j] <= last && n in rows;
        var k :| 0 <= k < |rows| && rows[k] == n;
        assert front[k] == n;
      }
      CollapseGapless(front);
      if |front| == 0 {
        assert 0 < last ==> 0 in rows;
      } else {
        var before := front[|front| - 1];
        var next: nat := before + 1;
        assert forall k | 0 <= k < |front| :: rows[k] <= before;
        assert next < last ==> next in rows;
      }
    }
  }

  ghost predicate InOutboxOrder(s: State) {
    var frontier := FirstPending(s.disk.outbox);
    && Consistent(s.disk)
    && (forall i | 0 <= i < |s.disk.outbox| :: s.disk.outbox[i].sent <==> i < frontier)
    && (forall j | 0 <= j < |s.attempts| ::
          && s.attempts[j].row < |s.disk.outbox| && s.attempts[j].index < |s.publisher.library.published|
          && s.publisher.library.published[s.attempts[j].index] == MessageOf(s.disk, s.attempts[j].row))
    && (forall i, j | 0 <= i < j < |s.attempts| :: s.attempts[i].index < s.attempts[j].index)
    && Collapse(AttemptedRows(s.attempts)) in {UpTo(frontier), UpTo(frontier + 1)}
  }

  lemma AttemptsInOrder(s: State)
    requires Inv(s)
    ensures InOutboxOrder(s)
  {
    hide Volatile, RowsStored, MessageOf, SavedOk, Consistent;
    var rows := AttemptedRows(s.attempts);
    var frontier := FirstPending(s.disk.outbox);
    forall n: nat, j | 0 <= j < |rows| && n < rows[j] ensures n in rows {
      assert Delivered(s.attempts, s.publisher.library.acked, n);
      var k :| 0 <= k < |s.attempts| && s.attempts[k].row == n;
      assert rows[k] == n;
    }
    CollapseGapless(rows);
    if frontier > 0 {
      assert Delivered(s.attempts, s.publisher.library.acked, frontier - 1);
      var k :| 0 <= k < |s.attempts| && s.attempts[k].row == frontier - 1;
      assert rows[k] <= rows[|rows| - 1];
    }
  }

  /** The rows are sent strictly in order: the sent ones are those before some frontier; each publication
      is of the row's own topic and enriched payload; and the rows published, repetitions apart, are
      exactly the first ones, the last of them being the frontier row or the one before it. */
  lemma DeliveryFollowsTheOutbox(start: State, actions: seq<Action>)
    requires Inv(start)
    ensures InOutboxOrder(Run(start, actions))
  {
    hide Inv, InOutboxOrder, Run;
    EveryRunKeeps(start, actions);
    AttemptsInOrder(Run(start, actions));
  }

  /** A row is only marked sent once the broker acknowledged a publication of that row's own message. */
  lemma SentMeansAcknowledged(start: State, actions: seq<Action>, i: nat)
    requires Inv(start)
    requires i < |Run(start, actions).disk.outbox| && Run(start, actions).disk.outbox[i].sent
    ensures var s := Run(start, actions);
            && |s.disk.outbox| == |s.disk.measurements|
            && exists j :: 0 <= j < |s.attempts| && s.attempts[j].row == i
                           && s.attempts[j].index in s.publisher.library.acked
                           && s.attempts[j].index < |s.publisher.library.published|
                           && s.publisher.library.published[s.attempts[j].index] == MessageOf(s.disk, i)
  {
    EveryRunKeeps(start, actions);
    var s := Run(start, actions);
    hide Volatile, Run, RowsStored, MessageOf, SavedOk;
    assert i < FirstPending(s.disk.outbox);
    assert Delivered(s.attempts, s.publisher.library.acked, i);
  }

  // ---------------------------------------------------------------- one job in flight, freed once

  /** At most one job or report is under way; while all workers are up it is there exactly when
      delivery_inflight says so; and so neither hand-off ever finds its queue of one full. */
  lemma OneJobInFlight(start: State, actions: seq<Action>)
    requires Inv(start)
    ensures var s := Run(start, actions);
            && InFlight(s) <= 1
            && (!MqttGone(s) && s.storage != StorageExited(false) ==> InFlight(s) == (if s.inflight then 1 else 0))
            && (s.storage.Handing? ==> InFlight(s) == 0 && !s.deliveries.Full())
            && (s.mqtt.MqttReporting? ==> !s.results.Full())
  {
    EveryRunKeeps(start, actions);
    hide Run, Tracking, Histories, Durable;
  }

  lemma JobFreedOnce(s: State, h: nat)
    requires Inv(s) && h < s.nextHandle
    ensures s.freed[h] <= 1 && (s.freed[h] == 0 <==> LiveJob(s).Some? && LiveJob(s).value.handle == h)
    ensures s.coordinator == Drained ==> s.freed[h] == 1
  {
    hide TokenMatches, LedgerOk, PublisherOk, Histories, Durable;
  }

  /** The strings of every job handed out are freed exactly once, unless the job is the one alive; after
      the queue was drained none is alive. */
  lemma JobsAreFreedOnce(start: State, actions: seq<Action>, h: nat)
    requires Inv(start)
    requires h < Run(start, actions).nextHandle
    ensures var s := Run(start, actions);
            && s.freed[h] <= 1
            && (s.freed[h] == 0 <==> LiveJob(s).Some? && LiveJob(s).value.handle == h)
            && (s.coordinator == Drained ==> s.freed[h] == 1)
  {
    hide Inv, Run;
    EveryRunKeeps(start, actions);
    JobFreedOnce(Run(start, actions), h);
  }

  /** At most thirty-two measurements, one job, one report and eight remote commands are ever queued. */
  lemma QueuesAreBounded(start: State, actions: seq<Action>)
    requires Inv(start)
    ensures var s := Run(start, actions);
            |s.measurements.items| <= 32 && |s.deliveries.items| <= 1 && |s.results.items| <= 1 && |s.commands.items| <= 8
            && (s.measurements.Full() <==> |s.measurements.items| == 32) && (s.commands.Full() <==> |s.commands.items| == 8)
  {
    EveryRunKeeps(start, actions);
    hide Run, Tracking, Durable, StagesOk, TokensOk;
  }

  // ---------------------------------------------------------------- nothing accepted is lost

  predicate AllStored(s: State) {
    && s.saved == s.measurements.pushed && s.applied == s.results.pushed
    && |s.disk.measurements| == s.base + |s.saved|
    && (forall i | 0 <= i < |s.saved| :: s.disk.measurements[s.base + i].payload == ToJson(s.saved[i]))
    && |s.saved| <= s.collected <= |s.saved| + 1
    && (s.collected == |s.saved| + 1 <==> Holds(s.source) || s.source == SourceDone(true))
  }

  lemma EndedStoredAll(s: State)
    requires Inv(s) && s.storage == StorageExited(true)
    ensures AllStored(s)
  {
    hide TokenMatches, HandlesOk, PublisherOk, DiskOk, AttemptsOk, SentDelivered;
    assert s.measurements.items == [] && s.results.items == [];
  }

  /** When the storage worker ends normally, every measurement the queue accepted is in the database, in
      order; at most one collected measurement was not accepted; and every report was applied. */
  lemma NothingAcceptedIsLost(start: State, actions: seq<Action>)
    requires Inv(start)
    requires Run(start, actions).storage == StorageExited(true)
    ensures AllStored(Run(start, actions))
  {
    hide Inv, Run, AllStored;
    EveryRunKeeps(start, actions);
    EndedStoredAll(Run(start, actions));
  }
}
