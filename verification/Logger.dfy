/**
 The log writer in its synchronous mode, with rotation: when a call reports success, its record and every
 record accepted before it have been synced; which of them still are is a matter of the rotated files.
 */
module Logger {
  import opened Common
  import opened LogFiles
  import Q = BoundedQueue

  datatype Record = Record(sequence: nat, text: string)

  /** A producing thread. */
  datatype Producer =
    | Out
    | Numbering(text: string)      // holds submit_mutex, about to draw a number
    | Pushing(record: Record)      // holds submit_mutex, about to push
    | Awaiting(record: Record)     // accepted, waits for durable_sequence
    | Returned(record: Record, ok: bool)

  datatype Writer =
    | Popping
    | Formatting(record: Record)                               // popped, about to format its line
    | Rotating(record: Record, length: nat, phase: Phase)      // inside rotate_file
    | Appending(record: Record, length: nat)                   // about to write the line
    | Syncing(record: Record)
    | Recording(record: Record)                                // synced, about to set durable_sequence
    | Failing                                                  // write_error is set, about to close the queue
    | WriterGone

  /** `written` is everything that ever went into a file, in order. */
  datatype State = State(
    producers: map<nat, Producer>, submitOwner: Option<nat>, nextSequence: nat, queue: Q.Fifo<Record>,
    writer: Writer, written: seq<Record>, disk: Disk, durableSequence: nat, writeError: bool)

  function Start(config: Config, capacity: nat, bytes: nat, older: seq<bool>): State {
    State(map[], None, 1, Q.Fifo(capacity, [], false, [], []), Popping, [], Fresh(config, bytes, older), 0, false)
  }

  function At(s: State, p: nat): Producer { if p in s.producers then s.producers[p] else Out }

  function Move(s: State, p: nat, to: Producer): State { s.(producers := s.producers[p := to]) }

  // ---------------------------------------------------------------- steps

  datatype Action =
    | Submit(p: nat, text: string)   // async_logger_log takes submit_mutex
    | Number(p: nat)                 // draws the sequence number
    | ClockFails(p: nat)             // the time could not be read
    | Push(p: nat)                   // the queue accepts or refuses the record
    | Check(p: nat)                  // evaluates the wait condition
    | Pop(fails: bool) | Format(length: nat, ok: bool) | Rotate(ok: bool) | Write(ok: bool) | Sync(ok: bool) | Announce
    | GiveUp                         // the writer that failed closes the queue and ends
    | Close                          // async_logger_shutdown

  function Refuse(s: State, p: nat, r: Record): State { Move(s, p, Returned(r, false)).(submitOwner := None) }

  /** mark_writer_error, up to the end of its critical section. */
  function WriterFails(s: State): State { s.(writer := Failing, writeError := true) }

  function Do(s: State, a: Action): State {
    match a
    case Submit(p, text) =>
      if s.submitOwner.Some? || !(At(s, p).Out? || At(s, p).Returned?) then s
      else Move(s, p, Numbering(text)).(submitOwner := Some(p))
    case Number(p) =>
      if !At(s, p).Numbering? then s
      else Move(s, p, Pushing(Record(s.nextSequence, At(s, p).text))).(nextSequence := s.nextSequence + 1)
    case ClockFails(p) => if !At(s, p).Pushing? then s else Refuse(s, p, At(s, p).record)
    case Push(p) =>
      if !At(s, p).Pushing? then s
      else if s.queue.closed then Refuse(s, p, At(s, p).record)
      else if s.queue.Full() then s
      else Move(s, p, Awaiting(At(s, p).record)).(submitOwner := None, queue := Q.Put(s.queue, At(s, p).record))
    case Check(p) => CheckDurable(s, p)
    case Pop(fails) =>
      if s.writer != Popping then s
      else if fails then WriterFails(s)
      else if |s.queue.items| > 0 then s.(writer := Formatting(s.queue.items[0]), queue := Q.Take(s.queue))
      else if s.queue.closed then s.(writer := WriterGone)
      else s
    case Format(length, ok) =>
      if !s.writer.Formatting? then s
      else if !ok then WriterFails(s)
      else if MustRotate(s.disk, length) then s.(writer := Rotating(s.writer.record, length, SyncOld))
      else s.(writer := Appending(s.writer.record, length))
    case Rotate(ok) => RotateFile(s, ok)
    case Write(ok) =>
      if !s.writer.Appending? then s
      else if !ok then WriterFails(s)
      else
        s.(writer := Syncing(s.writer.record), written := s.written + [s.writer.record],
           disk := Append(s.disk, s.writer.length))
    case Sync(ok) =>
      if !s.writer.Syncing? then s
      else if !ok then WriterFails(s)
      else s.(writer := Recording(s.writer.record), disk := SyncActive(s.disk))
    case Announce =>
      if !s.writer.Recording? then s
      else s.(writer := Popping, durableSequence := s.writer.record.sequence)
    case GiveUp => if s.writer == Failing then s.(writer := WriterGone, queue := Q.Apply(s.queue, Q.OpClose)) else s
    case Close => s.(queue := Q.Apply(s.queue, Q.OpClose))
  }

  /** One step of rotate_file; any of them can fail. */
  function RotateFile(s: State, ok: bool): State {
    if !s.writer.Rotating? then s
    else if !ok then WriterFails(s.(disk := RotateFail(s.disk, s.writer.phase)))
    else
      var (disk, next) := RotateStep(s.disk, s.writer.phase);
      s.(disk := disk,
         writer := if next == Settled then Appending(s.writer.record, s.writer.length)
                   else Rotating(s.writer.record, s.writer.length, next))
  }

  /** Under stats_mutex: leave the wait when durable_sequence caught up or the writer failed. */
  function CheckDurable(s: State, p: nat): State {
    if !At(s, p).Awaiting? then s
    else
      var r := At(s, p).record;
      if s.durableSequence < r.sequence && !s.writeError then s
      else Move(s, p, Returned(r, s.durableSequence >= r.sequence && !s.writeError))
  }

  function Run(s: State, actions: seq<Action>): State
    decreases |actions|
  {
    if actions == [] then s else Run(Do(s, actions[0]), actions[1..])
  }

  // ---------------------------------------------------------------- what every interleaving keeps

  predicate Increasing(rs: seq<Record>) {
    forall i, j | 0 <= i < j < |rs| :: rs[i].sequence < rs[j].sequence
  }

  /** Accepted records are numbered in the order of the queue, and a number drawn but not yet pushed is
      larger than all of them. */
  ghost predicate OrderOk(s: State) {
    && Increasing(s.queue.pushed)
    && (forall i | 0 <= i < |s.queue.pushed| :: 0 < s.queue.pushed[i].sequence < s.nextSequence)
    && (forall p | p in s.producers && s.producers[p].Pushing? ::
          && s.submitOwner == Some(p) && s.producers[p].record.sequence < s.nextSequence
          && s.producers[p].record.sequence > 0
          && (forall i | 0 <= i < |s.queue.pushed| :: s.queue.pushed[i].sequence < s.producers[p].record.sequence))
    && (forall p | p in s.producers && s.producers[p].Numbering? :: s.submitOwner == Some(p))
    && s.nextSequence > 0
  }

  ghost predicate QueueOk(s: State) { s.queue.Valid() }

  /** The record the writer has taken but not written. */
  function InHand(w: Writer): seq<Record> {
    if w.Formatting? || w.Rotating? || w.Appending? then [w.record] else []
  }

  predicate Ended(w: Writer) { w.Failing? || w.WriterGone? }

  /** The files together saw a prefix of the accepted records; the writer is at the next one. */
  ghost predicate WrittenOk(s: State) {
    && |s.written| == s.disk.count && s.disk.synced <= s.disk.count
    && s.written <= s.queue.pushed && s.queue.popped <= s.queue.pushed
    && (!Ended(s.writer) ==> s.queue.popped == s.written + InHand(s.writer))
    && (!Ended(s.writer) && !s.writer.Syncing? ==> s.disk.synced == s.disk.count)
    && (s.writer.Syncing? || s.writer.Recording? ==> |s.written| > 0 && s.written[|s.written| - 1] == s.writer.record)
    && (s.writer.WriterGone? && !s.writeError ==>
          s.queue.closed && |s.queue.items| == 0 && s.queue.popped == s.written && s.disk.synced == s.disk.count)
    && (s.writeError ==> Ended(s.writer)) && (s.writer == Failing ==> s.writeError)
    && (s.writer == WriterGone ==> s.queue.closed)
  }

  function PhaseOf(w: Writer): Phase { if w.Rotating? then w.phase else Settled }

  /** The files are in order; after a failure in the middle of a rotation each of them still is. */
  ghost predicate FilesInOrder(disk: Disk, w: Writer, writeError: bool) {
    && FilesOk(disk)
    && (!writeError ==> DiskOk(disk, PhaseOf(w)))
    && (w.Rotating? ==> w.phase != Settled)
    && (w.Syncing? || w.Recording? ==> LastIsActive(disk))
    && (w.Appending? ==> Fits(disk, w.length))
  }

  /** Everything numbered up to durable_sequence has been synced. */
  ghost predicate DurableOk(s: State) {
    && (forall i | 0 <= i < |s.queue.pushed| && s.queue.pushed[i].sequence <= s.durableSequence :: i < s.disk.synced)
    && s.durableSequence < s.nextSequence
    && (forall p | p in s.producers && s.producers[p].Pushing? :: s.durableSequence < s.producers[p].record.sequence)
  }

  /** A record that was accepted is where the queue says, and one that was acknowledged has been synced. */
  ghost predicate ProducersOk(s: State) {
    forall p | p in s.producers ::
      && (s.producers[p].Awaiting? ==> s.producers[p].record in s.queue.pushed)
      && (s.producers[p].Returned? && s.producers[p].ok ==>
            s.producers[p].record in s.queue.pushed && SyncedUpTo(s.queue.pushed, s.disk.synced, s.producers[p].record.sequence))
  }

  /** Every accepted record numbered up to `sequence` has been synced. */
  ghost predicate SyncedUpTo(pushed: seq<Record>, synced: nat, sequence: nat) {
    forall i | 0 <= i < |pushed| && pushed[i].sequence <= sequence :: i < synced
  }

  ghost predicate Inv(s: State) {
    && OrderOk(s) && QueueOk(s) && WrittenOk(s) && DurableOk(s) && ProducersOk(s)
    && FilesInOrder(s.disk, s.writer, s.writeError)
  }

  lemma ProducerKeeps(s: State, a: Action)
    requires Inv(s) && (a.Submit? || a.Number? || a.ClockFails?)
    ensures Inv(Do(s, a))
  {
    hide Q.Fifo.Valid;
  }

  lemma AcceptQueue(s: State, p: nat)
    requires Inv(s) && At(s, p).Pushing? && !s.queue.closed && !s.queue.Full()
    ensures var t := Do(s, Push(p)); OrderOk(t) && QueueOk(t) && WrittenOk(t)
  {
    hide ProducersOk, DurableOk, FilesInOrder;
    Q.ApplyLater(s.queue, Q.OpPush(At(s, p).record));
  }

  lemma AcceptRecords(s: State, p: nat)
    requires Inv(s) && At(s, p).Pushing? && !s.queue.closed && !s.queue.Full()
    ensures var t := Do(s, Push(p)); DurableOk(t) && ProducersOk(t)
  {
    hide QueueOk, FilesInOrder;
    var t := Do(s, Push(p));
    var r, n := At(s, p).record, |s.queue.pushed|;
    assert t.queue.pushed[n] == r && t.queue.pushed[..n] == s.queue.pushed;
    forall q | q in t.producers && q != p && t.producers[q].Returned? && t.producers[q].ok
      ensures SyncedUpTo(t.queue.pushed, t.disk.synced, t.producers[q].record.sequence)
    {
      assert t.producers[q] == s.producers[q] && SyncedUpTo(s.queue.pushed, s.disk.synced, s.producers[q].record.sequence);
      assert t.producers[q].record.sequence < r.sequence;
    }
  }

  lemma PushKeeps(s: State, p: nat)
    requires Inv(s)
    ensures Inv(Do(s, Push(p)))
  {
    if At(s, p).Pushing? {
      if s.queue.closed {
        RefuseKeeps(s, p);
      } else if !s.queue.Full() {
        AcceptQueue(s, p);
        AcceptRecords(s, p);
      }
    }
  }

  lemma RefuseKeeps(s: State, p: nat)
    requires Inv(s) && At(s, p).Pushing?
    ensures Inv(Refuse(s, p, At(s, p).record))
  {
    hide Q.Fifo.Valid;
  }

  lemma CheckKeeps(s: State, p: nat)
    requires Inv(s)
    ensures Inv(Do(s, Check(p)))
  {
    hide FilesInOrder, Increasing, Q.Fifo.Valid;
  }

  lemma FailKeeps(s: State)
    requires Inv(s)
    ensures Inv(WriterFails(s))
  {
    hide Increasing, DiskOk, FilesOk;
  }

  lemma FormatKeeps(s: State, length: nat)
    requires Inv(s) && s.writer.Formatting?
    ensures Inv(Do(s, Format(length, true)))
  {
    hide Increasing, SyncedUpTo, Q.Fifo.Valid, FilesOk, StartsOk;
    if MustRotate(s.disk, length) { RotationBegins(s.disk, length); }
  }

  lemma RotateFileKeeps(s: State)
    requires Inv(s) && s.writer.Rotating?
    ensures Inv(RotateFile(s, true))
  {
    RotateKeeps(s.disk, s.writer.phase);
    RotationEmpties(s.disk, s.writer.phase);
    DiskOkIsFilesOk(RotateStep(s.disk, s.writer.phase).0, RotateStep(s.disk, s.writer.phase).1);
    hide Increasing, SyncedUpTo, Q.Fifo.Valid, DiskOk, FilesOk, RotateStep;
  }

  lemma RotateFails(s: State)
    requires Inv(s) && s.writer.Rotating?
    ensures Inv(RotateFile(s, false))
  {
    LogFiles.FailKeeps(s.disk, s.writer.phase);
    hide Increasing, SyncedUpTo, DiskOk, FilesOk, RotateFail;
  }

  lemma WriteKeeps(s: State)
    requires Inv(s) && s.writer.Appending?
    ensures Inv(Do(s, Write(true)))
  {
    AppendKeeps(s.disk, s.writer.length);
    DiskOkIsFilesOk(Append(s.disk, s.writer.length), Settled);
    hide Increasing, SyncedUpTo, DiskOk, FilesOk, Append;
  }

  lemma SyncedKeeps(s: State)
    requires Inv(s) && s.writer.Syncing?
    ensures Inv(Do(s, Sync(true)))
  {
    LogFiles.SyncKeeps(s.disk);
    DiskOkIsFilesOk(SyncActive(s.disk), Settled);
    hide Increasing, DiskOk, FilesOk, SyncActive;
  }

  /** All records up to the one just synced have been synced, because numbers grow along the queue. */
  lemma AnnounceKeeps(s: State)
    requires Inv(s) && s.writer.Recording?
    ensures Inv(Do(s, Announce))
  {
    hide DiskOk, FilesOk;
    var n := |s.written|;
    assert s.queue.pushed[n - 1] == s.writer.record;
  }

  lemma TakeKeeps(s: State)
    requires Inv(s) && s.writer == Popping && |s.queue.items| > 0
    ensures Inv(Do(s, Pop(false)))
  {
    hide Increasing, DiskOk, FilesOk;
    Q.ApplyLater(s.queue, Q.OpPop);
  }

  lemma EndKeeps(s: State)
    requires Inv(s) && s.writer == Popping && |s.queue.items| == 0
    ensures Inv(Do(s, Pop(false)))
  {
    hide Increasing, DiskOk, FilesOk;
  }

  lemma GiveUpKeeps(s: State)
    requires Inv(s)
    ensures Inv(Do(s, GiveUp))
  {
    hide Increasing, DiskOk, FilesOk;
  }

  lemma CloseKeeps(s: State)
    requires Inv(s)
    ensures Inv(Do(s, Close))
  {
    hide Increasing, FilesInOrder;
  }

  lemma StepKeeps(s: State, a: Action)
    requires Inv(s)
    ensures Inv(Do(s, a))
  {
    hide Inv, WriterFails, RotateFile;
    match a {
      case Push(p) => PushKeeps(s, p);
      case Check(p) => CheckKeeps(s, p);
      case Pop(fails) =>
        if s.writer == Popping {
          if fails { FailKeeps(s); } else if |s.queue.items| > 0 { TakeKeeps(s); } else { EndKeeps(s); }
        }
      case Format(length, ok) => if s.writer.Formatting? { if ok { FormatKeeps(s, length); } else { FailKeeps(s); } }
      case Rotate(ok) => if s.writer.Rotating? { if ok { RotateFileKeeps(s); } else { RotateFails(s); } } else { NoRotation(s, ok); }
      case Write(ok) => if s.writer.Appending? { if ok { WriteKeeps(s); } else { FailKeeps(s); } }
      case Sync(ok) => if s.writer.Syncing? { if ok { SyncedKeeps(s); } else { FailKeeps(s); } }
      case Announce => if s.writer.Recording? { AnnounceKeeps(s); }
      case GiveUp => GiveUpKeeps(s);
      case Close => CloseKeeps(s);
      case _ => ProducerKeeps(s, a);
    }
  }

  lemma NoRotation(s: State, ok: bool)
    requires !s.writer.Rotating?
    ensures RotateFile(s, ok) == s
  {}

  lemma {:induction false} EveryRunKeeps(s: State, actions: seq<Action>)
    requires Inv(s)
    ensures Inv(Run(s, actions))
    decreases |actions|
  {
    hide Inv, Do;
    if actions != [] {
      StepKeeps(s, actions[0]);
      EveryRunKeeps(Do(s, actions[0]), actions[1..]);
    }
  }

  function Reached(config: Config, capacity: nat, bytes: nat, older: seq<bool>, actions: seq<Action>): State {
    Run(Start(config, capacity, bytes, older), actions)
  }

  lemma ReachedOk(config: Config, capacity: nat, bytes: nat, older: seq<bool>, actions: seq<Action>)
    requires capacity > 0 && ConfigOk(config)
    ensures Inv(Reached(config, capacity, bytes, older, actions))
  {
    FreshOk(config, bytes, older);
    EveryRunKeeps(Start(config, capacity, bytes, older), actions);
  }

  // ---------------------------------------------------------------- steps are queue calls

  /** bq_push that waits as long as it must: accepted, refused on a closed queue, or still waiting. */
  lemma PushIsPush(s: State, p: nat)
    requires At(s, p).Pushing?
    ensures var r := At(s, p).record;
            var (q, result) := Q.PushFrom(s.queue, r, -1, []);
            var t := Do(s, Push(p));
            && t.queue == q
            && (result == Some(Q.QueueOk) ==> At(t, p) == Awaiting(r) && t.submitOwner == None)
            && (result == Some(Q.QueueClosed) ==> At(t, p) == Returned(r, false) && t.submitOwner == None)
            && (result == None ==> t == s)
  {}

  /** async_logger_shutdown: nothing enters any more, and the writer ends as soon as the queue is empty. A call whose
      clock fails returns at once. Either way submit_mutex is free again. */
  lemma ShutdownRefuses(s: State, p: nat)
    requires At(s, p).Pushing?
    ensures var r, t := At(s, p).record, Do(Do(s, Close), Push(p));
            && At(t, p) == Returned(r, false) && t.submitOwner == None && t.queue.items == s.queue.items
            && At(Do(s, ClockFails(p)), p) == Returned(r, false) && Do(s, ClockFails(p)).submitOwner == None
    ensures s.writer == Popping && s.queue.items == [] ==> Do(Do(s, Close), Pop(false)).writer == WriterGone
  {}

  lemma {:induction false} ConfigStays(s: State, actions: seq<Action>)
    ensures Run(s, actions).disk.config == s.disk.config
    decreases |actions|
  {
    if actions != [] {
      StepConfig(s, actions[0]);
      hide Do;
      ConfigStays(Do(s, actions[0]), actions[1..]);
    }
  }

  lemma StepConfig(s: State, a: Action)
    ensures Do(s, a).disk.config == s.disk.config
  {
    hide MustRotate, Rename;
  }

  lemma PopIsPop(s: State)
    requires s.writer == Popping
    ensures var (q, result, x) := Q.PopFrom(s.queue, -1, []);
            var t := Do(s, Pop(false));
            && t.queue == q
            && (x.Some? ==> t.writer == Formatting(x.value))
            && (result == Some(Q.QueueClosed) ==> t.writer == WriterGone)
            && (result == None ==> t == s)
  {}

  /** When a waiting call returns and what it says: it returns exactly if its record was announced or the writer
      has failed, and says success exactly if the writer has not. */
  lemma CallReturnsIff(s: State, p: nat)
    requires At(s, p).Awaiting?
    ensures var r := At(s, p).record;
            var t := Do(s, Check(p));
            && (At(t, p) != At(s, p) <==> s.durableSequence >= r.sequence || s.writeError)
            && (At(t, p) == Returned(r, true) <==> s.durableSequence >= r.sequence && !s.writeError)
            && (At(t, p) == Returned(r, false) <==> s.writeError)
  {}

  /** The writer rotates exactly if the line does not fit; a failure to format ends it. */
  lemma RotatesIffFull(s: State, length: nat)
    requires s.writer.Formatting?
    ensures var t := Do(s, Format(length, true));
            && (t.writer == Rotating(s.writer.record, length, SyncOld) <==> !Fits(s.disk, length))
            && (t.writer == Appending(s.writer.record, length) <==> Fits(s.disk, length))
  {}

  /** Whatever fails in the writer sets the error, ends it and closes the queue. */
  lemma WriterFailureEnds(s: State, a: Action)
    requires || (a == Pop(true) && s.writer == Popping) || (a.Format? && !a.ok && s.writer.Formatting?)
             || (a == Rotate(false) && s.writer.Rotating?) || (a == Write(false) && s.writer.Appending?)
             || (a == Sync(false) && s.writer.Syncing?)
    ensures var t := Do(s, a);
            && t.writeError && t.writer == Failing && t.queue == s.queue
            && Do(t, GiveUp).writer == WriterGone && Do(t, GiveUp).queue.closed
  {}

  // ---------------------------------------------------------------- what callers can rely on

  /** Under every interleaving of any number of producers, the writer, rotation, failures and shutdown: a
      call that returned success has its record accepted, and that record and every accepted record with a
      smaller number has been written and synced. */
  lemma SuccessMeansSynced(config: Config, capacity: nat, bytes: nat, older: seq<bool>, actions: seq<Action>, p: nat)
    requires capacity > 0 && ConfigOk(config)
    requires var s := Reached(config, capacity, bytes, older, actions); At(s, p).Returned? && At(s, p).ok
    ensures var s := Reached(config, capacity, bytes, older, actions);
            && At(s, p).record in s.queue.pushed && s.disk.synced <= |s.written|
            && (forall r | r in s.queue.pushed && r.sequence <= At(s, p).record.sequence :: r in s.written[..s.disk.synced])
  {
    ReachedOk(config, capacity, bytes, older, actions);
    var s := Reached(config, capacity, bytes, older, actions);
    hide Reached, OrderOk, QueueOk, DurableOk, FilesInOrder;
    forall r | r in s.queue.pushed && r.sequence <= At(s, p).record.sequence ensures r in s.written[..s.disk.synced] {
      var i :| 0 <= i < |s.queue.pushed| && s.queue.pushed[i] == r;
      assert s.written[..s.disk.synced][i] == r;
    }
  }

  /** However the calls, the failures and the rotations fall: a line that is written leaves the active file within
      rotation_bytes, or is the only line in it. */
  lemma FileStaysWithinLimit(config: Config, capacity: nat, bytes: nat, older: seq<bool>, actions: seq<Action>)
    requires capacity > 0 && ConfigOk(config)
    requires Reached(config, capacity, bytes, older, actions).writer.Appending?
    ensures var s := Reached(config, capacity, bytes, older, actions);
            var t := Do(s, Write(true));
            && t.disk.bytes == s.disk.bytes + s.writer.length
            && (config.limit > 0 ==> t.disk.bytes <= config.limit || t.disk.bytes == s.writer.length)
  {
    ConfigStays(Start(config, capacity, bytes, older), actions);
    ReachedOk(config, capacity, bytes, older, actions);
    var s := Reached(config, capacity, bytes, older, actions);
    hide Reached, OrderOk, QueueOk, DurableOk, ProducersOk, FilesOk, StartsOk;
    assert DiskOk(s.disk, Settled);
  }

  /** When the writer is about to announce a record, that record is the last one in the active file and
      synced there. */
  lemma AnnouncedIsActive(config: Config, capacity: nat, bytes: nat, older: seq<bool>, actions: seq<Action>)
    requires capacity > 0 && ConfigOk(config)
    requires Reached(config, capacity, bytes, older, actions).writer.Recording?
    ensures var s := Reached(config, capacity, bytes, older, actions);
            var n := |s.written| - 1;
            && n >= 0 && s.written[n] == s.writer.record && Do(s, Announce).durableSequence == s.writer.record.sequence
            && s.disk.active.Some? && s.disk.active.value.first <= n < s.disk.active.value.synced && Safe(s.disk, n)
  {
    ReachedOk(config, capacity, bytes, older, actions);
    var s := Reached(config, capacity, bytes, older, actions);
    hide Reached, OrderOk, QueueOk, DurableOk, ProducersOk;
    assert DiskOk(s.disk, Settled);
    AnnouncedIndex(s.disk);
  }

  /** What callers were promised and what they still have. A record that was acknowledged, or that is older
      than an acknowledged one, is still synced if and only if it is in a file that was not compressed. While
      no rotation is under way and the writer has not failed, that is so if and only if no rotation happened
      since it was written, or compression is off and at most `files` rotations happened; and it is in some
      file at all if and only if at most `files` rotations happened. */
  lemma StillSyncedIff(config: Config, capacity: nat, bytes: nat, older: seq<bool>, actions: seq<Action>, p: nat, i: nat)
    requires capacity > 0 && ConfigOk(config)
    requires var s := Reached(config, capacity, bytes, older, actions);
             && At(s, p).Returned? && At(s, p).ok
             && i < |s.queue.pushed| && s.queue.pushed[i].sequence <= At(s, p).record.sequence
    ensures var s := Reached(config, capacity, bytes, older, actions);
            && i < |s.written| && s.written[i] == s.queue.pushed[i]
            && (Safe(s.disk, i) <==> Uncompressed(s.disk, i))
            && (!s.writer.Rotating? && !s.writeError ==>
                  && StartsOk(s.disk)
                  && (Held(s.disk, i) <==> Age(s.disk, i) <= s.disk.config.files)
                  && (Safe(s.disk, i) <==>
                        Age(s.disk, i) == 0 || (!s.disk.config.compress && Age(s.disk, i) <= s.disk.config.files)))
  {
    ReachedOk(config, capacity, bytes, older, actions);
    var s := Reached(config, capacity, bytes, older, actions);
    hide Reached, OrderOk, QueueOk, DurableOk, Safe, Held, Uncompressed, FilesOk, StartsOk, Layout, Age;
    assert SyncedUpTo(s.queue.pushed, s.disk.synced, At(s, p).record.sequence);
    SafeIffUncompressed(s.disk, i);
    if !s.writer.Rotating? && !s.writeError { SafeByAge(s.disk, i); }
  }

  /** What was written is always the accepted records in order, cut off somewhere; and a writer that ended
      without an error has written and synced all of them. */
  lemma WrittenIsPrefixOfAccepted(config: Config, capacity: nat, bytes: nat, older: seq<bool>, actions: seq<Action>)
    requires capacity > 0 && ConfigOk(config)
    ensures var s := Reached(config, capacity, bytes, older, actions);
            && s.written <= s.queue.pushed && Increasing(s.queue.pushed)
            && (s.writer.WriterGone? && !s.writeError ==> s.written == s.queue.pushed && s.disk.synced == |s.written|)
  {
    ReachedOk(config, capacity, bytes, older, actions);
    hide Reached, DurableOk, ProducersOk, FilesInOrder;
    var s := Reached(config, capacity, bytes, older, actions);
    if |s.queue.items| == 0 { assert s.queue.items == []; }
  }

  /** A call up to its wait: the record is in the queue. */
  lemma CallIsAccepted(s: State, p: nat, text: string)
    requires s.submitOwner.None? && At(s, p).Out? && |s.queue.items| == 0 && !s.queue.closed && s.queue.capacity > 0
    ensures var r := Record(s.nextSequence, text);
            var t := Do(Do(Do(s, Submit(p, text)), Number(p)), Push(p));
            && t == s.(nextSequence := s.nextSequence + 1, queue := Q.Put(s.queue, r), producers := t.producers)
            && At(t, p) == Awaiting(r)
  {}

  /** The writer's part of it. */
  lemma RecordIsWritten(s: State, r: Record, length: nat)
    requires s.writer == Popping && |s.queue.items| > 0 && s.queue.items[0] == r && !MustRotate(s.disk, length)
    ensures Do(Do(Do(s, Pop(false)), Format(length, true)), Write(true))
         == s.(writer := Syncing(r), written := s.written + [r], disk := Append(s.disk, length), queue := Q.Take(s.queue))
  {
    hide Append, MustRotate, Q.Take;
  }

  /** With an idle writer, an open empty queue, room in the active file and no failure, a call returns
      success with its text synced in the active file. */
  lemma LogCompletes(s: State, p: nat, text: string, length: nat)
    requires Inv(s) && s.submitOwner.None? && At(s, p).Out? && s.writer == Popping && !MustRotate(s.disk, length)
    requires |s.queue.items| == 0 && !s.queue.closed && s.queue.capacity > 0
    ensures var accepted := Do(Do(Do(s, Submit(p, text)), Number(p)), Push(p));
            var written := Do(Do(Do(accepted, Pop(false)), Format(length, true)), Write(true));
            var t := Do(Do(Do(written, Sync(true)), Announce), Check(p));
            && At(t, p) == Returned(Record(s.nextSequence, text), true)
            && t.written == s.written + [Record(s.nextSequence, text)]
            && t.disk == SyncActive(Append(s.disk, length)) && t.disk.synced == |t.written|
  {
    var r := Record(s.nextSequence, text);
    CallIsAccepted(s, p, text);
    var accepted := Do(Do(Do(s, Submit(p, text)), Number(p)), Push(p));
    assert accepted.queue.items[0] == r;
    RecordIsWritten(accepted, r, length);
    AppendKeeps(s.disk, length);
    LogFiles.SyncKeeps(Append(s.disk, length));
    assert |s.written| == s.disk.count && !s.writeError;
    var written := Do(Do(Do(accepted, Pop(false)), Format(length, true)), Write(true));
    hide Inv, Append, SyncActive, DiskOk, Q.Put, Q.Take, MustRotate, RotateFile;
    assert At(written, p) == Awaiting(r) && written.writer == Syncing(r);
    CallReturns(written, p, r);
  }

  lemma CallReturns(s: State, p: nat, r: Record)
    requires s.writer == Syncing(r) && At(s, p) == Awaiting(r) && !s.writeError
    ensures var t := Do(Do(Do(s, Sync(true)), Announce), Check(p));
            At(t, p) == Returned(r, true) && t.written == s.written && t.disk == SyncActive(s.disk)
  {
    hide SyncActive;
  }

  // ---------------------------------------------------------------- compression takes a sync back

  const CONFIG := Config(15, 1, true)
  const A := Record(1, "a")
  const B := Record(2, "b")

  const FIRST_CALL := [Submit(0, "a"), Number(0), Push(0), Pop(false), Format(10, true), Write(true), Sync(true), Announce]
  const SECOND_CALL := [Submit(1, "b"), Number(1), Push(1), Pop(false), Format(10, true)]
  const ROTATION := [Rotate(true), Rotate(true), Rotate(true), Rotate(true)]
  const LAST_STEPS := [Write(true), Sync(true), Announce, Check(0)]

  const LOGGED := State(map[0 := Awaiting(A)], None, 2, Q.Fifo(4, [], false, [A], [A]), Popping, [A],
                        Disk(CONFIG, 1, 1, 10, [0], Some(File(0, 1, 1, false)), None, map[]), 1, false)
  const FULL := State(map[0 := Awaiting(A), 1 := Awaiting(B)], None, 3, Q.Fifo(4, [], false, [A, B], [A, B]),
                      Rotating(B, 10, SyncOld), [A], LOGGED.disk, 1, false)
  const ROTATED := FULL.(writer := Appending(B, 10),
                         disk := Disk(CONFIG, 1, 1, 0, [0, 1], Some(File(1, 1, 1, false)), None, map[1 := File(0, 1, 0, true)]))
  const RETURNED := ROTATED.(writer := Popping, written := [A, B], durableSequence := 2,
                             producers := map[0 := Returned(A, true), 1 := Awaiting(B)],
                             disk := Disk(CONFIG, 2, 2, 10, [0, 1], Some(File(1, 2, 2, false)), None, map[1 := File(0, 1, 0, true)]))

  const ACCEPTED := Start(CONFIG, 4, 0, []).(nextSequence := 2, queue := Q.Fifo(4, [A], false, [A], []), producers := map[0 := Awaiting(A)])
  const BUFFERED := LOGGED.(writer := Syncing(A), durableSequence := 0,
                            disk := Disk(CONFIG, 1, 0, 10, [0], Some(File(0, 1, 0, false)), None, map[]))

  lemma FirstAccepted()
    ensures Do(Do(Do(Start(CONFIG, 4, 0, []), Submit(0, "a")), Number(0)), Push(0)) == ACCEPTED
  {
    CallIsAccepted(Start(CONFIG, 4, 0, []), 0, "a");
  }

  lemma FirstBuffered()
    ensures Do(Do(Do(ACCEPTED, Pop(false)), Format(10, true)), Write(true)) == BUFFERED
  {
    RecordIsWritten(ACCEPTED, A, 10);
    assert Q.Take(ACCEPTED.queue) == LOGGED.queue;
    hide Do;
  }

  lemma FirstAnnounced()
    ensures Do(Do(BUFFERED, Sync(true)), Announce) == LOGGED
  {}

  lemma FirstCall()
    ensures Run(Start(CONFIG, 4, 0, []), FIRST_CALL) == LOGGED
  {
    hide Do;
    FirstAccepted();
    FirstBuffered();
    FirstAnnounced();
    RunThree(Start(CONFIG, 4, 0, []), Submit(0, "a"), Number(0), Push(0), FIRST_CALL[3..]);
    RunThree(ACCEPTED, Pop(false), Format(10, true), Write(true), FIRST_CALL[6..]);
    RunTwo(BUFFERED, Sync(true), Announce, []);
    assert FIRST_CALL == [Submit(0, "a"), Number(0), Push(0)] + FIRST_CALL[3..];
    assert FIRST_CALL[3..] == [Pop(false), Format(10, true), Write(true)] + FIRST_CALL[6..];
    assert FIRST_CALL[6..] == [Sync(true), Announce] + [];
  }

  const ACCEPTED_TOO := LOGGED.(nextSequence := 3, queue := Q.Fifo(4, [B], false, [A, B], [A]),
                                producers := map[0 := Awaiting(A), 1 := Awaiting(B)])

  lemma SecondAccepted()
    ensures Do(Do(Do(LOGGED, Submit(1, "b")), Number(1)), Push(1)) == ACCEPTED_TOO
  {
    CallIsAccepted(LOGGED, 1, "b");
  }

  lemma SecondFormatted()
    ensures Do(Do(ACCEPTED_TOO, Pop(false)), Format(10, true)) == FULL
  {}

  lemma SecondCall()
    ensures Run(LOGGED, SECOND_CALL) == FULL
  {
    hide Do;
    SecondAccepted();
    SecondFormatted();
    RunThree(LOGGED, Submit(1, "b"), Number(1), Push(1), SECOND_CALL[3..]);
    RunTwo(ACCEPTED_TOO, Pop(false), Format(10, true), []);
    assert SECOND_CALL == [Submit(1, "b"), Number(1), Push(1)] + SECOND_CALL[3..];
    assert SECOND_CALL[3..] == [Pop(false), Format(10, true)] + [];
  }

  lemma RotationRuns()
    ensures Run(FULL, ROTATION) == ROTATED
  {
    var t := Do(Do(FULL, Rotate(true)), Rotate(true));
    assert t == FULL.(writer := Rotating(B, 10, Gzip),
                      disk := FULL.disk.(active := None, plain := Some(File(0, 1, 1, false)), kept := map[]));
    assert Do(Do(t, Rotate(true)), Rotate(true)) == ROTATED;
    hide Do;
    RunTwo(FULL, Rotate(true), Rotate(true), ROTATION[2..]);
    RunTwo(t, Rotate(true), Rotate(true), []);
    assert ROTATION == [Rotate(true), Rotate(true)] + ROTATION[2..] && ROTATION[2..] == [Rotate(true), Rotate(true)] + [];
  }

  lemma LastSteps()
    ensures Run(ROTATED, LAST_STEPS) == RETURNED
  {
    var t := Do(Do(ROTATED, Write(true)), Sync(true));
    assert t == ROTATED.(writer := Recording(B), written := [A, B],
                         disk := Disk(CONFIG, 2, 2, 10, [0, 1], Some(File(1, 2, 2, false)), None, map[1 := File(0, 1, 0, true)]));
    assert Do(Do(t, Announce), Check(0)) == RETURNED;
    hide Do;
    RunTwo(ROTATED, Write(true), Sync(true), LAST_STEPS[2..]);
    RunTwo(t, Announce, Check(0), []);
    assert LAST_STEPS == [Write(true), Sync(true)] + LAST_STEPS[2..] && LAST_STEPS[2..] == [Announce, Check(0)] + [];
  }

  /** A run with compression: a caller is told that its record is durable at a moment when the record is
      only in a compressed file that was never synced. */
  lemma CompressionUnsyncs()
    ensures var s := Reached(CONFIG, 4, 0, [], FIRST_CALL + (SECOND_CALL + (ROTATION + LAST_STEPS)));
            && At(s, 0) == Returned(A, true) && s.written == [A, B]
            && Held(s.disk, 0) && !Safe(s.disk, 0)
  {
    hide Do, Run;
    FirstCall();
    SecondCall();
    RotationRuns();
    LastSteps();
    RunSplits(Start(CONFIG, 4, 0, []), FIRST_CALL, SECOND_CALL + (ROTATION + LAST_STEPS));
    RunSplits(LOGGED, SECOND_CALL, ROTATION + LAST_STEPS);
    RunSplits(FULL, ROTATION, LAST_STEPS);
    assert HasFile(RETURNED.disk, File(0, 1, 0, true)) by { assert RETURNED.disk.kept[1] == File(0, 1, 0, true); }
    assert !Safe(RETURNED.disk, 0);
  }

  lemma {:induction false} RunSplits(s: State, a: seq<Action>, b: seq<Action>)
    ensures Run(s, a + b) == Run(Run(s, a), b)
    decreases |a|
  {
    hide Do;
    if a == [] {
      assert a + b == b;
    } else {
      assert (a + b)[1..] == a[1..] + b;
      RunSplits(Do(s, a[0]), a[1..], b);
    }
  }

  lemma RunTwo(s: State, a: Action, b: Action, rest: seq<Action>)
    ensures Run(s, [a, b] + rest) == Run(Do(Do(s, a), b), rest)
  {
    hide Do;
    assert [a, b] + rest == [a] + ([b] + rest);
    RunOne(s, a, [b] + rest);
    RunOne(Do(s, a), b, rest);
  }

  lemma RunThree(s: State, a: Action, b: Action, c: Action, rest: seq<Action>)
    ensures Run(s, [a, b, c] + rest) == Run(Do(Do(Do(s, a), b), c), rest)
  {
    hide Do;
    assert [a, b, c] + rest == [a] + ([b, c] + rest);
    RunOne(s, a, [b, c] + rest);
    RunTwo(Do(s, a), b, c, rest);
  }

  lemma RunOne(s: State, a: Action, rest: seq<Action>)
    ensures Run(s, [a] + rest) == Run(Do(s, a), rest)
  {
    hide Do;
    assert ([a] + rest)[0] == a && ([a] + rest)[1..] == rest;
  }
}
