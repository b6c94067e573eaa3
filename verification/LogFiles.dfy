/**
 The files behind the log: the active one, and the rotated ones kept under the numbers 1, 2, ... Records
 are counted in the order they are written; a file holds a stretch of that count and knows how far its
 contents were synced. A gzip file is written without a sync, so none of it counts as synced.
 */
module LogFiles {
  import opened Common

  /** Records `first .. last` of the count, of which those before `synced` have reached the disk. */
  datatype File = File(first: nat, last: nat, synced: nat, compressed: bool)

  /** `limit` is rotation_bytes, zero when rotation is off. */
  datatype Config = Config(limit: nat, files: nat, compress: bool)

  /** `starts` lists where each active file began; `plain` is a rotated file that is about to be compressed. */
  datatype Disk = Disk(
    config: Config, count: nat, synced: nat, bytes: nat, starts: seq<nat>,
    active: Option<File>, plain: Option<File>, kept: map<nat, File>)

  /** What async_logger_init_ex accepts. */
  predicate ConfigOk(c: Config) { c.limit > 0 ==> c.files > 0 }

  /** What an earlier process left: `bytes` is the size of its active file, and `older[n - 1]` tells whether
      there is a rotated file number `n`. None of these holds a record of this process. */
  function Fresh(config: Config, bytes: nat, older: seq<bool>): Disk {
    Disk(config, 0, 0, bytes, seq(|older| + 1, _ => 0), Some(File(0, 0, 0, false)), None,
         map n: nat | n <= config.files && LeftOver(older, n) :: File(0, 0, 0, config.compress))
  }

  predicate LeftOver(older: seq<bool>, n: nat) { 1 <= n <= |older| && older[n - 1] }

  // ---------------------------------------------------------------- steps of the writer

  /** Where rotate_file stands. `Settled` is outside of it. */
  datatype Phase =
    | Settled
    | SyncOld             // about to sync and close the active file
    | Shift(index: nat)   // about to rename number index - 1 to index
    | Swap                // about to rename the active file to number 1
    | Gzip                // about to compress it
    | Reopen              // about to open a new active file

  predicate MustRotate(d: Disk, length: nat) {
    d.config.limit > 0 && d.config.files > 0 && d.bytes > 0 && d.bytes + length > d.config.limit
  }

  /** A line of that length may go into the active file: rotation is off, the file is empty, or the line still
      fits below the limit. */
  predicate Fits(d: Disk, length: nat) {
    d.config.limit == 0 || d.config.files == 0 || d.bytes == 0 || d.bytes + length <= d.config.limit
  }

  function AfterSync(d: Disk): Phase { if d.config.files > 1 then Shift(d.config.files) else Swap }

  /** rename: an existing target is replaced, a missing source leaves everything alone. */
  function Rename(kept: map<nat, File>, from: nat, to: nat): map<nat, File> {
    if from in kept then (kept - {from})[to := kept[from]] else kept
  }

  /** The next step of a rotation, when it succeeds. */
  function RotateStep(d: Disk, phase: Phase): (Disk, Phase) {
    match phase
    case Settled => (d, Settled)
    case SyncOld => (SyncActive(d), AfterSync(d))
    case Shift(index) =>
      if index < 2 then (d, Swap)
      else (d.(kept := Rename(d.kept, index - 1, index)), if index > 2 then Shift(index - 1) else Swap)
    case Swap =>
      if d.active.None? then (d, Swap)
      else if d.config.compress then (d.(kept := d.kept - {1}, plain := d.active, active := None), Gzip)
      else (d.(kept := d.kept[1 := d.active.value], active := None), Reopen)
    case Gzip =>
      if d.plain.None? then (d, Gzip)
      else
        var f := d.plain.value;
        (d.(kept := d.kept[1 := f.(synced := f.first, compressed := true)], plain := None), Reopen)
    case Reopen =>
      (d.(starts := d.starts + [d.count], active := Some(File(d.count, d.count, d.count, false)), bytes := 0), Settled)
  }

  /** What a step that fails leaves behind: the number to be replaced has been unlinked by then. */
  function RotateFail(d: Disk, phase: Phase): Disk {
    if phase == Swap then d.(kept := d.kept - {1}) else d
  }

  function SyncActive(d: Disk): Disk {
    if d.active.None? then d
    else d.(synced := d.count, active := Some(d.active.value.(synced := d.active.value.last)))
  }

  function Append(d: Disk, length: nat): Disk {
    if d.active.None? then d
    else
      d.(count := d.count + 1, bytes := d.bytes + length,
         active := Some(d.active.value.(last := d.active.value.last + 1)))
  }

  // ---------------------------------------------------------------- what every step keeps

  /** A rotated file is synced as a whole, or compressed and not synced at all. */
  predicate RotatedOk(f: File, synced: nat) {
    f.first <= f.last <= synced && f.synced == if f.compressed then f.first else f.last
  }

  predicate FilesOk(d: Disk) {
    && d.synced <= d.count
    && (d.active.Some? ==>
          var f := d.active.value;
          !f.compressed && f.first <= f.synced == d.synced && f.last == d.count)
    && (d.plain.Some? ==> RotatedOk(d.plain.value, d.synced) && !d.plain.value.compressed)
    && (forall n | n in d.kept :: RotatedOk(d.kept[n], d.synced) && d.kept[n].compressed == d.config.compress)
  }

  predicate StartsOk(d: Disk) {
    && |d.starts| > 0 && d.starts[0] == 0 && d.starts[|d.starts| - 1] <= d.count
    && (forall i, j | 0 <= i < j < |d.starts| :: d.starts[i] <= d.starts[j])
  }

  /** The number of rotations so far, which is also the number of the active stretch. */
  function Rotations(d: Disk): nat
    requires |d.starts| > 0
  {
    |d.starts| - 1
  }

  function EndOf(starts: seq<nat>, count: nat, j: nat): nat { if j + 1 < |starts| then starts[j + 1] else count }

  /** The file that stretch `j` became. */
  function RotatedFile(compress: bool, starts: seq<nat>, count: nat, j: nat): File
    requires j < |starts|
  {
    var end := EndOf(starts, count, j);
    File(starts[j], end, if compress then starts[j] else end, compress)
  }

  /** Which stretch is kept under number `n`, `r` being the number of finished rotations. */
  function Stretch(phase: Phase, config: Config, r: nat, n: nat): (j: Option<nat>)
    ensures j.Some? ==> j.value <= r
  {
    if n == 0 || n > config.files then None
    else
      match phase
      case Settled => if n <= r then Some(r - n) else None
      case SyncOld => if n <= r then Some(r - n) else None
      case Shift(index) => Shifted(config, r, index, n)
      case Swap => Shifted(config, r, 1, n)
      case Gzip => if 1 < n <= r + 1 then Some(r + 1 - n) else None
      case Reopen => if n <= r + 1 then Some(r + 1 - n) else None
  }

  /** Numbers above `index` have moved up, `index` itself is free unless it is the last. */
  function Shifted(config: Config, r: nat, index: nat, n: nat): (j: Option<nat>)
    requires n > 0
    ensures j.Some? ==> j.value <= r
  {
    if n > index then (if n <= r + 1 then Some(r + 1 - n) else None)
    else if n <= r && (n < index || n == config.files) then Some(r - n)
    else None
  }

  /** The kept files are the stretches their numbers stand for. Only a file without any record of this process
      may be missing. */
  ghost predicate KeptOk(config: Config, starts: seq<nat>, count: nat, kept: map<nat, File>, phase: Phase)
    requires |starts| > 0
  {
    forall n :: KeptAt(config, starts, count, kept, phase, n)
  }

  predicate KeptAt(config: Config, starts: seq<nat>, count: nat, kept: map<nat, File>, phase: Phase, n: nat)
    requires |starts| > 0
  {
    var j := Stretch(phase, config, |starts| - 1, n);
    && (n in kept ==> j.Some?)
    && (j.Some? && EndOf(starts, count, j.value) > 0 ==> n in kept)
    && (n in kept && j.Some? ==> kept[n] == RotatedFile(config.compress, starts, count, j.value))
  }

  ghost predicate Layout(d: Disk, phase: Phase)
    requires |d.starts| > 0
  {
    var r := Rotations(d);
    && KeptOk(d.config, d.starts, d.count, d.kept, phase)
    && (phase == Gzip || phase == Reopen <==> d.active.None?)
    && (phase == Reopen ==> 1 in d.kept)
    && (phase == Gzip <==> d.plain.Some?) && (phase == Gzip ==> d.config.compress)
    && (d.active.Some? ==> d.active.value.first == d.starts[r])
    && (d.plain.Some? ==> d.plain.value == File(d.starts[r], d.count, d.count, false))
    && (phase.Shift? ==> 2 <= phase.index <= d.config.files)
    && (phase != Settled ==> d.config.files > 0 && d.synced == d.count)
  }

  ghost predicate DiskOk(d: Disk, phase: Phase) { FilesOk(d) && StartsOk(d) && Layout(d, phase) }

  /** The record written last is in the active file. */
  predicate LastIsActive(d: Disk) { d.active.Some? && d.active.value.first < d.count }

  lemma FreshOk(config: Config, bytes: nat, older: seq<bool>)
    ensures DiskOk(Fresh(config, bytes, older), Settled)
  {
    var d := Fresh(config, bytes, older);
    forall n ensures KeptAt(config, d.starts, 0, d.kept, Settled, n) {}
  }

  lemma AppendKeeps(d: Disk, length: nat)
    requires DiskOk(d, Settled)
    ensures DiskOk(Append(d, length), Settled) && Append(d, length).count == d.count + 1
    ensures Append(d, length).synced == d.synced && LastIsActive(Append(d, length))
  {
    var e := Append(d, length);
    forall n ensures KeptAt(e.config, e.starts, e.count, e.kept, Settled, n) {
      assert KeptAt(d.config, d.starts, d.count, d.kept, Settled, n);
    }
  }

  lemma SyncKeeps(d: Disk)
    requires DiskOk(d, Settled) || DiskOk(d, SyncOld)
    ensures DiskOk(d, Settled) ==> DiskOk(SyncActive(d), Settled)
    ensures DiskOk(d, SyncOld) ==> DiskOk(SyncActive(d), SyncOld)
    ensures SyncActive(d).synced == SyncActive(d).count == d.count
    ensures LastIsActive(d) ==> LastIsActive(SyncActive(d))
  {
    hide KeptOk;
  }

  lemma SyncOldKeeps(d: Disk)
    requires DiskOk(d, SyncOld)
    ensures DiskOk(d, AfterSync(d))
  {
    var next := AfterSync(d);
    forall n ensures KeptAt(d.config, d.starts, d.count, d.kept, next, n) {
      assert KeptAt(d.config, d.starts, d.count, d.kept, SyncOld, n);
    }
  }

  lemma ShiftKeeps(d: Disk, index: nat)
    requires DiskOk(d, Shift(index))
    ensures var (e, next) := RotateStep(d, Shift(index)); DiskOk(e, next)
  {
    var (e, next) := RotateStep(d, Shift(index));
    assert KeptAt(d.config, d.starts, d.count, d.kept, Shift(index), index - 1);
    forall n ensures KeptAt(e.config, e.starts, e.count, e.kept, next, n) {
      assert KeptAt(d.config, d.starts, d.count, d.kept, Shift(index), n);
    }
    forall n | n in e.kept ensures e.kept[n] in d.kept.Values {
      assert n == index && index - 1 in d.kept ==> e.kept[n] == d.kept[index - 1];
    }
  }

  lemma SwapPlainKeeps(d: Disk)
    requires DiskOk(d, Swap) && !d.config.compress
    ensures var (e, next) := RotateStep(d, Swap); DiskOk(e, next)
  {
    var e := d.(kept := d.kept[1 := d.active.value], active := None);
    assert RotateStep(d, Swap) == (e, Reopen);
    assert e.kept[1] == RotatedFile(false, d.starts, d.count, Rotations(d));
    forall n ensures KeptAt(e.config, e.starts, e.count, e.kept, Reopen, n) {
      assert KeptAt(d.config, d.starts, d.count, d.kept, Swap, n);
      assert n != 1 && n in e.kept ==> n in d.kept && e.kept[n] == d.kept[n];
    }
    forall n | n in e.kept ensures RotatedOk(e.kept[n], e.synced) && !e.kept[n].compressed {
      assert n != 1 ==> n in d.kept && e.kept[n] == d.kept[n];
    }
  }

  lemma SwapForGzipKeeps(d: Disk)
    requires DiskOk(d, Swap) && d.config.compress
    ensures var (e, next) := RotateStep(d, Swap); DiskOk(e, next)
  {
    var e := d.(kept := d.kept - {1}, plain := d.active, active := None);
    assert RotateStep(d, Swap) == (e, Gzip);
    forall n ensures KeptAt(e.config, e.starts, e.count, e.kept, Gzip, n) {
      assert KeptAt(d.config, d.starts, d.count, d.kept, Swap, n);
    }
  }

  lemma GzipKeeps(d: Disk)
    requires DiskOk(d, Gzip)
    ensures var (e, next) := RotateStep(d, Gzip); DiskOk(e, next)
  {
    var (e, next) := RotateStep(d, Gzip);
    forall n ensures KeptAt(e.config, e.starts, e.count, e.kept, next, n) {
      assert KeptAt(d.config, d.starts, d.count, d.kept, Gzip, n);
    }
  }

  lemma ReopenKeeps(d: Disk)
    requires DiskOk(d, Reopen)
    ensures var (e, next) := RotateStep(d, Reopen); DiskOk(e, next)
  {
    var (e, next) := RotateStep(d, Reopen);
    forall n ensures KeptAt(e.config, e.starts, e.count, e.kept, next, n) {
      assert KeptAt(d.config, d.starts, d.count, d.kept, Reopen, n);
    }
  }

  lemma DiskOkIsFilesOk(d: Disk, phase: Phase)
    requires DiskOk(d, phase)
    ensures FilesOk(d)
  {}

  lemma RotationBegins(d: Disk, length: nat)
    requires DiskOk(d, Settled) && d.synced == d.count && MustRotate(d, length)
    ensures DiskOk(d, SyncOld)
  {
    forall n ensures KeptAt(d.config, d.starts, d.count, d.kept, SyncOld, n) {
      assert KeptAt(d.config, d.starts, d.count, d.kept, Settled, n);
    }
  }

  /** Every step of a rotation keeps the files in order. */
  lemma RotateKeeps(d: Disk, phase: Phase)
    requires DiskOk(d, phase) && phase != Settled
    ensures var (e, next) := RotateStep(d, phase); DiskOk(e, next) && e.count == d.count && e.synced == d.synced
  {
    match phase {
      case SyncOld =>
        SyncedAlready(d);
        SyncOldKeeps(d);
      case Shift(index) => ShiftKeeps(d, index);
      case Swap => if d.config.compress { SwapForGzipKeeps(d); } else { SwapPlainKeeps(d); }
      case Gzip => GzipKeeps(d);
      case Reopen => ReopenKeeps(d);
    }
    hide DiskOk;
  }

  function RotateMany(d: Disk, phase: Phase, n: nat): (Disk, Phase)
    decreases n
  {
    if n == 0 then (d, phase)
    else
      var (e, next) := RotateStep(d, phase);
      RotateMany(e, next, n - 1)
  }

  function StepsLeft(config: Config, phase: Phase): nat {
    match phase
    case Settled => 0
    case Reopen => 1
    case Gzip => 2
    case Swap => 3
    case Shift(index) => index + 3
    case SyncOld => config.files + 4
  }

  /** A rotation without failures ends: the old active file is number 1 and an empty one is active. */
  lemma {:induction false} RotationEnds(d: Disk, phase: Phase) returns (n: nat)
    requires DiskOk(d, phase) && phase != Settled
    ensures var (e, next) := RotateMany(d, phase, n);
            && next == Settled && DiskOk(e, Settled) && e.count == d.count && e.bytes == 0
            && e.starts == d.starts + [d.count] && e.active == Some(File(d.count, d.count, d.count, false))
            && 1 in e.kept && e.kept[1] == RotatedFile(d.config.compress, d.starts, d.count, Rotations(d))
    decreases StepsLeft(d.config, phase)
  {
    var (e, next) := RotateStep(d, phase);
    RotateKeeps(d, phase);
    if next == Settled {
      n := 1;
      assert KeptAt(e.config, e.starts, e.count, e.kept, Settled, 1);
    } else {
      var m := RotationEnds(e, next);
      n := m + 1;
    }
  }

  lemma RotationEmpties(d: Disk, phase: Phase)
    requires phase != Settled
    ensures RotateStep(d, phase).1 == Settled ==> RotateStep(d, phase).0.bytes == 0
  {}

  /** In this mode every record was synced before the next is looked at. */
  lemma SyncedAlready(d: Disk)
    requires DiskOk(d, SyncOld)
    ensures SyncActive(d) == d
  {}

  lemma FailKeeps(d: Disk, phase: Phase)
    requires FilesOk(d)
    ensures FilesOk(RotateFail(d, phase)) && RotateFail(d, phase).count == d.count && RotateFail(d, phase).synced == d.synced
    ensures forall n :: n in RotateFail(d, phase).kept <==> n in d.kept && !(phase == Swap && n == 1)
    ensures RotateFail(d, phase).active == d.active && RotateFail(d, phase).plain == d.plain
  {}

  // ---------------------------------------------------------------- what is still on disk

  /** Some file holds record `i`, synced or not. */
  ghost predicate Held(d: Disk, i: nat) { exists f :: HasFile(d, f) && f.first <= i < f.last }

  /** Some file holds record `i`, and that part of it has reached the disk. */
  ghost predicate Safe(d: Disk, i: nat) { exists f :: HasFile(d, f) && f.first <= i < f.synced }

  ghost predicate HasFile(d: Disk, f: File) {
    d.active == Some(f) || d.plain == Some(f) || exists n :: n in d.kept && d.kept[n] == f
  }

  /** Record `i` is in a file that no gzip pass has replaced. */
  ghost predicate Uncompressed(d: Disk, i: nat) { exists f :: HasFile(d, f) && f.first <= i < f.last && !f.compressed }

  /** A record that was synced once still is, if and only if it is in the active file or in a rotated file
      that was not compressed; in the middle of a rotation and after a failure as well. */
  lemma SafeIffUncompressed(d: Disk, i: nat)
    requires FilesOk(d) && i < d.synced
    ensures Safe(d, i) <==> Uncompressed(d, i)
  {
    if Safe(d, i) {
      var f :| HasFile(d, f) && f.first <= i < f.synced;
      assert f.first <= i < f.last && !f.compressed;
    }
    if Uncompressed(d, i) {
      var f :| HasFile(d, f) && f.first <= i < f.last && !f.compressed;
      assert f.first <= i < f.synced;
    }
  }

  /** The stretch record `i` was written in. */
  function StretchOf(starts: seq<nat>, i: nat): (j: nat)
    requires |starts| > 0 && starts[0] == 0
    ensures j < |starts| && starts[j] <= i && forall k | j < k < |starts| :: i < starts[k]
  {
    if starts[|starts| - 1] <= i then |starts| - 1 else StretchOf(starts[..|starts| - 1], i)
  }

  /** How many rotations there were since record `i` was written. */
  function Age(d: Disk, i: nat): nat
    requires StartsOk(d)
  {
    Rotations(d) - StretchOf(d.starts, i)
  }

  lemma InStretch(d: Disk, i: nat, k: nat)
    requires StartsOk(d) && i < d.count && k < |d.starts|
    ensures d.starts[k] <= i < EndOf(d.starts, d.count, k) <==> k == StretchOf(d.starts, i)
  {
    var j := StretchOf(d.starts, i);
    if k < j { assert EndOf(d.starts, d.count, k) == d.starts[k + 1] <= d.starts[j] || k + 1 == j; }
  }

  /** Outside a rotation the file that holds record `i` is the active one, or the one kept under its age. */
  lemma FileOfAge(d: Disk, f: File, i: nat)
    requires DiskOk(d, Settled) && i < d.count && HasFile(d, f) && f.first <= i < f.last
    ensures f == d.active.value <==> Age(d, i) == 0
    ensures f != d.active.value ==> Age(d, i) <= d.config.files && f.compressed == d.config.compress
  {
    var r := Rotations(d);
    InStretch(d, i, r);
    if f != d.active.value {
      var n :| n in d.kept && d.kept[n] == f;
      assert KeptAt(d.config, d.starts, d.count, d.kept, Settled, n);
      InStretch(d, i, r - n);
    }
  }

  lemma KeptAtAge(d: Disk, n: nat)
    requires DiskOk(d, Settled) && 0 < n <= d.config.files && n <= Rotations(d)
    requires EndOf(d.starts, d.count, Rotations(d) - n) > 0
    ensures HasFile(d, RotatedFile(d.config.compress, d.starts, d.count, Rotations(d) - n))
  {
    assert KeptAt(d.config, d.starts, d.count, d.kept, Settled, n);
    assert n in d.kept;
  }

  /** Outside a rotation, record `i` is still in some file if and only if at most `files` rotations have
      happened since, and it is still synced if and only if none has, or compression is off and at most
      `files` have. */
  lemma SafeByAge(d: Disk, i: nat)
    requires DiskOk(d, Settled) && i < d.synced
    ensures Held(d, i) <==> Age(d, i) <= d.config.files
    ensures Safe(d, i) <==> Age(d, i) == 0 || (!d.config.compress && Age(d, i) <= d.config.files)
  {
    SafeIffUncompressed(d, i);
    var f := HolderOfAge(d, i);
    assert !d.active.value.compressed;
    hide DiskOk, HasFile, Age;
    if Held(d, i) {
      var g :| HasFile(d, g) && g.first <= i < g.last;
      FileOfAge(d, g, i);
    }
    if Uncompressed(d, i) {
      var g :| HasFile(d, g) && g.first <= i < g.last && !g.compressed;
      FileOfAge(d, g, i);
    }
  }

  /** A record that is not too old has its file. */
  lemma HolderOfAge(d: Disk, i: nat) returns (f: File)
    requires DiskOk(d, Settled) && i < d.count
    ensures Age(d, i) <= d.config.files ==>
              HasFile(d, f) && f.first <= i < f.last && f.compressed == (Age(d, i) > 0 && d.config.compress)
  {
    var r, j := Rotations(d), StretchOf(d.starts, i);
    InStretch(d, i, j);
    if j == r {
      f := d.active.value;
    } else {
      f := RotatedFile(d.config.compress, d.starts, d.count, j);
      if r - j <= d.config.files { KeptAtAge(d, r - j); }
    }
  }

  /** The last record is in the active file, synced there if everything is. */
  lemma AnnouncedIndex(d: Disk)
    requires DiskOk(d, Settled) && LastIsActive(d) && d.synced == d.count
    ensures d.active.value.first <= d.count - 1 < d.active.value.synced && Safe(d, d.count - 1)
  {
    assert HasFile(d, d.active.value);
  }
}
