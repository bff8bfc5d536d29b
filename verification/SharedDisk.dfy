/** Shared-disk hand-over: the delta chain of a disk on shared storage is forked while source and
    target may both write, and resolved in favour of the host that wins (phaul/fs_haul_ploop.py,
    `shared_ploop`, `p_haul_fs`; phaul/p_haul_vz.py, `migration_complete`, `migration_fail`,
    `target_cleanup`). */
module SharedDisk {
  import opened Prelude

  type Blocks = map<nat, int>

  /** An entry of a disk descriptor: snapshot guid, and the delta file behind it. */
  datatype Delta = Delta(guid: nat, file: nat)

  /** The guid of the writable delta at the end of every chain. */
  const TOP: nat := 0

  /** One disk: delta files, the descriptor, its copy, and the files the two hosts write to. */
  datatype Storage = Storage(
    files: map<nat, Blocks>,
    orig: seq<Delta>,
    backup: Option<seq<Delta>>,
    source: nat,
    target: Option<nat>)

  function FileOf(files: map<nat, Blocks>, f: nat): Blocks {
    if f in files then files[f] else map[]
  }

  /** What a chain of deltas reads as: later deltas hide earlier ones. */
  function Content(files: map<nat, Blocks>, chain: seq<Delta>): Blocks {
    if chain == [] then map[] else
    Content(files, chain[..|chain| - 1]) + FileOf(files, chain[|chain| - 1].file)
  }

  // ---- the contract of libploop, each operation all or nothing -------------------------------

  /** The writable delta gets a guid and a new one is put on top. */
  function Snapshot(chain: seq<Delta>, guid: nat, file: nat): seq<Delta>
    requires chain != []
  {
    chain[|chain| - 1 := Delta(guid, chain[|chain| - 1].file)] + [Delta(TOP, file)]
  }

  predicate Fresh(st: Storage, guid: nat, file: nat) {
    && guid != TOP && file !in st.files && st.source != file && st.target != Some(file)
    && (forall d | d in st.orig :: d.guid != guid && d.file != file)
    && (st.backup.Some? ==> forall d | d in st.backup.value :: d.guid != guid && d.file != file)
  }

  /** There is always a guid and a file not yet used. */
  lemma SomeFresh(st: Storage)
    ensures exists n: nat :: Fresh(st, n, n)
  {
    var chains := st.orig + if st.backup.Some? then st.backup.value else [];
    var used := st.files.Keys + {st.source, TOP} + (if st.target.Some? then {st.target.value} else {})
      + (set d | d in chains :: d.guid) + (set d | d in chains :: d.file);
    var n := AboveAll(used);
    forall d | d in chains ensures d.guid < n && d.file < n {
      assert d.guid in used && d.file in used;
    }
    assert Fresh(st, n, n);
  }

  lemma {:induction false} AboveAll(s: set<nat>) returns (n: nat)
    ensures forall x | x in s :: x < n
  {
    if s == {} {
      n := 0;
    } else {
      var x :| x in s;
      var m := AboveAll(s - {x});
      n := if m > x then m else x + 1;
      forall y | y in s ensures y < n {
        assert y == x || y in s - {x};
      }
    }
  }

  function CreateOffline(st: Storage, guid: nat, file: nat): Storage
    requires st.orig != []
  {
    st.(files := st.files[file := map[]], orig := Snapshot(st.orig, guid, file))
  }

  /** On the copy of the descriptor, with the disk in use: the source goes on writing to the new delta. */
  function Create(st: Storage, guid: nat, file: nat): Storage
    requires st.backup.Some? && st.backup.value != []
  {
    st.(files := st.files[file := map[]], backup := Some(Snapshot(st.backup.value, guid, file)), source := file)
  }

  function Find(chain: seq<Delta>, guid: nat): (i: nat)
    ensures i <= |chain| && (i < |chain| ==> chain[i].guid == guid)
    ensures forall k | 0 <= k < i :: chain[k].guid != guid
  {
    if chain == [] then 0 else if chain[0].guid == guid then 0 else 1 + Find(chain[1..], guid)
  }

  /** Deleting a snapshot merges its delta with the one above; who wrote to that now writes to the
      merged file. `None` if there is no such snapshot. */
  function Merge(st: Storage, guid: nat): Option<Storage> {
    var i := Find(st.orig, guid);
    if i + 1 >= |st.orig| then None else
    var low, high := st.orig[i].file, st.orig[i + 1].file;
    Some(Storage((st.files - {high})[low := FileOf(st.files, low) + FileOf(st.files, high)],
                 st.orig[..i] + [Delta(st.orig[i + 1].guid, low)] + st.orig[i + 2..],
                 st.backup,
                 if st.source == high then low else st.source,
                 if st.target == Some(high) then Some(low) else st.target))
  }

  function SourceWritten(st: Storage, w: Blocks): Storage {
    st.(files := st.files[st.source := FileOf(st.files, st.source) + w])
  }

  function TargetWritten(st: Storage, w: Blocks): Storage {
    if st.target.None? then st else st.(files := st.files[st.target.value := FileOf(st.files, st.target.value) + w])
  }

  // ---- before and after the fork --------------------------------------------------------------

  ghost predicate Sound(files: map<nat, Blocks>, base: seq<Delta>) {
    && base != [] && base[|base| - 1].guid == TOP
    && (forall i | 0 <= i < |base| :: base[i].file in files)
    && (forall i, j | 0 <= i < j < |base| :: base[i].file != base[j].file && base[i].guid != base[j].guid)
  }

  /** The descriptor is `base`, reads as `common`, and the source writes to its top. */
  ghost predicate Whole(st: Storage, base: seq<Delta>, common: Blocks) {
    && Sound(st.files, base) && st.orig == base && Content(st.files, base) == common
    && st.source == base[|base| - 1].file && st.target.None?
  }

  /** The original descriptor has one more delta on top of `base`, where the target wrote `theirs`. */
  ghost predicate OrigHalf(st: Storage, base: seq<Delta>, og: nat, common: Blocks, theirs: Blocks) {
    && Sound(st.files, base) && Content(st.files, base) == common
    && og != TOP && |st.orig| == |base| + 1
    && (forall d | d in base :: d.guid != og && d.file != st.orig[|base|].file)
    && st.orig == Snapshot(base, og, st.orig[|base|].file)
    && st.orig[|base|].file in st.files && st.files[st.orig[|base|].file] == theirs
    && (st.target.None? || st.target == Some(st.orig[|base|].file))
  }

  /** Original and copy share the deltas of `base`, which read as `common`; on top of them the source
      has written `own` in the copy and the target `theirs` in the original. */
  ghost predicate Forked(st: Storage, base: seq<Delta>, og: nat, bg: nat, common: Blocks, own: Blocks, theirs: Blocks) {
    && OrigHalf(st, base, og, common, theirs)
    && bg != TOP && st.backup.Some? && |st.backup.value| == |base| + 1
    && var fb := st.backup.value[|base|].file;
      && (forall d | d in base :: d.guid != bg && d.file != fb)
      && fb != st.orig[|base|].file && st.backup.value == Snapshot(base, bg, fb)
      && fb in st.files && st.files[fb] == own && st.source == fb
  }

  /** Original chain, resolved: exactly the deltas of `base` again, reading as `content`. */
  ghost predicate Resolved(st: Storage, base: seq<Delta>, content: Blocks) {
    Sound(st.files, base) && st.orig == base && Content(st.files, base) == content
  }

  lemma {:induction false} ContentFrame(a: map<nat, Blocks>, b: map<nat, Blocks>, chain: seq<Delta>)
    requires forall d | d in chain :: FileOf(a, d.file) == FileOf(b, d.file)
    ensures Content(a, chain) == Content(b, chain)
  {
    if chain != [] {
      assert chain[|chain| - 1] in chain;
      ContentFrame(a, b, chain[..|chain| - 1]);
    }
  }

  lemma WholeWrites(st: Storage, base: seq<Delta>, common: Blocks, w: Blocks)
    requires Whole(st, base, common)
    ensures Whole(SourceWritten(st, w), base, common + w)
  {
    var init, t := base[..|base| - 1], SourceWritten(st, w);
    ContentFrame(st.files, t.files, init);
    assert Content(t.files, base) == Content(st.files, init) + (FileOf(st.files, st.source) + w);
    Overlays(Content(st.files, init), FileOf(st.files, st.source), w);
  }

  lemma ForkedWrites(st: Storage, base: seq<Delta>, og: nat, bg: nat, common: Blocks, own: Blocks, theirs: Blocks,
                     w: Blocks)
    requires Forked(st, base, og, bg, common, own, theirs)
    ensures Forked(SourceWritten(st, w), base, og, bg, common, own + w, theirs)
    ensures st.target.Some? ==> Forked(TargetWritten(st, w), base, og, bg, common, own, theirs + w)
  {
    ContentFrame(st.files, SourceWritten(st, w).files, base);
    ContentFrame(st.files, TargetWritten(st, w).files, base);
  }

  lemma Fork(st: Storage, base: seq<Delta>, common: Blocks, og: nat, fo: nat, bg: nat, fb: nat, mid: Storage)
    requires Whole(st, base, common) && st.backup == Some(base) && Fresh(st, og, fo)
    requires mid == CreateOffline(st, og, fo) && Fresh(mid, bg, fb)
    ensures Forked(Create(mid, bg, fb), base, og, bg, common, map[], map[])
  {
    ContentFrame(st.files, Create(mid, bg, fb).files, base);
  }

  lemma FindLast(base: seq<Delta>, guid: nat, file: nat)
    requires base != [] && forall d | d in base :: d.guid != guid
    ensures Find(Snapshot(base, guid, file), guid) == |base| - 1
  {
    var chain := Snapshot(base, guid, file);
    assert chain[|base| - 1].guid == guid;
    forall k | 0 <= k < |base| - 1 ensures chain[k].guid != guid {
      assert chain[k] == base[k] && base[k] in base;
    }
  }

  /** Overlaying is associative. */
  lemma Overlays(a: Blocks, b: Blocks, c: Blocks)
    ensures a + (b + c) == a + b + c
  {
  }

  lemma MergedContent(files: map<nat, Blocks>, base: seq<Delta>, top: nat, merged: map<nat, Blocks>)
    requires Sound(files, base) && forall d | d in base :: d.file != top
    requires var low := base[|base| - 1].file;
      merged == (files - {top})[low := FileOf(files, low) + FileOf(files, top)]
    ensures Sound(merged, base) && Content(merged, base) == Content(files, base) + FileOf(files, top)
  {
    var n := |base| - 1;
    var low := base[n].file;
    forall d | d in base[..n] ensures FileOf(merged, d.file) == FileOf(files, d.file) {
      var i :| 0 <= i < n && base[i] == d;
      assert base[i].file != base[n].file;
    }
    ContentFrame(files, merged, base[..n]);
    Overlays(Content(files, base[..n]), FileOf(files, low), FileOf(files, top));
  }

  lemma MergedChain(base: seq<Delta>, guid: nat, top: nat)
    requires base != [] && base[|base| - 1].guid == TOP
    ensures var chain, n := Snapshot(base, guid, top), |base| - 1;
      chain[..n] + [Delta(chain[n + 1].guid, chain[n].file)] + chain[n + 2..] == base
  {
    var chain, n := Snapshot(base, guid, top), |base| - 1;
    assert chain[..n] == base[..n] && chain[n + 2..] == [];
    assert base == base[..n] + [base[n]];
  }

  /** Merging the fork of one side gives back the very chain of before, with that side's writes. */
  lemma MergeResolves(st: Storage, base: seq<Delta>, guid: nat, top: nat, common: Blocks, writes: Blocks)
    requires Sound(st.files, base) && Content(st.files, base) == common
    requires guid != TOP && forall d | d in base :: d.guid != guid && d.file != top
    requires st.orig == Snapshot(base, guid, top) && top in st.files && st.files[top] == writes
    ensures Merge(st, guid).Some? && Resolved(Merge(st, guid).value, base, common + writes)
    ensures st.source == top ==> Merge(st, guid).value.source == base[|base| - 1].file
    ensures st.target == Some(top) ==> Merge(st, guid).value.target == Some(base[|base| - 1].file)
  {
    FindLast(base, guid, top);
    MergedChain(base, guid, top);
    MergedContent(st.files, base, top, Merge(st, guid).value.files);
  }

  // ---- any interleaving of writes ---------------------------------------------------------------

  datatype Access = BySource(w: Blocks) | ByTarget(w: Blocks) | OpenedByTarget

  function AccessedOnce(t: Storage, a: Access): Storage {
    match a
    case BySource(w) => SourceWritten(t, w)
    case ByTarget(w) => TargetWritten(t, w)
    case OpenedByTarget => if t.orig == [] then t else t.(target := Some(t.orig[|t.orig| - 1].file))
  }

  function Accessed(st: Storage, log: seq<Access>): Storage {
    if log == [] then st else AccessedOnce(Accessed(st, log[..|log| - 1]), log[|log| - 1])
  }

  /** What the writes of one side come to; the target writes nothing before it opens the disk. */
  function SourceWrites(log: seq<Access>): Blocks {
    if log == [] then map[] else
    var last := log[|log| - 1];
    SourceWrites(log[..|log| - 1]) + if last.BySource? then last.w else map[]
  }

  function TargetWrites(log: seq<Access>): Blocks {
    if log == [] then map[] else
    var last := log[|log| - 1];
    TargetWrites(log[..|log| - 1]) + if last.ByTarget? && OpenedByTarget in log then last.w else map[]
  }

  lemma {:induction false} AccessesKeepFork(st: Storage, base: seq<Delta>, og: nat, bg: nat, common: Blocks,
                                            log: seq<Access>)
    requires Forked(st, base, og, bg, common, map[], map[]) && st.target.None?
    ensures Forked(Accessed(st, log), base, og, bg, common, SourceWrites(log), TargetWrites(log))
    ensures Accessed(st, log).target.Some? <==> OpenedByTarget in log
  {
    if log != [] {
      var init, last := log[..|log| - 1], log[|log| - 1];
      AccessesKeepFork(st, base, og, bg, common, init);
      assert log == init + [last];
      AccessStep(Accessed(st, init), base, og, bg, common, SourceWrites(init), TargetWrites(init), last);
    }
  }

  lemma AccessStep(t: Storage, base: seq<Delta>, og: nat, bg: nat, common: Blocks, own: Blocks, theirs: Blocks,
                   a: Access)
    requires Forked(t, base, og, bg, common, own, theirs)
    ensures Forked(AccessedOnce(t, a), base, og, bg, common,
                   own + (if a.BySource? then a.w else map[]),
                   theirs + (if a.ByTarget? && t.target.Some? then a.w else map[]))
    ensures AccessedOnce(t, a).target.Some? <==> t.target.Some? || a.OpenedByTarget?
  {
    if !a.OpenedByTarget? {
      ForkedWrites(t, base, og, bg, common, own, theirs, a.w);
    }
  }

  /** Renaming the copy over the original and merging its snapshot: the source has won. */
  function SourceWins(st: Storage, bg: nat): Option<Storage>
    requires st.backup.Some?
  {
    Merge(st.(orig := st.backup.value, backup := None), bg)
  }

  /** Removing the copy and merging the snapshot of the original: the target has won. */
  function TargetWins(st: Storage, og: nat): Option<Storage> {
    Merge(st.(backup := None), og)
  }

  /** Whatever source and target wrote in whatever order after the fork: a failed migration leaves
      the original chain with the writes of the source only, a successful one the original chain
      with the writes of the target only. */
  lemma HandOverKeepsOneSide(st: Storage, base: seq<Delta>, og: nat, bg: nat, common: Blocks, log: seq<Access>)
    requires Forked(st, base, og, bg, common, map[], map[]) && st.target.None?
    ensures var t := Accessed(st, log);
      && t.backup.Some?
      && SourceWins(t, bg).Some? && Resolved(SourceWins(t, bg).value, base, common + SourceWrites(log))
      && TargetWins(t, og).Some? && Resolved(TargetWins(t, og).value, base, common + TargetWrites(log))
  {
    AccessesKeepFork(st, base, og, bg, common, log);
    ForkResolves(Accessed(st, log), base, og, bg, common, SourceWrites(log), TargetWrites(log));
  }

  lemma ForkResolves(t: Storage, base: seq<Delta>, og: nat, bg: nat, common: Blocks, own: Blocks, theirs: Blocks)
    requires Forked(t, base, og, bg, common, own, theirs)
    ensures SourceWins(t, bg).Some? && Resolved(SourceWins(t, bg).value, base, common + own)
    ensures SourceWins(t, bg).value.source == base[|base| - 1].file
    ensures TargetWins(t, og).Some? && Resolved(TargetWins(t, og).value, base, common + theirs)
  {
    MergeResolves(t.(orig := t.backup.value, backup := None), base, bg, t.backup.value[|base|].file, common, own);
    MergeResolves(t.(backup := None), base, og, t.orig[|base|].file, common, theirs);
  }

  // ---- shared_ploop --------------------------------------------------------------------------------

  /** How far the hand-over of a disk has got. STUCK: the snapshot of the copy failed; RENAMED: the merge
      after the rename did; UNTIDY: the copy or its lock file could not be removed. */
  datatype Stage = UNPREPARED | STUCK | PREPARED | RENAMED | RESTORED | UNTIDY | RELEASED | FINISHED

  /** Everything there is about one disk. */
  datatype Snap = Snap(
    st: Storage, origGuid: Option<nat>, backupGuid: Option<nat>,
    base: seq<Delta>, common: Blocks, writes: seq<Access>)

  ghost predicate Unprepared(d: Snap) {
    d.origGuid.None? && d.backupGuid.None? && Whole(d.st, d.base, d.common) && d.writes == []
  }

  ghost predicate Prepared(d: Snap) {
    && d.origGuid.Some? && d.backupGuid.Some? && (d.st.target.Some? <==> OpenedByTarget in d.writes)
    && Forked(d.st, d.base, d.origGuid.value, d.backupGuid.value, d.common,
              SourceWrites(d.writes), TargetWrites(d.writes))
  }

  /** The original has one delta too many, below which the source goes on writing. */
  ghost predicate Stuck(d: Snap) {
    && d.origGuid.Some? && d.backupGuid.None? && OrigHalf(d.st, d.base, d.origGuid.value, d.common, map[])
    && d.st.source == d.base[|d.base| - 1].file
  }

  /** The source has won: the original chain, with its writes only. */
  ghost predicate Restored(d: Snap) {
    Resolved(d.st, d.base, d.common + SourceWrites(d.writes)) && d.st.source == d.base[|d.base| - 1].file
  }

  /** The copy was renamed but not merged: the disk reads right, through one delta too many. */
  ghost predicate Renamed(d: Snap) {
    |d.st.orig| == |d.base| + 1 && Content(d.st.files, d.st.orig) == d.common + SourceWrites(d.writes)
  }

  /** The original reads as the target left it, through one delta too many. */
  ghost predicate Untidy(d: Snap) {
    d.origGuid.Some? && OrigHalf(d.st, d.base, d.origGuid.value, d.common, TargetWrites(d.writes))
  }

  /** And the copy is gone. */
  ghost predicate Released(d: Snap) {
    Untidy(d) && d.st.backup.None?
  }

  /** The target has won: the original chain, with its writes only. */
  ghost predicate Finished(d: Snap) {
    Resolved(d.st, d.base, d.common + TargetWrites(d.writes))
  }

  ghost predicate IsIn(d: Snap, stage: Stage) {
    match stage
    case UNPREPARED => Unprepared(d)
    case STUCK => Stuck(d)
    case PREPARED => Prepared(d)
    case RENAMED => Renamed(d)
    case RESTORED => Restored(d)
    case UNTIDY => Untidy(d)
    case RELEASED => Released(d)
    case FINISHED => Finished(d)
  }

  class SharedPloop {
    var st: Storage
    var origGuid: Option<nat>   // unset until `prepare`
    var backupGuid: Option<nat>
    ghost const base: seq<Delta>
    ghost var common: Blocks
    ghost var writes: seq<Access> // what both hosts did since the fork

    ghost function Look(): Snap
      reads this
    {
      Snap(st, origGuid, backupGuid, base, common, writes)
    }

    ghost predicate In(stage: Stage)
      reads this
    {
      IsIn(Look(), stage)
    }

    constructor (st: Storage, ghost common: Blocks)
      requires Whole(st, st.orig, common)
      ensures In(UNPREPARED) && this.st == st && base == st.orig && this.common == common
    {
      this.st, base, this.common := st, st.orig, common;
      origGuid, backupGuid, writes := None, None, [];
    }

    /** `fault` is the step that raises: copying the descriptor (0), the offline snapshot of the
        original (1), the snapshot of the copy (2), or none of them. */
    method Prepare(fault: nat) returns (r: Result<()>)
      requires In(UNPREPARED)
      modifies this`st, this`origGuid, this`backupGuid
      ensures r.Success? <==> fault > 2
      ensures In(if r.Success? then PREPARED else if fault == 2 then STUCK else UNPREPARED)
    {
      if fault == 0 {
        return Failure;
      }
      st := st.(backup := Some(st.orig));
      ghost var whole := st;
      if fault == 1 {
        return Failure;
      }
      SomeFresh(st);
      var og: nat :| Fresh(st, og, og);
      st := CreateOffline(st, og, og);
      origGuid := Some(og);
      HalfFork(whole, base, common, og, og);
      if fault == 2 {
        return Failure;
      }
      CreateBackup(whole, og);
      return Success(());
    }

    /** The last step of `prepare`. */
    method CreateBackup(ghost whole: Storage, ghost og: nat)
      requires Whole(whole, base, common) && whole.backup == Some(base) && Fresh(whole, og, og) && writes == []
      requires st == CreateOffline(whole, og, og) && origGuid == Some(og)
      modifies this`st, this`backupGuid
      ensures In(PREPARED)
    {
      SomeFresh(st);
      var bg: nat :| Fresh(st, bg, bg);
      Fork(whole, base, common, og, og, bg, bg, st);
      st := Create(st, bg, bg);
      backupGuid := Some(bg);
    }

    /** Raises if `prepare` did not get to set the guid, if the rename fails (`fault` 0) or the merge
        does (1), and for no other reason. */
    method Restore(fault: nat, ghost stage: Stage) returns (r: Result<()>)
      requires In(stage) && (stage.UNPREPARED? || stage.STUCK? || stage.PREPARED?)
      modifies this`st
      ensures r.Success? <==> stage.PREPARED? && fault > 1
      ensures r.Success? ==> In(RESTORED)
      ensures !stage.PREPARED? || fault == 0 ==> In(stage)
      ensures stage.PREPARED? && fault == 1 ==> In(RENAMED)
    {
      if backupGuid.None? || fault == 0 {
        return Failure;
      }
      r := TakeOver(fault > 1);
    }

    /** The copy becomes the descriptor, and its snapshot is merged. */
    method TakeOver(merges: bool) returns (r: Result<()>)
      requires In(PREPARED)
      modifies this`st
      ensures r.Success? <==> merges
      ensures In(if merges then RESTORED else RENAMED)
    {
      ghost var d := Look();
      TakenOver(d);
      st := st.(orig := st.backup.value, backup := None);
      if !merges {
        assert Look() == d.(st := st);
        return Failure;
      }
      st := Merge(st, backupGuid.value).value;
      assert Look() == d.(st := st);
      return Success(());
    }

    /** Remove the copy (which may raise, `fault` 0), then its lock file (1). */
    method Cleanup(fault: nat) returns (r: Result<()>)
      requires In(PREPARED)
      modifies this`st
      ensures r.Success? <==> fault > 1
      ensures In(if r.Success? then RELEASED else UNTIDY)
    {
      if fault == 0 {
        return Failure;
      }
      st := st.(backup := None);
      return if fault == 1 then Failure else Success(());
    }

    method MergeSnapshot(guid: nat, works: bool) returns (r: Result<()>)
      requires In(RELEASED) && origGuid == Some(guid)
      modifies this`st
      ensures r.Success? <==> works
      ensures In(if works then FINISHED else RELEASED)
    {
      MergeResolves(st, base, guid, st.orig[|base|].file, common, TargetWrites(writes));
      if !works {
        return Failure;
      }
      st := Merge(st, guid).value;
      return Success(());
    }

    /** The source writes to the disk before the fork. */
    method Use(w: Blocks)
      requires In(UNPREPARED)
      modifies this`st, this`common
      ensures In(UNPREPARED) && common == old(common) + w
    {
      WholeWrites(st, base, common, w);
      st, common := SourceWritten(st, w), common + w;
    }

    /** Source or target write to the disk, or the target opens it. */
    method Access(a: Access)
      requires In(PREPARED)
      modifies this`st, this`writes
      ensures In(PREPARED) && writes == old(writes) + [a]
    {
      AccessStep(st, base, origGuid.value, backupGuid.value, common, SourceWrites(writes), TargetWrites(writes), a);
      assert (writes + [a])[..|writes|] == writes;
      Overlays(TargetWrites(writes), map[], map[]);
      writes := writes + [a];
      match a {
        case BySource(w) => st := SourceWritten(st, w);
        case ByTarget(w) => st := TargetWritten(st, w);
        case OpenedByTarget => st := st.(target := Some(st.orig[|st.orig| - 1].file));
      }
    }
  }

  lemma HalfFork(st: Storage, base: seq<Delta>, common: Blocks, og: nat, fo: nat)
    requires Whole(st, base, common) && Fresh(st, og, fo)
    ensures OrigHalf(CreateOffline(st, og, fo), base, og, common, map[])
  {
    ContentFrame(st.files, CreateOffline(st, og, fo).files, base);
  }

  /** What renaming the copy, and merging its snapshot, comes to. */
  lemma TakenOver(d: Snap)
    requires IsIn(d, PREPARED)
    ensures var renamed := d.st.(orig := d.st.backup.value, backup := None);
      && IsIn(d.(st := renamed), RENAMED)
      && Merge(renamed, d.backupGuid.value).Some?
      && IsIn(d.(st := Merge(renamed, d.backupGuid.value).value), RESTORED)
  {
    var own, theirs := SourceWrites(d.writes), TargetWrites(d.writes);
    ForkResolves(d.st, d.base, d.origGuid.value, d.backupGuid.value, d.common, own, theirs);
    RenamedReads(d.st, d.base, d.origGuid.value, d.backupGuid.value, d.common, own, theirs);
  }

  lemma RenamedReads(st: Storage, base: seq<Delta>, og: nat, bg: nat, common: Blocks, own: Blocks, theirs: Blocks)
    requires Forked(st, base, og, bg, common, own, theirs)
    ensures var t := st.(orig := st.backup.value, backup := None);
      |t.orig| == |base| + 1 && Content(t.files, t.orig) == common + own
  {
    EachReadsItsOwn(st, base, og, bg, common, own, theirs);
  }

  /** After the fork each host reads what was there before and its own writes. */
  lemma EachReadsItsOwn(st: Storage, base: seq<Delta>, og: nat, bg: nat, common: Blocks, own: Blocks, theirs: Blocks)
    requires Forked(st, base, og, bg, common, own, theirs)
    ensures Content(st.files, st.orig) == common + theirs && Content(st.files, st.backup.value) == common + own
  {
    SnapshotReads(st.files, base, og, st.orig[|base|].file);
    SnapshotReads(st.files, base, bg, st.backup.value[|base|].file);
  }

  lemma SnapshotReads(files: map<nat, Blocks>, base: seq<Delta>, guid: nat, top: nat)
    requires base != []
    ensures Content(files, Snapshot(base, guid, top)) == Content(files, base) + FileOf(files, top)
  {
    var chain, n := Snapshot(base, guid, top), |base| - 1;
    var below := chain[..|chain| - 1];
    assert below[..n] == base[..n] && below[n].file == base[n].file;
    assert Content(files, below) == Content(files, below[..n]) + FileOf(files, below[n].file);
  }

  // ---- p_haul_fs and the hooks of the hauler --------------------------------------------------------

  /** The accesses to disk `i`, in order. */
  function AccessesOf(log: seq<(nat, Access)>, i: nat): seq<Access> {
    if log == [] then [] else
    AccessesOf(log[..|log| - 1], i) + if log[|log| - 1].0 == i then [log[|log| - 1].1] else []
  }

  function AddAccess(before: seq<Access>, entry: (nat, Access), i: nat): seq<Access> {
    if entry.0 == i then before + [entry.1] else before
  }

  lemma AccessMore(log: seq<(nat, Access)>, n: nat)
    requires n < |log|
    ensures forall i: nat ::
      AccessesOf(log[..n + 1], i) == AddAccess(AccessesOf(log[..n], i), log[n], i)
  {
    assert log[..n + 1][..n] == log[..n];
  }

  /** Each disk has seen its accesses of the log: `before` and `after` are what all have seen. */
  ghost predicate Logged(before: seq<seq<Access>>, after: seq<seq<Access>>, log: seq<(nat, Access)>) {
    |before| == |after| && forall i: nat | i < |after| :: after[i] == before[i] + AccessesOf(log, i)
  }

  lemma LoggedMore(before: seq<seq<Access>>, mid: seq<seq<Access>>, after: seq<seq<Access>>,
                   log: seq<(nat, Access)>, n: nat)
    requires n < |log| && Logged(before, mid, log[..n]) && |after| == |mid|
    requires forall i: nat | i < |mid| :: after[i] == if i == log[n].0 then mid[i] + [log[n].1] else mid[i]
    ensures Logged(before, after, log[..n + 1])
  {
    AccessMore(log, n);
  }

  /** What raises. Of the steps of an operation on disk `i` the first two or three may, as described
      there; a larger number stands for none. */
  datatype Faults = Faults(
    copied: bool,           // copy_stop of the other disks works
    prepare: nat -> nat,
    restore: nat -> nat,
    cleanup: nat -> nat,
    umounted: bool,         // the source's umount works
    called: bool,           // the target is reached
    merge: nat -> nat)      // the merge on the target: its one step (0), or none

  /** None of the first `n` disks fails in a step up to `last`. */
  ghost predicate Passes(fault: nat -> nat, n: nat, last: nat) {
    forall i: nat | i < n :: fault(i) > last
  }

  /** The first of `n` disks that fails in a step up to `last`, or `n`. */
  function First(fault: nat -> nat, n: nat, last: nat): (k: nat)
    ensures k <= n && (k < n ==> fault(k) <= last) && forall i: nat | i < k :: fault(i) > last
  {
    if n == 0 then 0 else
    var k := First(fault, n - 1, last);
    if k < n - 1 || fault(n - 1) <= last then k else n
  }

  lemma FirstIs(fault: nat -> nat, k: nat, n: nat, last: nat)
    requires k <= n && (k < n ==> fault(k) <= last) && Passes(fault, k, last)
    ensures First(fault, n, last) == k
    ensures Passes(fault, n, last) <==> k == n
  {
    assert Passes(fault, First(fault, n, last), last);
    assert forall i: nat | i < k :: fault(i) > last;
  }

  lemma PassesOne(fault: nat -> nat, n: nat, last: nat)
    ensures Passes(fault, n + 1, last) <==> Passes(fault, n, last) && fault(n) > last
  {
  }

  lemma NotAll(fault: nat -> nat, k: nat, n: nat, last: nat)
    requires k < n && fault(k) <= last
    ensures !Passes(fault, n, last)
  {
  }

  lemma PassesFewer(fault: nat -> nat, k: nat, n: nat, last: nat)
    requires k <= n && Passes(fault, n, last)
    ensures Passes(fault, k, last) && (k < n ==> fault(k) > last)
  {
  }

  /** How a migration left the shared disks. `Short`: stop_migration raised, at disk `k` or before any.
      `Broken`: something raised while the fork was being resolved. */
  datatype Ending = Kept | Given | Short(k: nat, stuck: bool) | Broken

  class PHaulFs {
    const shared: seq<SharedPloop>

    constructor (shared: seq<SharedPloop>)
      ensures this.shared == shared
    {
      this.shared := shared;
    }

    ghost predicate Distinct() {
      forall i, j | 0 <= i < j < |shared| :: shared[i] != shared[j]
    }

    ghost function Disks(): set<SharedPloop> {
      set i | 0 <= i < |shared| :: shared[i]
    }

    /** The first `k` disks are prepared, the next may be stuck, the others are untouched. */
    function StageOf(i: int, k: nat, stuck: bool): Stage {
      if i < k then PREPARED else if i == k && stuck then STUCK else UNPREPARED
    }

    ghost predicate PreparedUpTo(k: nat, stuck: bool)
      reads Disks()
    {
      k <= |shared| && forall i | 0 <= i < |shared| :: shared[i].In(StageOf(i, k, stuck))
    }

    /** All disks are in this stage. */
    ghost predicate All(stage: Stage)
      reads Disks()
    {
      forall i | 0 <= i < |shared| :: shared[i].In(stage)
    }

    ghost predicate ChainsAreOriginal()
      reads Disks()
    {
      forall i | 0 <= i < |shared| :: shared[i].st.orig == shared[i].base
    }

    /** Every disk forks. */
    ghost predicate Forks(f: Faults) {
      f.copied && Passes(f.prepare, |shared|, 2)
    }

    /** Nothing raises when the source takes the first `k` disks back. */
    ghost predicate Restores(f: Faults, k: nat) {
      Passes(f.restore, k, 1)
    }

    /** How many disks fork, */
    function ForkedDisks(f: Faults): nat {
      if f.copied then First(f.prepare, |shared|, 2) else 0
    }

    /** and whether the snapshot of the copy of the next one failed. */
    predicate NextStuck(f: Faults) {
      f.copied && ForkedDisks(f) < |shared| && f.prepare(ForkedDisks(f)) == 2
    }

    /** Taking the disks back, of which `k` are forked and the next may be stuck, as far as it gets. */
    function BackStage(f: Faults, k: nat, stuck: bool, i: nat): Stage {
      var n := First(f.restore, k, 1);
      if i < n then RESTORED
      else if i == n && n < k && f.restore(n) == 1 then RENAMED
      else StageOf(i, k, stuck)
    }

    /** Giving them to the target, as far as that gets. */
    function GivenStage(f: Faults, i: nat): Stage {
      var c, m := First(f.cleanup, |shared|, 1), First(f.merge, |shared|, 0);
      if c < |shared| then (if i < c then RELEASED else if i == c then UNTIDY else PREPARED)
      else if !f.umounted || !f.called then RELEASED
      else if i < m then FINISHED else RELEASED
    }

    /** What becomes of disk `i`. */
    function FinalStage(f: Faults, restored: bool, i: nat): Stage {
      if ForkedDisks(f) == |shared| && f.copied && restored then GivenStage(f, i)
      else BackStage(f, ForkedDisks(f), NextStuck(f), i)
    }

    /** Nothing raises when the disks are given to the target. */
    ghost predicate Completes(f: Faults) {
      Passes(f.cleanup, |shared|, 1) && f.umounted && f.called && Passes(f.merge, |shared|, 0)
    }

    // Each operation on one disk leaves the others alone.

    method PrepareOne(n: nat, fault: nat) returns (r: Result<()>)
      requires Distinct() && n < |shared| && shared[n].In(UNPREPARED)
      modifies {shared[n]}`st, {shared[n]}`origGuid, {shared[n]}`backupGuid
      ensures r.Success? <==> fault > 2
      ensures shared[n].In(if r.Success? then PREPARED else if fault == 2 then STUCK else UNPREPARED)
      ensures forall i | 0 <= i < |shared| && i != n :: shared[i].Look() == old(shared[i].Look())
    {
      r := shared[n].Prepare(fault);
    }

    method RestoreOne(n: nat, fault: nat, ghost stage: Stage) returns (r: Result<()>)
      requires Distinct() && n < |shared| && shared[n].In(stage)
      requires stage.UNPREPARED? || stage.STUCK? || stage.PREPARED?
      modifies {shared[n]}`st
      ensures r.Success? <==> stage.PREPARED? && fault > 1
      ensures r.Success? ==> shared[n].In(RESTORED)
      ensures !stage.PREPARED? || fault == 0 ==> shared[n].In(stage)
      ensures stage.PREPARED? && fault == 1 ==> shared[n].In(RENAMED)
      ensures forall i | 0 <= i < |shared| && i != n :: shared[i].Look() == old(shared[i].Look())
    {
      r := shared[n].Restore(fault, stage);
    }

    method CleanupOne(n: nat, fault: nat) returns (r: Result<()>)
      requires Distinct() && n < |shared| && shared[n].In(PREPARED)
      modifies {shared[n]}`st
      ensures r.Success? <==> fault > 1
      ensures shared[n].In(if r.Success? then RELEASED else UNTIDY)
      ensures forall i | 0 <= i < |shared| && i != n :: shared[i].Look() == old(shared[i].Look())
    {
      r := shared[n].Cleanup(fault);
    }

    method MergeOne(n: nat, guid: nat, works: bool) returns (r: Result<()>)
      requires Distinct() && n < |shared| && shared[n].In(RELEASED) && shared[n].origGuid == Some(guid)
      modifies {shared[n]}`st
      ensures r.Success? <==> works
      ensures shared[n].In(if works then FINISHED else RELEASED)
      ensures forall i | 0 <= i < |shared| && i != n :: shared[i].Look() == old(shared[i].Look())
    {
      r := shared[n].MergeSnapshot(guid, works);
    }

    method UseOne(n: nat, w: Blocks)
      requires Distinct() && n < |shared| && shared[n].In(UNPREPARED)
      modifies {shared[n]}`st, {shared[n]}`common
      ensures shared[n].In(UNPREPARED) && shared[n].common == old(shared[n].common) + w
      ensures forall i | 0 <= i < |shared| && i != n :: shared[i].Look() == old(shared[i].Look())
    {
      shared[n].Use(w);
    }

    /** `k` is the disk that raised, or the first if the copies of the other disks did. */
    method StopMigration(f: Faults) returns (r: Result<()>, k: nat, stuck: bool)
      requires Distinct() && All(UNPREPARED)
      modifies Disks()`st, Disks()`origGuid, Disks()`backupGuid
      ensures r.Success? <==> Forks(f)
      ensures r.Success? ==> k == |shared| && !stuck
      ensures f.copied && r.Failure? ==> k < |shared| && f.prepare(k) <= 2 && stuck == (f.prepare(k) == 2)
      ensures f.copied ==> Passes(f.prepare, k, 2)
      ensures !f.copied ==> k == 0 && !stuck
      ensures PreparedUpTo(k, stuck) && k == ForkedDisks(f) && stuck == NextStuck(f)
    {
      if !f.copied {
        return Failure, 0, false;
      }
      k, stuck := PrepareSharedPloops(f);
      FirstIs(f.prepare, k, |shared|, 2);
      if k < |shared| {
        NotAll(f.prepare, k, |shared|, 2);
        return Failure, k, stuck;
      }
      r := Success(());
    }

    /** The loop of `stop_migration`: how many disks it prepared. */
    method PrepareSharedPloops(f: Faults) returns (k: nat, stuck: bool)
      requires Distinct() && All(UNPREPARED)
      modifies Disks()`st, Disks()`origGuid, Disks()`backupGuid
      ensures PreparedUpTo(k, stuck) && Passes(f.prepare, k, 2)
      ensures if k < |shared| then f.prepare(k) <= 2 && stuck == (f.prepare(k) == 2) else !stuck
    {
      k, stuck := 0, false;
      while k < |shared|
        invariant PreparedUpTo(k, false) && Passes(f.prepare, k, 2)
      {
        PassesOne(f.prepare, k, 2);
        var r := PrepareOne(k, f.prepare(k));
        if r.Failure? {
          return k, f.prepare(k) == 2;
        }
        k := k + 1;
      }
    }

    method RestoreSharedPloops(f: Faults, ghost k: nat, ghost stuck: bool) returns (r: Result<()>, n: nat)
      requires Distinct() && PreparedUpTo(k, stuck)
      modifies Disks()`st
      ensures n <= k && Restores(f, n) && (n < k ==> f.restore(n) <= 1)
      ensures if r.Success? then n == k == |shared| else n < |shared|
      ensures n == First(f.restore, k, 1)
      ensures forall i: nat | i < |shared| :: shared[i].In(BackStage(f, k, stuck, i))
    {
      n := 0;
      while n < |shared|
        invariant n <= k <= |shared| && Restores(f, n)
        invariant forall i | 0 <= i < |shared| :: shared[i].In(if i < n then RESTORED else StageOf(i, k, stuck))
      {
        PassesOne(f.restore, n, 1);
        r := RestoreOne(n, f.restore(n), StageOf(n, k, stuck));
        if r.Failure? {
          FirstIs(f.restore, n, k, 1);
          return;
        }
        n := n + 1;
      }
      FirstIs(f.restore, n, k, 1);
      r := Success(());
    }

    method CleanupSharedPloops(f: Faults) returns (r: Result<()>)
      requires Distinct() && All(PREPARED)
      modifies Disks()`st
      ensures r.Success? <==> Passes(f.cleanup, |shared|, 1)
      ensures r.Success? ==> All(RELEASED) && First(f.cleanup, |shared|, 1) == |shared|
      ensures r.Failure? ==>
        First(f.cleanup, |shared|, 1) < |shared| && forall i: nat | i < |shared| :: shared[i].In(GivenStage(f, i))
    {
      var n: nat := 0;
      while n < |shared|
        invariant n <= |shared| && Passes(f.cleanup, n, 1)
        invariant forall i | 0 <= i < |shared| :: shared[i].In(if i < n then RELEASED else PREPARED)
      {
        PassesOne(f.cleanup, n, 1);
        r := CleanupOne(n, f.cleanup(n));
        if r.Failure? {
          FirstIs(f.cleanup, n, |shared|, 1);
          return;
        }
        n := n + 1;
      }
      FirstIs(f.cleanup, n, |shared|, 1);
      r := Success(());
    }

    /** The guids of the originals, in the order of the disks. */
    method PrepareSrcData() returns (guids: seq<nat>)
      requires All(RELEASED)
      ensures |guids| == |shared| && forall i | 0 <= i < |shared| :: shared[i].origGuid == Some(guids[i])
    {
      guids := [];
      while |guids| < |shared|
        invariant |guids| <= |shared| && forall i | 0 <= i < |guids| :: shared[i].origGuid == Some(guids[i])
      {
        assert shared[|guids|].In(RELEASED);
        guids := guids + [shared[|guids|].origGuid.value];
      }
    }

    /** On the target: merge what the source's list names. */
    method TargetCleanup(guids: seq<nat>, f: Faults) returns (r: Result<()>)
      requires Distinct() && All(RELEASED)
      requires |guids| == |shared| && forall i | 0 <= i < |shared| :: shared[i].origGuid == Some(guids[i])
      modifies Disks()`st
      ensures r.Success? <==> Passes(f.merge, |shared|, 0)
      ensures r.Success? ==> All(FINISHED)
      ensures forall i: nat | i < |shared| ::
        shared[i].In(if i < First(f.merge, |shared|, 0) then FINISHED else RELEASED)
    {
      var n: nat := 0;
      while n < |shared|
        invariant n <= |shared| && Passes(f.merge, n, 0)
        invariant forall i | 0 <= i < |shared| :: shared[i].In(if i < n then FINISHED else RELEASED)
      {
        PassesOne(f.merge, n, 0);
        r := MergeOne(n, guids[n], f.merge(n) > 0);
        if r.Failure? {
          FirstIs(f.merge, n, |shared|, 0);
          return;
        }
        n := n + 1;
      }
      FirstIs(f.merge, n, |shared|, 0);
      r := Success(());
    }

    /** The source goes on writing before the fork. */
    method UseDisks(w: nat -> Blocks)
      requires Distinct() && All(UNPREPARED)
      modifies Disks()`st, Disks()`common
      ensures All(UNPREPARED)
      ensures forall i: nat | i < |shared| :: shared[i].common == old(shared[i].common) + w(i)
    {
      var n: nat := 0;
      while n < |shared|
        invariant n <= |shared| && All(UNPREPARED)
        invariant forall i: nat | i < n :: shared[i].common == old(shared[i].common) + w(i)
        invariant forall i: nat | n <= i < |shared| :: shared[i].common == old(shared[i].common)
      {
        UseOne(n, w(n));
        n := n + 1;
      }
    }

    ghost function Writes(): (ws: seq<seq<Access>>)
      reads Disks()
      ensures |ws| == |shared| && forall i | 0 <= i < |shared| :: ws[i] == shared[i].writes
    {
      seq(|shared|, i requires 0 <= i < |shared| reads Disks() => shared[i].writes)
    }

    /** Both hosts use the disks, in any order: each access names its disk. */
    method Accesses(log: seq<(nat, Access)>)
      requires Distinct() && All(PREPARED)
      modifies Disks()`st, Disks()`writes
      ensures All(PREPARED) && Logged(old(Writes()), Writes(), log)
    {
      ghost var before := Writes();
      for n := 0 to |log|
        invariant All(PREPARED) && Logged(before, Writes(), log[..n])
      {
        ghost var mid := Writes();
        if log[n].0 < |shared| {
          AccessOne(log[n].0, log[n].1);
        }
        LoggedMore(before, mid, Writes(), log, n);
      }
      assert log[..|log|] == log;
    }

    method AccessOne(n: nat, a: Access)
      requires Distinct() && n < |shared| && All(PREPARED)
      modifies {shared[n]}`st, {shared[n]}`writes
      ensures All(PREPARED)
      ensures forall i | 0 <= i < |shared| ::
        Writes()[i] == if i == n then old(Writes())[i] + [a] else old(Writes())[i]
    {
      AccessAt(n, a);
    }

    method AccessAt(n: nat, a: Access)
      requires Distinct() && n < |shared| && shared[n].In(PREPARED)
      modifies {shared[n]}`st, {shared[n]}`writes
      ensures shared[n].In(PREPARED) && shared[n].writes == old(shared[n].writes) + [a]
      ensures forall i | 0 <= i < |shared| && i != n :: shared[i].Look() == old(shared[i].Look())
    {
      shared[n].Access(a);
    }

    /** `migration_complete` up to the end of the call it makes on the target. */
    method Complete(f: Faults) returns (r: Result<()>)
      requires Distinct() && All(PREPARED)
      modifies Disks()`st
      ensures r.Success? <==> Completes(f)
      ensures r.Success? ==> All(FINISHED)
      ensures forall i: nat | i < |shared| :: shared[i].In(GivenStage(f, i))
    {
      r := CleanupSharedPloops(f);
      if r.Success? {
        if !f.umounted || !f.called {
          return Failure;
        }
        var guids := PrepareSrcData();
        r := TargetCleanup(guids, f);
      }
    }

    /** The first `k` disks are restored, the next may be stuck, the others are untouched. */
    ghost predicate ShortOf(k: nat, stuck: bool)
      reads Disks()
    {
      && k < |shared| && (forall i | 0 <= i < k :: shared[i].In(RESTORED))
      && forall i | k <= i < |shared| :: shared[i].In(StageOf(i, k, stuck))
    }

    lemma ShortChains(k: nat, stuck: bool)
      requires ShortOf(k, stuck)
      ensures ChainsAreOriginal() <==> !stuck
    {
      if stuck {
        assert Stuck(shared[k].Look());
        assert shared[k].st.orig != shared[k].base;
      } else {
        forall i | 0 <= i < |shared| ensures shared[i].st.orig == shared[i].base {
          assert shared[i].In(if i < k then RESTORED else UNPREPARED);
        }
      }
    }

    /** The disks are in use on both sides, and then one of them wins. */
    method Resolve(log: seq<(nat, Access)>, restored: bool, f: Faults) returns (ending: Ending)
      requires Distinct() && All(PREPARED)
      modifies Disks()`st, Disks()`writes
      ensures restored ==> ending == if Completes(f) then Given else Broken
      ensures !restored ==> ending == if Restores(f, |shared|) then Kept else Broken
      ensures Logged(old(Writes()), Writes(), log)
      ensures forall i: nat | i < |shared| ::
        shared[i].In(if restored then GivenStage(f, i) else BackStage(f, |shared|, false, i))
    {
      Accesses(log);
      if restored {
        var r := Complete(f);
        return if r.Success? then Given else Broken;
      }
      ending := TakeBack(f);
    }

    /** `migration_fail` after every disk has forked. */
    method TakeBack(f: Faults) returns (ending: Ending)
      requires Distinct() && All(PREPARED)
      modifies Disks()`st
      ensures ending == if Restores(f, |shared|) then Kept else Broken
      ensures forall i: nat | i < |shared| :: shared[i].In(BackStage(f, |shared|, false, i))
    {
      var r, n := RestoreSharedPloops(f, |shared|, false);
      if r.Failure? {
        NotAll(f.restore, n, |shared|, 1);
        return Broken;
      }
      return Kept;
    }

    /** `stop_migration` raised: so does `migration_fail`, on the first disk that was not prepared. */
    method Abort(f: Faults, k: nat, stuck: bool) returns (ending: Ending)
      requires Distinct() && PreparedUpTo(k, stuck) && (k < |shared| || shared == [])
      modifies Disks()`st
      ensures ending == if !Restores(f, k) then Broken else if shared == [] then Kept else Short(k, stuck)
      ensures forall i: nat | i < |shared| :: shared[i].In(BackStage(f, k, stuck, i))
      ensures ending.Short? ==> ShortOf(k, stuck) && ChainsAreOriginal() == !stuck
    {
      var r, n := RestoreSharedPloops(f, k, stuck);
      if r.Success? {
        return Kept;
      }
      if n < k {
        NotAll(f.restore, n, k, 1);
        return Broken;
      }
      assert forall i: nat | i < k :: BackStage(f, k, stuck, i) == RESTORED;
      ShortChains(k, stuck);
      return Short(k, stuck);
    }

    /** Where nothing raises while the forks are resolved, the stages are the ones of the ending. */
    lemma CalmStages(f: Faults, restored: bool)
      ensures Forks(f) <==> f.copied && ForkedDisks(f) == |shared|
      ensures Forks(f) && restored && Completes(f) ==>
        forall i: nat | i < |shared| :: FinalStage(f, restored, i) == FINISHED
      ensures Forks(f) && !restored && Restores(f, |shared|) ==>
        forall i: nat | i < |shared| :: FinalStage(f, restored, i) == RESTORED
    {
      if Passes(f.prepare, |shared|, 2) { FirstIs(f.prepare, |shared|, |shared|, 2); }
      if Passes(f.restore, |shared|, 1) { FirstIs(f.restore, |shared|, |shared|, 1); }
      if Passes(f.cleanup, |shared|, 1) { FirstIs(f.cleanup, |shared|, |shared|, 1); }
      if Passes(f.merge, |shared|, 0) { FirstIs(f.merge, |shared|, |shared|, 0); }
    }

    /** From the writes before the fork to the completion or the failure of the migration. The faults
        determine the ending and, disk by disk, the stage each is left in, whatever raises: if nothing does,
        every disk ends with its original chain and the writes of the winner. If `stop_migration` raised,
        earlier disks are restored and later ones untouched; and the chains are all the original ones again
        exactly if it was not the snapshot of a copy that failed. */
    method HandOver(w: nat -> Blocks, log: seq<(nat, Access)>, restored: bool, f: Faults) returns (ending: Ending)
      requires Distinct() && All(UNPREPARED)
      modifies Disks()`st, Disks()`origGuid, Disks()`backupGuid, Disks()`common, Disks()`writes
      ensures forall i: nat | i < |shared| :: shared[i].common == old(shared[i].common) + w(i)
      ensures forall i: nat | i < |shared| :: shared[i].writes == if Forks(f) then AccessesOf(log, i) else []
      ensures forall i: nat | i < |shared| :: shared[i].In(FinalStage(f, restored, i))
      ensures Forks(f) && restored ==> ending == if Completes(f) then Given else Broken
      ensures Forks(f) && !restored ==> ending == if Restores(f, |shared|) then Kept else Broken
      ensures !Forks(f) && Restores(f, |shared|) ==> if shared == [] then ending.Kept? else ending.Short?
      ensures ending.Kept? ==> All(RESTORED)
      ensures ending.Given? ==> All(FINISHED)
      ensures ending.Short? ==> ShortOf(ending.k, ending.stuck) && ChainsAreOriginal() == !ending.stuck
      ensures ending.Short? ==> (ending.stuck <==> f.copied && f.prepare(ending.k) == 2)
    {
      NothingWritten();
      UseDisks(w);
      ending := MoveDisks(log, restored, f);
      CalmStages(f, restored);
    }

    /** From the fork on. */
    method MoveDisks(log: seq<(nat, Access)>, restored: bool, f: Faults) returns (ending: Ending)
      requires Distinct() && All(UNPREPARED)
      modifies Disks()`st, Disks()`origGuid, Disks()`backupGuid, Disks()`writes
      ensures if Forks(f) then Logged(old(Writes()), Writes(), log) else Writes() == old(Writes())
      ensures forall i: nat | i < |shared| :: shared[i].In(FinalStage(f, restored, i))
      ensures Forks(f) && restored ==> ending == if Completes(f) then Given else Broken
      ensures Forks(f) && !restored ==> ending == if Restores(f, |shared|) then Kept else Broken
      ensures !Forks(f) && Restores(f, |shared|) ==> if shared == [] then ending.Kept? else ending.Short?
      ensures ending.Kept? && !Forks(f) ==> shared == []
      ensures ending.Given? ==> Forks(f) && restored
      ensures ending.Short? ==> ShortOf(ending.k, ending.stuck) && ChainsAreOriginal() == !ending.stuck
      ensures ending.Short? ==> (ending.stuck <==> f.copied && f.prepare(ending.k) == 2)
    {
      var r, k, stuck := StopMigration(f);
      CalmStages(f, restored);
      if r.Success? {
        ending := Resolve(log, restored, f);
      } else {
        ending := Abort(f, k, stuck);
        if Restores(f, |shared|) { PassesFewer(f.restore, k, |shared|, 1); }
      }
    }

    lemma NothingWritten()
      requires All(UNPREPARED)
      ensures forall i | 0 <= i < |shared| :: shared[i].writes == []
    {
      forall i | 0 <= i < |shared| ensures shared[i].writes == [] {
        assert shared[i].In(UNPREPARED);
      }
    }
  }
}
