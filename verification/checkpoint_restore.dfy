/** Restoring files with a failure at any operation, and what the preview says beforehand. */
module CheckpointRestore {
  import opened Wrappers
  import opened CheckpointState
  import opened CheckpointUndo

  /** The file operations of a restore, any of which may fail without having changed its target. */
  datatype Operation = ReadPrior | MakeDirectories | WriteTemporary | Rename | Remove

  /** What was at a path when its restore began. */
  /** The operations that restoring the file meets. */
  predicate Performs(f: FileSnapshot, ws: Workspace, op: Operation) {
    match op
    case ReadPrior => f.path in ws
    case Remove => !f.existedBefore && f.path in ws
    case _ => f.existedBefore && f.beforeContent.Some?
  }

  /** The operations that restoring all the files one after another meets at the i-th. */
  predicate Meets(files: seq<FileSnapshot>, paths: Option<seq<Path>>, ws: Workspace, i: nat, op: Operation) {
    && i < |files| && Selected(paths, files[i].path) && !Skipped(files[i])
    && Performs(files[i], RestoredAll(files[..i], paths, ws), op)
  }

  ghost predicate NoneFails(files: seq<FileSnapshot>, paths: Option<seq<Path>>, ws: Workspace,
                            fails: (nat, Operation) -> bool) {
    forall i: nat, op :: Meets(files, paths, ws, i, op) ==> !fails(i, op)
  }

  /** The selected files still there can be read. */
  predicate Readable(files: seq<FileSnapshot>, paths: Option<seq<Path>>, ws: Workspace, readOk: Path -> bool) {
    forall i :: 0 <= i < |files| && Selected(paths, files[i].path) && files[i].path in ws ==> readOk(files[i].path)
  }

  datatype Staged = Staged(key: Path, prior: Option<Bytes>)

  /** Undo in reverse order, every write of which succeeds. */
  function Undone(ws: Workspace, staging: seq<Staged>): Workspace
    decreases |staging|
  {
    if staging == [] then ws
    else
      var last := staging[|staging| - 1];
      Undone(Written(ws, last.key, last.prior), staging[..|staging| - 1])
  }

  /** Staging a path before changing it keeps the undo exact, also for a path staged before. */
  lemma StagingKeepsUndo(ws: Workspace, staging: seq<Staged>, key: Path, becomes: Option<Bytes>)
    ensures Undone(ws, staging + [Staged(key, At(ws, key))]) == Undone(ws, staging)
    ensures Undone(Written(ws, key, becomes), staging + [Staged(key, At(ws, key))]) == Undone(ws, staging)
  {
    var longer := staging + [Staged(key, At(ws, key))];
    assert longer[..|longer| - 1] == staging;
    assert Written(ws, key, At(ws, key)) == ws;
    assert Written(Written(ws, key, becomes), key, At(ws, key)) == ws;
  }

  /** The selected files that are still there and differ from what the run left. */
  function ConflictsOf(files: seq<FileSnapshot>, paths: Option<seq<Path>>, ws: Workspace): seq<Path> {
    if files == [] then []
    else
      var f := files[|files| - 1];
      ConflictsOf(files[..|files| - 1], paths, ws)
      + (if Selected(paths, f.path) && Conflicts(f, ws) then [f.path] else [])
  }

  lemma {:induction false} ConflictsOfIsExact(files: seq<FileSnapshot>, paths: Option<seq<Path>>, ws: Workspace,
                                              key: Path)
    ensures key in ConflictsOf(files, paths, ws) <==>
      exists i :: 0 <= i < |files| && files[i].path == key && Selected(paths, key) && Conflicts(files[i], ws)
  {
    if files != [] {
      var rest := files[..|files| - 1];
      ConflictsOfIsExact(rest, paths, ws, key);
      if i :| 0 <= i < |files| && files[i].path == key && Selected(paths, key) && Conflicts(files[i], ws) {
        assert i < |rest| ==> rest[i] == files[i];
      }
      if i :| 0 <= i < |rest| && rest[i].path == key && Selected(paths, key) && Conflicts(rest[i], ws) {
        assert files[i] == rest[i];
      }
    }
  }

  // ---- What the preview says of each file ----

  datatype ChangeType = Add | Delete | Update

  datatype Cause = Redacted(reason: Reason) | NotCaptured | NotText

  datatype FilePreview = FilePreview(
    path: Path, afterHash: Option<Digest>, currentHash: Option<Digest>, change: ChangeType,
    restorable: bool, cause: Option<Cause>)

  datatype RewindPreview = RewindPreview(files: seq<FilePreview>, conflicts: seq<Path>)

  function CauseOf(f: FileSnapshot): Option<Cause> {
    if f.redacted then Some(if f.reason.Some? then Redacted(f.reason.value) else NotCaptured)
    else if f.existedBefore && f.beforeContent.None? then Some(NotText)
    else None
  }

  function PreviewOf(f: FileSnapshot, ws: Workspace): FilePreview {
    FilePreview(f.path, f.afterHash, if f.path in ws then Some(Digest(ws[f.path])) else None,
                if !f.existedBefore then Add else if f.afterHash.None? then Delete else Update,
                Restorable(f), CauseOf(f))
  }

  /** One entry for each selected file, in order. */
  function PreviewsOf(files: seq<FileSnapshot>, paths: Option<seq<Path>>, ws: Workspace): seq<FilePreview> {
    if files == [] then []
    else
      var f := files[|files| - 1];
      PreviewsOf(files[..|files| - 1], paths, ws) + (if Selected(paths, f.path) then [PreviewOf(f, ws)] else [])
  }

  /** The file is there, was there after the run, and is no longer the same. */
  predicate Differs(p: FilePreview) {
    p.afterHash.Some? && p.currentHash.Some? && p.afterHash != p.currentHash
  }

  /** The conflicts are the entries whose two hashes differ, in the same order. */
  lemma {:induction false} ConflictsAreThoseThatDiffer(files: seq<FileSnapshot>, paths: Option<seq<Path>>,
                                                       ws: Workspace)
    ensures ConflictsOf(files, paths, ws) == DifferingPaths(PreviewsOf(files, paths, ws))
  {
    if files != [] {
      var f, before := files[|files| - 1], PreviewsOf(files[..|files| - 1], paths, ws);
      ConflictsAreThoseThatDiffer(files[..|files| - 1], paths, ws);
      if Selected(paths, f.path) {
        assert (before + [PreviewOf(f, ws)])[..|before|] == before;
      } else {
        assert before + [] == before;
      }
    }
  }

  function DifferingPaths(previews: seq<FilePreview>): seq<Path> {
    if previews == [] then []
    else
      var p := previews[|previews| - 1];
      DifferingPaths(previews[..|previews| - 1]) + (if Differs(p) then [p.path] else [])
  }

  /**
   * What rewind does to a file, told from its entry: a restorable one that is
   * not an addition is there afterwards with the content it had before, an
   * addition is gone, and nothing happens to any other.
   */
  lemma EntryTellsTheRewind(f: FileSnapshot, ws: Workspace)
    ensures
      var p := PreviewOf(f, ws);
      && (p.restorable <==> p.cause.None?)
      && (p.change == Add ==> f.path !in Restored(f, ws))
      && (p.change != Add && p.restorable ==>
            f.path in Restored(f, ws) && Some(Restored(f, ws)[f.path]) == f.beforeContent)
      && (p.change != Add && !p.restorable ==> Restored(f, ws) == ws)
      && Restored(f, ws) - {f.path} == ws - {f.path}
  {
  }

  /**
   * The preview's `restorable` is exact but for one kind of file: a redacted
   * one that the run added is reported as not restorable and removed all the same.
   */
  lemma RemovedThoughNotRestorable(f: FileSnapshot, ws: Workspace)
    ensures (!Restorable(f) && Restored(f, ws) != ws) <==> (f.redacted && !f.existedBefore && f.path in ws)
  {
    if f.redacted && !f.existedBefore && f.path in ws {
      assert f.path !in Restored(f, ws);
    }
    assert f.path !in ws ==> ws - {f.path} == ws;
  }
}
