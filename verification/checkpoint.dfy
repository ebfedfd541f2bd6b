/** The checkpoint manager: its live map, the workspace it reads and restores, and the loops over files. */
module Checkpoints {
  import opened Texts
  import opened Wrappers
  import opened CheckpointState
  import opened CheckpointUndo
  import opened CheckpointRestore

  datatype LiveCheckpoint = LiveCheckpoint(id: string, runId: string, root: string, live: Live)

  function Joined(chunks: seq<Bytes>): Bytes {
    if chunks == [] then [] else Joined(chunks[..|chunks| - 1]) + chunks[|chunks| - 1]
  }

  /**
   * However the reads split the file, the whole content is hashed, the cap is
   * exceeded exactly when the file is longer than it, and what is kept is the
   * whole content or nothing.
   */
  method StreamReadCapped(chunks: seq<Bytes>, cap: nat) returns (read: StreamedRead)
    ensures read == ReadCapped(Joined(chunks), cap)
  {
    var hashed: Bytes := [];
    var content: Bytes := [];
    var overCap := false;
    for i := 0 to |chunks|
      invariant hashed == Joined(chunks[..i])
      invariant overCap <==> |hashed| > cap
      invariant !overCap ==> content == hashed
    {
      var chunk := chunks[i];
      assert chunks[..i + 1][..i] == chunks[..i];
      hashed := hashed + chunk;
      if !overCap {
        var remaining := if cap < |content| then 0 else cap - |content|;
        var take := if |chunk| < remaining then |chunk| else remaining;
        content := content + chunk[..take];
        if take < |chunk| { overCap := true; }
      }
    }
    assert chunks[..|chunks|] == chunks;
    read := StreamedRead(Digest(hashed), |hashed|,
                         if !overCap && IsText(content) then Some(content) else None, overCap);
  }

  class CheckpointManager {
    var live: map<string, LiveCheckpoint>
    var disk: Workspace

    ghost predicate Valid()
      reads this
    {
      forall run :: run in live ==>
        live[run].runId == run && forall key :: key in live[run].live.files ==> live[run].live.files[key].path == key
    }

    constructor (ws: Workspace)
      ensures Valid() && live == map[] && disk == ws
    {
      live, disk := map[], ws;
    }

    method BeginRun(runId: string, id: string, root: string)
      requires Valid()
      modifies this`live
      ensures Valid() && live == old(live)[runId := LiveCheckpoint(id, runId, root, EMPTY_LIVE)]
    {
      live := live[runId := LiveCheckpoint(id, runId, root, EMPTY_LIVE)];
    }

    method CaptureBeforeImage(runId: string, path: TrustedPath, readOk: bool) returns (result: Result<(), string>)
      requires Valid()
      modifies this`live
      ensures Valid()
      ensures runId !in old(live) ==> result.Err? && live == old(live)
      ensures runId in old(live) ==>
        var taken := CaptureBefore(old(live)[runId].live, disk, path, readOk);
        && result.Ok? == taken.Ok?
        && live == if taken.Ok? then old(live)[runId := old(live)[runId].(live := taken.value)] else old(live)
    {
      if runId !in live { return Err("no checkpoint for run"); }
      var cp := live[runId];
      if path.key in cp.live.files {
        assert live == live[runId := cp];
        return Ok(());
      }
      if !path.insideRoot { return Err("checkpoint path escapes project root"); }
      var plan := if |cp.live.files| >= MAX_CAPTURE_FILE_COUNT then Redaction(true, Some(TooManyFiles))
                  else if path.sensitive then Redaction(true, Some(SensitivePath))
                  else Redaction(false, None);
      var read: Option<StreamedRead> := None;
      if path.key in disk {
        if !readOk { return Err("checkpoint read failed"); }
        read := Some(ReadCapped(disk[path.key], MAX_CAPTURE_FILE_CONTENT_BYTES));
        if read.value.overCap { plan := Redaction(true, Some(TooLarge)); }
        if cp.live.capturedBytes + read.value.size > MAX_CAPTURE_TOTAL_BYTES {
          plan := Redaction(true, Some(OverByteQuota));
        }
      }
      var kept: Option<Bytes>, charged := None, 0;
      if read.Some? && !plan.redacted { kept, charged := read.value.content, read.value.size; }
      var snapshot := FileSnapshot(path.key, HashOf(read), None, kept, None, read.Some?, plan.redacted, plan.reason);
      live := live[runId := cp.(live := Live(cp.live.files[path.key := snapshot], cp.live.capturedBytes + charged))];
      return Ok(());
    }

    method CaptureAfterImage(runId: string, path: TrustedPath, readOk: bool) returns (result: Result<(), string>)
      requires Valid()
      modifies this`live
      ensures Valid()
      ensures runId !in old(live) ==> result.Err? && live == old(live)
      ensures runId in old(live) ==>
        var taken := CaptureAfter(old(live)[runId].live, disk, path, readOk);
        && result.Ok? == taken.Ok?
        && live == if taken.Ok? then old(live)[runId := old(live)[runId].(live := taken.value)] else old(live)
    {
      if runId !in live { return Err("no checkpoint for run"); }
      var cp := live[runId];
      if !path.insideRoot { return Err("checkpoint path escapes project root"); }
      var known := path.key in cp.live.files;
      var redacted := if known then cp.live.files[path.key].redacted else path.sensitive;
      var plan := if !redacted then Redaction(false, None)
                  else if known then Redaction(true, Some(cp.live.files[path.key].reason.UnwrapOr(SensitivePath)))
                  else Redaction(true, Some(SensitivePath));
      var read: Option<StreamedRead> := None;
      if path.key in disk {
        if !readOk { return Err("checkpoint read failed"); }
        read := Some(ReadCapped(disk[path.key], MAX_CAPTURE_FILE_CONTENT_BYTES));
        if read.value.overCap { plan := Redaction(true, Some(TooLarge)); }
        if cp.live.capturedBytes + read.value.size > MAX_CAPTURE_TOTAL_BYTES {
          plan := Redaction(true, Some(OverByteQuota));
        }
      }
      var kept: Option<Bytes>, charged := None, 0;
      if read.Some? && !plan.redacted { kept, charged := read.value.content, read.value.size; }
      var entry := if known then cp.live.files[path.key]
                   else FileSnapshot(path.key, None, None, None, None, false, plan.redacted, plan.reason);
      if entry.beforeHash.Some? { charged := 0; }
      entry := entry.(afterHash := HashOf(read), afterContent := kept, redacted := plan.redacted,
                      reason := plan.reason);
      live := live[runId := cp.(live := Live(cp.live.files[path.key := entry], cp.live.capturedBytes + charged))];
      return Ok(());
    }

    /** The order in which a hash map yields its values is its own. */
    static method FilesOf(cp: Live) returns (files: seq<FileSnapshot>)
      requires forall key :: key in cp.files ==> cp.files[key].path == key
      ensures Lists(files, cp)
    {
      files := [];
      var left := cp.files;
      while left != map[]
        invariant forall key :: key in left ==> key in cp.files && left[key] == cp.files[key]
        invariant forall i :: 0 <= i < |files| ==>
          files[i].path in cp.files && cp.files[files[i].path] == files[i] && files[i].path !in left
        invariant forall i, j :: 0 <= i < j < |files| ==> files[i].path != files[j].path
        invariant |files| + |left| == |cp.files|
        decreases |left|
      {
        var key :| key in left;
        files := files + [left[key]];
        assert (left - {key}).Keys == left.Keys - {key};
        left := left - {key};
      }
    }

    /** An entry for every selected file, and a conflict for each that is not as the run left it. */
    method BuildRewindPreview(files: seq<FileSnapshot>, paths: Option<seq<Path>>, readOk: Path -> bool)
      returns (result: Result<RewindPreview, string>)
      ensures result.Ok? ==>
        result.value == RewindPreview(PreviewsOf(files, paths, disk), ConflictsOf(files, paths, disk))
      ensures result.Ok? <==> Readable(files, paths, disk, readOk)
    {
      var previews: seq<FilePreview>, conflicts: seq<Path> := [], [];
      for i := 0 to |files|
        invariant previews == PreviewsOf(files[..i], paths, disk)
        invariant conflicts == ConflictsOf(files[..i], paths, disk)
        invariant forall k :: 0 <= k < i && Selected(paths, files[k].path) && files[k].path in disk ==>
          readOk(files[k].path)
      {
        var f := files[i];
        assert files[..i + 1][..i] == files[..i];
        if paths.Some? && f.path !in paths.value { continue; }
        var current: Option<Digest> := None;
        if f.path in disk {
          if !readOk(f.path) { return Err("checkpoint read failed"); }
          current := Some(ReadCapped(disk[f.path], MAX_CAPTURE_FILE_CONTENT_BYTES).hash);
        }
        if f.afterHash.Some? && current.Some? && f.afterHash != current {
          conflicts := conflicts + [f.path];
        }
        var change := if !f.existedBefore then Add else if f.afterHash.None? then Delete else Update;
        var restorable, cause := true, None;
        if f.redacted {
          restorable, cause := false, Some(if f.reason.Some? then Redacted(f.reason.value) else NotCaptured);
        } else if f.existedBefore && f.beforeContent.None? {
          restorable, cause := false, Some(NotText);
        }
        previews := previews + [FilePreview(f.path, f.afterHash, current, change, restorable, cause)];
      }
      assert files[..|files|] == files;
      return Ok(RewindPreview(previews, conflicts));
    }

    /** One file: stage what is there, then write or remove; a failing operation leaves the target alone. */
    method RestoreFile(f: FileSnapshot, i: nat, staging: seq<Staged>, fails: (nat, Operation) -> bool)
      returns (staged: seq<Staged>, failed: bool)
      requires !Skipped(f)
      modifies this`disk
      ensures Undone(disk, staged) == Undone(old(disk), staging)
      ensures !failed ==> disk == Restored(f, old(disk))
      ensures failed <==> exists op :: Performs(f, old(disk), op) && fails(i, op)
    {
      if f.path in disk && fails(i, ReadPrior) {
        assert Performs(f, disk, ReadPrior);
        return staging, true;
      }
      var prior := if f.path in disk then Some(disk[f.path]) else None;
      StagingKeepsUndo(disk, staging, f.path, if f.existedBefore then f.beforeContent else None);
      staged := staging + [Staged(f.path, prior)];
      if f.existedBefore {
        if f.beforeContent.Some? {
          assert Performs(f, disk, MakeDirectories) && Performs(f, disk, WriteTemporary) && Performs(f, disk, Rename);
          if fails(i, MakeDirectories) || fails(i, WriteTemporary) || fails(i, Rename) { return staged, true; }
          disk := disk[f.path := f.beforeContent.value];
        }
      } else if f.path in disk {
        assert Performs(f, disk, Remove);
        if fails(i, Remove) { return staged, true; }
        disk := disk - {f.path};
      } else {
        assert disk - {f.path} == disk;
      }
      return staged, false;
    }

    /**
     * All or nothing, for any list of files, also one that names a path twice,
     * and a failure at any operation of any of them.
     */
    method ApplyRewindFiles(files: seq<FileSnapshot>, paths: Option<seq<Path>>, fails: (nat, Operation) -> bool)
      returns (result: Result<seq<Path>, string>)
      modifies this`disk
      ensures result.Ok? ==> disk == RestoredAll(files, paths, old(disk)) && result.value == RestoredNames(files, paths)
      ensures result.Err? ==> disk == old(disk)
      ensures result.Ok? <==> NoneFails(files, paths, old(disk), fails)
    {
      var staging: seq<Staged> := [];
      var restored: seq<Path> := [];
      for i := 0 to |files|
        invariant Undone(disk, staging) == old(disk)
        invariant disk == RestoredAll(files[..i], paths, old(disk)) && restored == RestoredNames(files[..i], paths)
        invariant forall k: nat, op :: k < i && Meets(files, paths, old(disk), k, op) ==> !fails(k, op)
      {
        var f := files[i];
        assert files[..i + 1][..i] == files[..i];
        if (paths.None? || f.path in paths.value) && !(f.redacted && f.existedBefore) {
          var failed;
          staging, failed := RestoreFile(f, i, staging, fails);
          if failed {
            UndoRestore(staging);
            return Err("workspace.restore failed mid-apply and rolled back");
          }
          restored := restored + [f.path];
        }
      }
      assert files[..|files|] == files;
      return Ok(restored);
    }

    method UndoRestore(staging: seq<Staged>)
      modifies this`disk
      ensures disk == Undone(old(disk), staging)
    {
      var i := |staging|;
      assert staging[..i] == staging;
      while i > 0
        invariant 0 <= i <= |staging|
        invariant Undone(disk, staging[..i]) == Undone(old(disk), staging)
      {
        i := i - 1;
        assert staging[..i + 1][..i] == staging[..i];
        if staging[i].prior.Some? {
          disk := disk[staging[i].key := staging[i].prior.value];
        } else {
          disk := disk - {staging[i].key};
        }
      }
    }

    /** The refusals that need no file: each restores nothing. */
    ghost predicate Accepts(runId: string, checkpointId: string, root: string, policy: string)
      reads this
    {
      && policy == "fail" && !IsBlank(checkpointId)
      && runId in live && live[runId].id == checkpointId && live[runId].root == root
    }

    /**
     * Checkpoint ids are fresh, so the live checkpoint of an id is the one run's.
     * Refusal or failure changes nothing. A rewind goes through, and restores the
     * selected files, exactly if it is accepted, the selected files still there
     * can be read and are as the run left them, and no operation it meets fails.
     */
    method Rewind(runId: string, checkpointId: string, root: string, paths: Option<seq<Path>>, policy: string,
                  readOk: Path -> bool, fails: (nat, Operation) -> bool)
      returns (result: Result<seq<Path>, string>, files: seq<FileSnapshot>)
      requires Valid()
      modifies this`disk
      ensures Valid()
      ensures result.Err? ==> disk == old(disk)
      ensures result.Ok? ==>
        && Accepts(runId, checkpointId, root, policy) && Lists(files, live[runId].live)
        && ConflictsOf(files, paths, old(disk)) == []
        && disk == RestoredAll(files, paths, old(disk)) && result.value == RestoredNames(files, paths)
      ensures Accepts(runId, checkpointId, root, policy) ==> Lists(files, live[runId].live)
      ensures result.Ok? <==>
        && Accepts(runId, checkpointId, root, policy) && Readable(files, paths, old(disk), readOk)
        && ConflictsOf(files, paths, old(disk)) == [] && NoneFails(files, paths, old(disk), fails)
    {
      files := [];
      if policy != "fail" { return Err("only conflict_policy=fail is supported"), files; }
      if IsBlank(checkpointId) { return Err("checkpoint_id required"), files; }
      if runId !in live || live[runId].id != checkpointId {
        return Err("workspace.restore refused: checkpoint not found"), files;
      }
      if live[runId].root != root { return Err("workspace.restore refused: project_identity mismatch"), files; }
      files := FilesOf(live[runId].live);
      var preview := BuildRewindPreview(files, paths, readOk);
      if preview.Err? { return Err(preview.error), files; }
      if preview.value.conflicts != [] { return Err("workspace.restore refused: conflicts"), files; }
      result := ApplyRewindFiles(files, paths, fails);
    }
  }
}
