/**
 * Undo of a whole run. A run is any sequence of captures and writes in which a
 * path is written only once its before-image is captured, as tool execution
 * guarantees: a tool whose before-capture fails does not run, one whose
 * handler fails or dies takes no after-image, and one call may write many paths.
 */
module CheckpointUndo {
  import opened Wrappers
  import opened CheckpointState

  datatype Step =
    | Before(path: TrustedPath, readOk: bool)
    | Write(key: Path, becomes: Option<Bytes>)
    | After(path: TrustedPath, readOk: bool)

  datatype Session = Session(live: Live, ws: Workspace)

  predicate Enabled(s: Session, step: Step) {
    match step
    case Before(_, _) => true
    case Write(key, _) => key in s.live.files
    case After(path, _) => path.key in s.live.files
  }

  function Written(ws: Workspace, key: Path, becomes: Option<Bytes>): Workspace {
    if becomes.Some? then ws[key := becomes.value] else ws - {key}
  }

  function Next(s: Session, step: Step): Session {
    match step
    case Before(path, readOk) => s.(live := CaptureBefore(s.live, s.ws, path, readOk).UnwrapOr(s.live))
    case Write(key, becomes) => s.(ws := Written(s.ws, key, becomes))
    case After(path, readOk) => s.(live := CaptureAfter(s.live, s.ws, path, readOk).UnwrapOr(s.live))
  }

  predicate IsRun(s: Session, steps: seq<Step>)
    decreases |steps|
  {
    steps != [] ==> Enabled(s, steps[0]) && IsRun(Next(s, steps[0]), steps[1..])
  }

  function Last(s: Session, steps: seq<Step>): Session
    decreases |steps|
  {
    if steps == [] then s else Last(Next(s, steps[0]), steps[1..])
  }

  // ---- Redaction ----

  /** The after-image of a redacted file is its hash alone. */
  predicate HashOnly(f: FileSnapshot) {
    f.redacted ==> f.afterContent.None?
  }

  /** What later captures keep of a file. */
  predicate Settles(f: FileSnapshot, f': FileSnapshot) {
    && f'.path == f.path && f'.existedBefore == f.existedBefore
    && f'.beforeHash == f.beforeHash && f'.beforeContent == f.beforeContent
    && (f.redacted ==> f'.redacted)
    && (HashOnly(f) ==> HashOnly(f'))
  }

  /**
   * The first before-image of a file is final and its redaction never comes
   * off, whatever is captured, rewritten, deleted or fails to be read after it.
   */
  lemma {:induction false} RedactionIsSticky(s: Session, steps: seq<Step>, key: Path)
    requires key in s.live.files
    ensures key in Last(s, steps).live.files
    ensures Settles(s.live.files[key], Last(s, steps).live.files[key])
    decreases |steps|
  {
    if steps != [] {
      RedactionIsSticky(Next(s, steps[0]), steps[1..], key);
    }
  }

  // ---- The invariant of a run that started on a workspace ----

  function At(ws: Workspace, key: Path): Option<Bytes> {
    if key in ws then Some(ws[key]) else None
  }

  /** A before-image says what was there when the run began. */
  predicate TellsStart(f: FileSnapshot, was: Option<Bytes>) {
    && f.existedBefore == was.Some?
    && (f.beforeContent.Some? ==> was == f.beforeContent)
    && (!f.redacted && was.Some? && IsText(was.value) ==> f.beforeContent.Some?)
  }

  predicate Faithful(start: Workspace, s: Session, key: Path) {
    if key in s.live.files
    then s.live.files[key].path == key && TellsStart(s.live.files[key], At(start, key))
    else At(s.ws, key) == At(start, key)
  }

  ghost predicate AllFaithful(start: Workspace, s: Session) {
    forall key :: Faithful(start, s, key)
  }

  lemma StepKeepsFaithful(start: Workspace, s: Session, step: Step, key: Path)
    requires Faithful(start, s, key) && Enabled(s, step)
    ensures Faithful(start, Next(s, step), key)
  {
  }

  lemma {:induction false} RunIsFaithful(start: Workspace, s: Session, steps: seq<Step>)
    requires AllFaithful(start, s) && IsRun(s, steps)
    ensures AllFaithful(start, Last(s, steps))
    decreases |steps|
  {
    if steps != [] {
      forall key ensures Faithful(start, Next(s, steps[0]), key) {
        StepKeepsFaithful(start, s, steps[0], key);
      }
      RunIsFaithful(start, Next(s, steps[0]), steps[1..]);
    }
  }

  // ---- Rewind ----

  predicate Selected(paths: Option<seq<Path>>, key: Path) {
    paths.None? || key in paths.value
  }

  /** The file is still there and is not what the run left. */
  predicate Conflicts(f: FileSnapshot, ws: Workspace) {
    f.path in ws && f.afterHash.Some? && f.afterHash.value != Digest(ws[f.path])
  }

  /** Restoring is impossible and rewind does not try. */
  predicate Skipped(f: FileSnapshot) {
    f.redacted && f.existedBefore
  }

  /** The preview's `restorable`. */
  predicate Restorable(f: FileSnapshot) {
    !f.redacted && (f.existedBefore ==> f.beforeContent.Some?)
  }

  function Restored(f: FileSnapshot, ws: Workspace): Workspace {
    if Skipped(f) || (f.existedBefore && f.beforeContent.None?) then ws
    else Written(ws, f.path, if f.existedBefore then f.beforeContent else None)
  }

  /** The rewind of the selected files in the order listed. */
  function RestoredAll(files: seq<FileSnapshot>, paths: Option<seq<Path>>, ws: Workspace): Workspace {
    if files == [] then ws
    else
      var before := RestoredAll(files[..|files| - 1], paths, ws);
      var f := files[|files| - 1];
      if Selected(paths, f.path) then Restored(f, before) else before
  }

  /** The names rewind reports. */
  function RestoredNames(files: seq<FileSnapshot>, paths: Option<seq<Path>>): seq<Path> {
    if files == [] then []
    else
      var f := files[|files| - 1];
      RestoredNames(files[..|files| - 1], paths)
      + (if Selected(paths, f.path) && !Skipped(f) then [f.path] else [])
  }

  /** The snapshots of a checkpoint, in whatever order its map yields them. */
  predicate Lists(files: seq<FileSnapshot>, live: Live) {
    && (forall i :: 0 <= i < |files| ==>
          files[i].path in live.files && live.files[files[i].path] == files[i])
    && (forall i, j :: 0 <= i < j < |files| ==> files[i].path != files[j].path)
    && |files| == |live.files|
  }

  lemma {:induction false} ListsAll(files: seq<FileSnapshot>, live: Live)
    requires Lists(files, live)
    ensures forall key :: key in live.files ==>
      exists i :: 0 <= i < |files| && files[i] == live.files[key]
    decreases |files|
  {
    if files == [] {
    } else {
      var f := files[|files| - 1];
      var rest := files[..|files| - 1];
      var fewer := Live(live.files - {f.path}, live.capturedBytes);
      assert |fewer.files| == |live.files| - 1 by {
        assert fewer.files.Keys == live.files.Keys - {f.path};
      }
      ListsAll(rest, fewer);
      forall key | key in live.files ensures exists i :: 0 <= i < |files| && files[i] == live.files[key] {
        if key == f.path {
          assert files[|files| - 1] == live.files[key];
        } else {
          assert key in fewer.files && fewer.files[key] == live.files[key];
          var i :| 0 <= i < |rest| && rest[i] == live.files[key];
          assert files[i] == live.files[key];
        }
      }
    }
  }

  lemma {:induction false} RestoredElsewhere(files: seq<FileSnapshot>, paths: Option<seq<Path>>, ws: Workspace,
                                             key: Path)
    requires forall i :: 0 <= i < |files| ==> files[i].path != key
    ensures At(RestoredAll(files, paths, ws), key) == At(ws, key)
  {
    if files != [] {
      RestoredElsewhere(files[..|files| - 1], paths, ws, key);
    }
  }

  /** What a rewind leaves at a listed path: that file's own restoration. */
  lemma {:induction false} RestoredAt(files: seq<FileSnapshot>, i: nat, paths: Option<seq<Path>>, ws: Workspace)
    requires forall i, j :: 0 <= i < j < |files| ==> files[i].path != files[j].path
    requires i < |files|
    ensures At(RestoredAll(files, paths, ws), files[i].path)
            == At(if Selected(paths, files[i].path) then Restored(files[i], ws) else ws, files[i].path)
  {
    if i == |files| - 1 {
      RestoredElsewhere(files[..i], paths, ws, files[i].path);
    } else {
      RestoredAt(files[..|files| - 1], i, paths, ws);
    }
  }

  /** What a file's own restoration leaves at its path, told from what was there at the start. */
  lemma RestoredIs(f: FileSnapshot, was: Option<Bytes>, ws: Workspace)
    requires TellsStart(f, was) && (f.beforeContent.Some? ==> IsText(f.beforeContent.value))
    ensures At(Restored(f, ws), f.path) ==
      if was.None? then None
      else if f.redacted || !IsText(was.value) then At(ws, f.path)
      else was
  {
  }

  /**
   * Undo of a whole run. After any run, and whatever happened to the workspace
   * since, a rewind in any order gives each selected captured file that is text
   * and not redacted its content at the run's start, removes each selected file
   * the run added, redacted or not, and touches nothing else.
   */
  lemma UndoOfARun(start: Workspace, steps: seq<Step>, now: Workspace,
                   files: seq<FileSnapshot>, paths: Option<seq<Path>>, key: Path)
    requires IsRun(Session(EMPTY_LIVE, start), steps)
    requires Lists(files, Last(Session(EMPTY_LIVE, start), steps).live)
    ensures
      var live := Last(Session(EMPTY_LIVE, start), steps).live;
      var after := RestoredAll(files, paths, now);
      if key in live.files && Selected(paths, key) then
        if key !in start then key !in after
        else if !live.files[key].redacted && IsText(start[key]) then key in after && after[key] == start[key]
        else At(after, key) == At(now, key)
      else At(after, key) == At(now, key)
  {
    var first := Session(EMPTY_LIVE, start);
    var live := Last(first, steps).live;
    RunIsFaithful(start, first, steps);
    assert Faithful(start, Last(first, steps), key);
    if key in live.files {
      ListsAll(files, live);
      var i :| 0 <= i < |files| && files[i] == live.files[key];
      RestoredAt(files, i, paths, now);
      ContentIsText(start, first, steps, key);
      RestoredIs(live.files[key], At(start, key), now);
    } else {
      RestoredElsewhere(files, paths, now, key);
    }
  }

  /** The capture succeeds on a run's untouched workspace. */
  predicate Takes(start: Workspace, step: Step) {
    step.Before? && step.path.insideRoot && (step.path.key in start ==> step.readOk)
  }

  lemma {:induction false} EmptyUntilTaken(start: Workspace, steps: seq<Step>)
    requires IsRun(Session(EMPTY_LIVE, start), steps)
    ensures Last(Session(EMPTY_LIVE, start), steps).live.files == map[] <==>
      forall i :: 0 <= i < |steps| ==> !Takes(start, steps[i])
    decreases |steps|
  {
    if steps != [] {
      var first := Session(EMPTY_LIVE, start);
      if Takes(start, steps[0]) {
        RedactionIsSticky(Next(first, steps[0]), steps[1..], steps[0].path.key);
      } else {
        assert Next(first, steps[0]) == first;
        EmptyUntilTaken(start, steps[1..]);
        assert forall i :: 0 < i < |steps| ==> steps[i] == steps[1..][i - 1];
      }
    }
  }

  /**
   * Beginning a run forgets what an earlier checkpoint of it captured. Its
   * checkpoint lists nothing exactly until a capture succeeds, and until then a
   * rewind changes nothing and reports nothing.
   */
  lemma NothingToUndoAtBegin(start: Workspace, steps: seq<Step>, now: Workspace,
                             files: seq<FileSnapshot>, paths: Option<seq<Path>>)
    requires IsRun(Session(EMPTY_LIVE, start), steps)
    requires Lists(files, Last(Session(EMPTY_LIVE, start), steps).live)
    ensures files == [] <==> forall i :: 0 <= i < |steps| ==> !Takes(start, steps[i])
    ensures files == [] ==> RestoredAll(files, paths, now) == now && RestoredNames(files, paths) == []
  {
    EmptyUntilTaken(start, steps);
    assert |files| == 0 <==> Last(Session(EMPTY_LIVE, start), steps).live.files == map[];
  }

  /** Content that is kept is text, so a file that is not text is never written. */
  lemma {:induction false} ContentIsText(start: Workspace, s: Session, steps: seq<Step>, key: Path)
    requires key in s.live.files && s.live.files[key].beforeContent.Some? ==>
      IsText(s.live.files[key].beforeContent.value)
    ensures var last := Last(s, steps);
      key in last.live.files && last.live.files[key].beforeContent.Some? ==>
        IsText(last.live.files[key].beforeContent.value)
    decreases |steps|
  {
    if steps != [] {
      ContentIsText(start, Next(s, steps[0]), steps[1..], key);
    }
  }

  /** A path the run never captured is one it never wrote. */
  lemma UncapturedIsUntouched(start: Workspace, steps: seq<Step>, key: Path)
    requires IsRun(Session(EMPTY_LIVE, start), steps)
    requires key !in Last(Session(EMPTY_LIVE, start), steps).live.files
    ensures At(Last(Session(EMPTY_LIVE, start), steps).ws, key) == At(start, key)
  {
    RunIsFaithful(start, Session(EMPTY_LIVE, start), steps);
    assert Faithful(start, Last(Session(EMPTY_LIVE, start), steps), key);
  }

  // ---- No conflict without an outside edit ----

  function Opened(s: Session, step: Step, open: set<Path>): set<Path> {
    match step
    case Write(key, _) => open + {key}
    case After(path, readOk) =>
      if CaptureAfter(s.live, s.ws, path, readOk).Ok? then open - {path.key} else open
    case _ => open
  }

  /** The paths written and not yet followed by an after-image. */
  function Unrecorded(s: Session, steps: seq<Step>, open: set<Path>): set<Path>
    decreases |steps|
  {
    if steps == [] then open
    else
      Unrecorded(Next(s, steps[0]), steps[1..], Opened(s, steps[0], open))
  }

  predicate Recorded(s: Session, open: set<Path>) {
    forall key :: key in s.live.files && key !in open ==>
      s.live.files[key].path == key && !Conflicts(s.live.files[key], s.ws)
  }

  lemma {:induction false} RunIsRecorded(s: Session, steps: seq<Step>, open: set<Path>)
    requires Recorded(s, open) && IsRun(s, steps)
    requires forall key :: key in s.live.files ==> s.live.files[key].path == key
    ensures Recorded(Last(s, steps), Unrecorded(s, steps, open))
    decreases |steps|
  {
    if steps != [] {
      RunIsRecorded(Next(s, steps[0]), steps[1..], Opened(s, steps[0], open));
    }
  }

  /**
   * When every write was followed by its after-image and nothing outside the
   * run changed the workspace, no file conflicts, and if every captured file is
   * restorable the rewind gives back the workspace the run started with.
   */
  lemma UndoIsExact(start: Workspace, steps: seq<Step>, files: seq<FileSnapshot>)
    requires IsRun(Session(EMPTY_LIVE, start), steps)
    requires Unrecorded(Session(EMPTY_LIVE, start), steps, {}) == {}
    requires Lists(files, Last(Session(EMPTY_LIVE, start), steps).live)
    ensures forall f :: f in files ==> !Conflicts(f, Last(Session(EMPTY_LIVE, start), steps).ws)
    ensures (forall f :: f in files ==> Restorable(f)) ==>
      RestoredAll(files, None, Last(Session(EMPTY_LIVE, start), steps).ws) == start
  {
    var first := Session(EMPTY_LIVE, start);
    var last := Last(first, steps);
    RunIsRecorded(first, steps, {});
    RunIsFaithful(start, first, steps);
    if forall f :: f in files ==> Restorable(f) {
      forall key ensures At(RestoredAll(files, None, last.ws), key) == At(start, key) {
        assert Faithful(start, last, key);
        RestoresStart(start, last, files, key);
      }
      SameEverywhere(RestoredAll(files, None, last.ws), start);
    }
  }

  lemma RestoresStart(start: Workspace, s: Session, files: seq<FileSnapshot>, key: Path)
    requires Faithful(start, s, key) && Lists(files, s.live)
    requires forall f :: f in files ==> Restorable(f)
    ensures At(RestoredAll(files, None, s.ws), key) == At(start, key)
  {
    if key in s.live.files {
      ListsAll(files, s.live);
      var i :| 0 <= i < |files| && files[i] == s.live.files[key];
      RestoredAt(files, i, None, s.ws);
      assert files[i] in files;
    } else {
      RestoredElsewhere(files, None, s.ws, key);
    }
  }

  lemma SameEverywhere(a: Workspace, b: Workspace)
    requires forall key :: At(a, key) == At(b, key)
    ensures a == b
  {
    assert forall key :: key in a <==> At(a, key).Some?;
    assert forall key :: key in b <==> At(b, key).Some?;
    assert forall key :: key in a ==> a[key] == At(a, key).value == At(b, key).value;
  }

  /** No workspace is changed by restoring the file. */
  ghost predicate NeverWrites(f: FileSnapshot) {
    forall ws: Workspace :: Restored(f, ws) == ws
  }

  lemma WritesSomewhere(f: FileSnapshot) returns (ws: Workspace)
    requires !Skipped(f) && !(f.existedBefore && f.beforeContent.None?)
    ensures Restored(f, ws) != ws
  {
    if f.existedBefore {
      ws := map[];
      assert f.path in Restored(f, ws);
    } else {
      ws := map[f.path := []];
      assert f.path !in Restored(f, ws);
    }
  }

  /**
   * A file is reported as restored although nothing is ever written exactly
   * when it is selected, existed, is not redacted and was not kept as text.
   */
  lemma ReportedWithoutAWrite(f: FileSnapshot, paths: Option<seq<Path>>)
    ensures (RestoredNames([f], paths) == [f.path] && NeverWrites(f))
            <==> (Selected(paths, f.path) && f.existedBefore && !f.redacted && f.beforeContent.None?)
  {
    assert [f][..0] == [];
    if !Skipped(f) && !(f.existedBefore && f.beforeContent.None?) {
      var ws := WritesSomewhere(f);
      assert !NeverWrites(f);
    }
  }
}
