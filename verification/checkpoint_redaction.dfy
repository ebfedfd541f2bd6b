/**
 * When a capture redacts, with the limits written out: a sensitive path, the
 * 513th file, a file over 256 KiB, a run over 8 MiB; and what that means for
 * the undo of a whole run.
 */
module CheckpointRedaction {
  import opened CheckpointRestore
  import opened CheckpointState
  import opened CheckpointUndo
  import opened Wrappers

  // ---- One capture ----

  function DigestOf(content: Option<Bytes>): Option<Digest> {
    if content.Some? then Some(Digest(content.value)) else None
  }

  function SizeOf(content: Option<Bytes>): nat {
    if content.Some? then |content.value| else 0
  }

  /** Nothing of a size over the limits is kept, whatever the path is. */
  function OverLimit(live: Live, content: Option<Bytes>): Option<Reason> {
    if content.Some? && live.capturedBytes + |content.value| > 8_388_608 then Some(OverByteQuota)
    else if content.Some? && |content.value| > 262_144 then Some(TooLarge)
    else None
  }

  function BeforeReason(live: Live, path: TrustedPath, was: Option<Bytes>): Option<Reason> {
    if OverLimit(live, was).Some? then OverLimit(live, was)
    else if |live.files| >= 512 then Some(TooManyFiles)
    else if path.sensitive then Some(SensitivePath)
    else None
  }

  function Kept(content: Option<Bytes>, reason: Option<Reason>): Option<Bytes> {
    if reason.None? && content.Some? && IsText(content.value) then content else None
  }

  /**
   * The first capture of a path, entirely. It succeeds exactly when the path is
   * inside the root and what is there can be read; it redacts exactly when the
   * path is sensitive or a limit is passed; a redacted file keeps its hash only,
   * any other its whole content if that is text, and its size is charged.
   */
  lemma FirstCaptureRecords(live: Live, ws: Workspace, path: TrustedPath, readOk: bool)
    requires path.key !in live.files
    ensures
      var captured := CaptureBefore(live, ws, path, readOk);
      var was := At(ws, path.key);
      var reason := BeforeReason(live, path, was);
      && (captured.Ok? <==> path.insideRoot && (path.key in ws ==> readOk))
      && (reason.Some? <==> path.sensitive || |live.files| >= 512 || SizeOf(was) > 262_144
                            || (was.Some? && live.capturedBytes + SizeOf(was) > 8_388_608))
      && (captured.Ok? ==>
            && captured.value.files == live.files[path.key := FileSnapshot(
                 path.key, DigestOf(was), None, Kept(was, reason), None, was.Some?, reason.Some?, reason)]
            && captured.value.capturedBytes == live.capturedBytes + (if reason.None? then SizeOf(was) else 0))
  {
  }

  /** A path that is captured is not captured again. */
  lemma LaterCaptureIsIdle(live: Live, ws: Workspace, path: TrustedPath, readOk: bool)
    requires path.key in live.files
    ensures CaptureBefore(live, ws, path, readOk) == Ok(live)
  {
  }

  function AfterReason(live: Live, f: FileSnapshot, now: Option<Bytes>): Option<Reason> {
    if OverLimit(live, now).Some? then OverLimit(live, now)
    else if f.redacted then Some(f.reason.UnwrapOr(SensitivePath))
    else None
  }

  /** The after-capture of a captured path, entirely: the before-image stays, redaction only ever comes on. */
  lemma AfterCaptureRecords(live: Live, ws: Workspace, path: TrustedPath, readOk: bool)
    requires path.key in live.files
    ensures
      var captured := CaptureAfter(live, ws, path, readOk);
      var f, now := live.files[path.key], At(ws, path.key);
      var reason := AfterReason(live, f, now);
      && (captured.Ok? <==> path.insideRoot && (path.key in ws ==> readOk))
      && (captured.Ok? ==>
            && captured.value.files == live.files[path.key := FileSnapshot(
                 f.path, f.beforeHash, DigestOf(now), f.beforeContent, Kept(now, reason), f.existedBefore,
                 reason.Some?, reason)]
            && captured.value.capturedBytes ==
               live.capturedBytes + (if f.beforeHash.None? && reason.None? then SizeOf(now) else 0))
  {
  }

  /** An after-capture of a path never captured before takes what it finds for a file that was not there. */
  lemma AfterCaptureAlone(live: Live, ws: Workspace, path: TrustedPath, readOk: bool)
    requires path.key !in live.files
    ensures
      var captured := CaptureAfter(live, ws, path, readOk);
      var now := At(ws, path.key);
      var reason := if OverLimit(live, now).Some? then OverLimit(live, now)
                    else if path.sensitive then Some(SensitivePath) else None;
      && (captured.Ok? <==> path.insideRoot && (path.key in ws ==> readOk))
      && (captured.Ok? ==>
            && captured.value.files == live.files[path.key := FileSnapshot(
                 path.key, None, DigestOf(now), None, Kept(now, reason), false, reason.Some?, reason)]
            && captured.value.capturedBytes == live.capturedBytes + (if reason.None? then SizeOf(now) else 0))
  {
  }

  // ---- Over a run ----

  /** The content found takes the file or the run over a limit. */
  predicate IsOver(s: Session, key: Path) {
    key in s.ws && (|s.ws[key]| > 262_144 || s.live.capturedBytes + |s.ws[key]| > 8_388_608)
  }

  /** The step redacts the path: by its first capture, or by finding it too large after a write. */
  predicate RedactsAt(s: Session, step: Step, key: Path) {
    match step
    case Before(path, readOk) =>
      && path.key == key && key !in s.live.files && path.insideRoot && (key in s.ws ==> readOk)
      && (path.sensitive || |s.live.files| >= 512 || IsOver(s, key))
    case Write(_, _) => false
    case After(path, readOk) => path.key == key && path.insideRoot && readOk && IsOver(s, key)
  }

  predicate SomeRedacts(s: Session, steps: seq<Step>, key: Path)
    decreases |steps|
  {
    steps != [] && (RedactsAt(s, steps[0], key) || SomeRedacts(Next(s, steps[0]), steps[1..], key))
  }

  predicate IsRedacted(s: Session, key: Path) {
    key in s.live.files && s.live.files[key].redacted
  }

  lemma StepRedactsIff(s: Session, step: Step, key: Path)
    requires Enabled(s, step)
    ensures IsRedacted(Next(s, step), key) <==> IsRedacted(s, key) || RedactsAt(s, step, key)
  {
    match step
    case Before(path, readOk) =>
      if path.key !in s.live.files { FirstCaptureRecords(s.live, s.ws, path, readOk); }
    case Write(_, _) =>
    case After(path, readOk) => AfterCaptureRecords(s.live, s.ws, path, readOk);
  }

  /** A file is redacted at the end of a run exactly when some step of the run redacts it. */
  lemma {:induction false} RedactedIff(s: Session, steps: seq<Step>, key: Path)
    requires IsRun(s, steps)
    ensures IsRedacted(Last(s, steps), key) <==> IsRedacted(s, key) || SomeRedacts(s, steps, key)
    decreases |steps|
  {
    if steps != [] {
      StepRedactsIff(s, steps[0], key);
      RedactedIff(Next(s, steps[0]), steps[1..], key);
    }
  }

  /** Some capture of the path succeeds; until then it is as it was at the start. */
  predicate Captured(start: Workspace, steps: seq<Step>, key: Path) {
    exists i :: 0 <= i < |steps| && Takes(start, steps[i]) && steps[i].path.key == key
  }

  lemma {:induction false} CapturedIff(start: Workspace, s: Session, steps: seq<Step>, key: Path)
    requires IsRun(s, steps) && Faithful(start, s, key)
    ensures key in Last(s, steps).live.files <==> key in s.live.files || Captured(start, steps, key)
    decreases |steps|
  {
    if steps != [] {
      var next := Next(s, steps[0]);
      StepKeepsFaithful(start, s, steps[0], key);
      CapturedIff(start, next, steps[1..], key);
      assert key in next.live.files <==>
        key in s.live.files || (Takes(start, steps[0]) && steps[0].path.key == key);
      CapturedCons(start, steps, key);
    }
  }

  lemma CapturedCons(start: Workspace, steps: seq<Step>, key: Path)
    requires steps != []
    ensures Captured(start, steps, key) <==>
      (Takes(start, steps[0]) && steps[0].path.key == key) || Captured(start, steps[1..], key)
  {
    if i :| 0 <= i < |steps| && Takes(start, steps[i]) && steps[i].path.key == key {
      assert i > 0 ==> steps[1..][i - 1] == steps[i];
    }
    if i :| 0 <= i < |steps[1..]| && Takes(start, steps[1..][i]) && steps[1..][i].path.key == key {
      assert steps[i + 1] == steps[1..][i];
    }
  }

  /**
   * Undo of a whole run, told from its steps alone. A selected path of which
   * some capture succeeded is removed if it was not there at the start; it gets
   * its starting content back if that is text and no step redacts it; and
   * nothing else is touched.
   */
  lemma UndoFromTheSteps(start: Workspace, steps: seq<Step>, now: Workspace,
                         files: seq<FileSnapshot>, paths: Option<seq<Path>>, key: Path)
    requires IsRun(Session(EMPTY_LIVE, start), steps)
    requires Lists(files, Last(Session(EMPTY_LIVE, start), steps).live)
    ensures
      var after := RestoredAll(files, paths, now);
      if !Captured(start, steps, key) || (paths.Some? && key !in paths.value) then At(after, key) == At(now, key)
      else if key !in start then key !in after
      else if IsText(start[key]) && !SomeRedacts(Session(EMPTY_LIVE, start), steps, key)
      then At(after, key) == At(start, key)
      else At(after, key) == At(now, key)
  {
    var first := Session(EMPTY_LIVE, start);
    CapturedIff(start, first, steps, key);
    RedactedIff(first, steps, key);
    UndoOfARun(start, steps, now, files, paths, key);
  }

  // ---- Sensitive paths ----

  /** The name of a path decides whether it is sensitive. */
  ghost predicate NamesDecide(steps: seq<Step>, sensitive: Path -> bool) {
    forall i :: 0 <= i < |steps| && !steps[i].Write? ==> steps[i].path.sensitive == sensitive(steps[i].path.key)
  }

  predicate KeepsNothing(s: Session, key: Path) {
    key in s.live.files ==>
      && s.live.files[key].redacted
      && s.live.files[key].beforeContent == None && s.live.files[key].afterContent == None
  }

  /** Over any run nothing of a sensitive file's content is ever stored, before or after. */
  lemma {:induction false} SensitiveIsNeverStored(s: Session, steps: seq<Step>, sensitive: Path -> bool, key: Path)
    requires IsRun(s, steps) && NamesDecide(steps, sensitive) && sensitive(key) && KeepsNothing(s, key)
    ensures KeepsNothing(Last(s, steps), key)
    decreases |steps|
  {
    if steps != [] {
      assert !steps[0].Write? ==> steps[0].path.sensitive == sensitive(steps[0].path.key);
      StepKeepsNothing(s, steps[0], key);
      assert forall i :: 0 <= i < |steps[1..]| ==> steps[1..][i] == steps[i + 1];
      SensitiveIsNeverStored(Next(s, steps[0]), steps[1..], sensitive, key);
    }
  }

  lemma StepKeepsNothing(s: Session, step: Step, key: Path)
    requires Enabled(s, step) && KeepsNothing(s, key)
    requires !step.Write? && step.path.key == key ==> step.path.sensitive
    ensures KeepsNothing(Next(s, step), key)
  {
    match step
    case Before(path, readOk) =>
      if path.key !in s.live.files { FirstCaptureRecords(s.live, s.ws, path, readOk); }
    case Write(_, _) =>
    case After(path, readOk) => AfterCaptureRecords(s.live, s.ws, path, readOk);
  }

  // ---- In the preview ----

  /**
   * The two hashes of a preview's entry: that of the file as the last
   * after-capture found it and that of the file as it is now, or none if there
   * was or is no file.
   */
  lemma EntryHashes(live: Live, ws: Workspace, path: TrustedPath, readOk: bool, now: Workspace)
    requires CaptureAfter(live, ws, path, readOk).Ok? && path.key in live.files
    requires live.files[path.key].path == path.key
    ensures
      var p := PreviewOf(CaptureAfter(live, ws, path, readOk).value.files[path.key], now);
      p.path == path.key && p.afterHash == DigestOf(At(ws, path.key)) && p.currentHash == DigestOf(At(now, path.key))
  {
    AfterCaptureRecords(live, ws, path, readOk);
  }

  /** Why a file is not restorable, and what kind of change its entry reports. */
  lemma EntryCause(f: FileSnapshot, ws: Workspace)
    ensures
      var p := PreviewOf(f, ws);
      && (p.restorable <==> !f.redacted && (f.existedBefore ==> f.beforeContent.Some?))
      && p.cause == (if f.redacted then Some(if f.reason.Some? then Redacted(f.reason.value) else NotCaptured)
                     else if p.restorable then None else Some(NotText))
      && p.change == (if !f.existedBefore then Add else if f.afterHash.None? then Delete else Update)
  {
  }
}
