/**
 * What a checkpoint records of one run's files. A path is the project-relative
 * one, the workspace is a map from path to content, and SHA-256 is taken to be
 * injective: a digest is named by what it digests.
 */
module CheckpointState {
  import opened Wrappers

  type Byte = b: int | 0 <= b < 256
  type Bytes = seq<Byte>
  type Path = string
  type Workspace = map<Path, Bytes>

  datatype Digest = Digest(of: Bytes)

  const MAX_CAPTURE_FILE_CONTENT_BYTES: nat := 256 * 1024
  const MAX_CAPTURE_TOTAL_BYTES: nat := 8 * 1024 * 1024
  const MAX_CAPTURE_FILE_COUNT: nat := 512

  datatype Reason = SensitivePath | TooLarge | OverByteQuota | TooManyFiles

  datatype FileSnapshot = FileSnapshot(
    path: Path,
    beforeHash: Option<Digest>,
    afterHash: Option<Digest>,
    beforeContent: Option<Bytes>,
    afterContent: Option<Bytes>,
    existedBefore: bool,
    redacted: bool,
    reason: Option<Reason>)

  datatype Live = Live(files: map<Path, FileSnapshot>, capturedBytes: nat)

  const EMPTY_LIVE := Live(map[], 0)

  /** What the gateway's path preflight says of a path; the name decides `sensitive`. */
  datatype TrustedPath = TrustedPath(key: Path, insideRoot: bool, sensitive: bool)

  datatype StreamedRead = StreamedRead(hash: Digest, size: nat, content: Option<Bytes>, overCap: bool)

  // ---- Text, by the rules of RFC 3629 ----

  predicate Continues(b: Byte) {
    0x80 <= b < 0xC0
  }

  /** The number of bytes of the first character, 0 if they do not form one. */
  function CharLength(s: Bytes): (n: nat)
    requires s != []
    ensures n <= |s|
  {
    if s[0] < 0x80 then 1
    else if 0xC2 <= s[0] < 0xE0 && |s| >= 2 && Continues(s[1]) then 2
    else if 0xE0 <= s[0] < 0xF0 && |s| >= 3 && Continues(s[1]) && Continues(s[2])
            && (s[0] == 0xE0 ==> s[1] >= 0xA0) && (s[0] == 0xED ==> s[1] < 0xA0) then 3
    else if 0xF0 <= s[0] < 0xF5 && |s| >= 4 && Continues(s[1]) && Continues(s[2]) && Continues(s[3])
            && (s[0] == 0xF0 ==> s[1] >= 0x90) && (s[0] == 0xF4 ==> s[1] < 0x90) then 4
    else 0
  }

  predicate IsText(s: Bytes)
    decreases |s|
  {
    s == [] || (CharLength(s) > 0 && IsText(s[CharLength(s)..]))
  }

  /** The whole file is hashed; its content is kept when it fits the cap and is text. */
  function ReadCapped(content: Bytes, cap: nat): StreamedRead {
    StreamedRead(Digest(content), |content|,
                 if |content| <= cap && IsText(content) then Some(content) else None,
                 |content| > cap)
  }

  /** The read of a path, `None` when nothing is there, an error when the read fails. */
  function ReadAt(ws: Workspace, path: Path, readOk: bool): Result<Option<StreamedRead>, string> {
    if path !in ws then Ok(None)
    else if readOk then Ok(Some(ReadCapped(ws[path], MAX_CAPTURE_FILE_CONTENT_BYTES)))
    else Err("checkpoint read failed")
  }

  // ---- Captures ----

  datatype Redaction = Redaction(redacted: bool, reason: Option<Reason>)

  /** The caps that need the size are applied once the file is read; the byte quota has the last word. */
  function Capped(live: Live, plan: Redaction, read: Option<StreamedRead>): Redaction {
    if read.None? then plan
    else if live.capturedBytes + read.value.size > MAX_CAPTURE_TOTAL_BYTES then Redaction(true, Some(OverByteQuota))
    else if read.value.overCap then Redaction(true, Some(TooLarge))
    else plan
  }

  function KeptContent(final: Redaction, read: Option<StreamedRead>): Option<Bytes> {
    if read.Some? && !final.redacted then read.value.content else None
  }

  /** The bytes charged to the quota: the size of what was kept, even when it was not text. */
  function Charged(final: Redaction, read: Option<StreamedRead>): nat {
    if read.Some? && !final.redacted then read.value.size else 0
  }

  function HashOf(read: Option<StreamedRead>): Option<Digest> {
    if read.Some? then Some(read.value.hash) else None
  }

  function BeforePlan(live: Live, path: TrustedPath): Redaction {
    if |live.files| >= MAX_CAPTURE_FILE_COUNT then Redaction(true, Some(TooManyFiles))
    else if path.sensitive then Redaction(true, Some(SensitivePath))
    else Redaction(false, None)
  }

  function CommitBefore(live: Live, key: Path, plan: Redaction, read: Option<StreamedRead>): Live {
    var final := Capped(live, plan, read);
    Live(live.files[key := FileSnapshot(key, HashOf(read), None, KeptContent(final, read), None,
                                        read.Some?, final.redacted, final.reason)],
         live.capturedBytes + Charged(final, read))
  }

  /** Redaction is sticky: a file once redacted is planned as redacted. */
  function AfterPlan(live: Live, path: TrustedPath): Redaction {
    if path.key in live.files then
      var f := live.files[path.key];
      if f.redacted then Redaction(true, Some(f.reason.UnwrapOr(SensitivePath))) else Redaction(false, None)
    else if path.sensitive then Redaction(true, Some(SensitivePath))
    else Redaction(false, None)
  }

  /** A file that has a before-hash is not charged again. */
  function CommitAfter(live: Live, key: Path, plan: Redaction, read: Option<StreamedRead>): Live {
    var final := Capped(live, plan, read);
    var entry := if key in live.files then live.files[key]
                 else FileSnapshot(key, None, None, None, None, false, final.redacted, final.reason);
    Live(live.files[key := entry.(afterHash := HashOf(read), afterContent := KeptContent(final, read),
                                  redacted := final.redacted, reason := final.reason)],
         live.capturedBytes + (if entry.beforeHash.None? then Charged(final, read) else 0))
  }

  function CaptureBefore(live: Live, ws: Workspace, path: TrustedPath, readOk: bool): Result<Live, string> {
    if path.key in live.files then Ok(live)
    else if !path.insideRoot then Err("checkpoint path escapes project root")
    else
      match ReadAt(ws, path.key, readOk)
      case Err(error) => Err(error)
      case Ok(read) => Ok(CommitBefore(live, path.key, BeforePlan(live, path), read))
  }

  function CaptureAfter(live: Live, ws: Workspace, path: TrustedPath, readOk: bool): Result<Live, string> {
    if !path.insideRoot then Err("checkpoint path escapes project root")
    else
      match ReadAt(ws, path.key, readOk)
      case Err(error) => Err(error)
      case Ok(read) => Ok(CommitAfter(live, path.key, AfterPlan(live, path), read))
  }
}
