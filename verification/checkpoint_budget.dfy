/** The byte quota over any interleaving of captures. */
module CheckpointBudget {
  import opened Wrappers
  import opened CheckpointState

  function Size(content: Option<Bytes>): nat {
    if content.Some? then |content.value| else 0
  }

  /** The persisted bytes the quota answers for: before-images, and after-images of files with no before-hash. */
  function Weight(f: FileSnapshot): nat {
    Size(f.beforeContent) + (if f.beforeHash.None? then Size(f.afterContent) else 0)
  }

  ghost function Total(files: map<Path, FileSnapshot>): nat
    decreases |files|
  {
    if files == map[] then 0
    else
      var key :| key in files;
      Weight(files[key]) + Total(files - {key})
  }

  lemma TotalWithout(files: map<Path, FileSnapshot>, key: Path)
    requires key in files
    ensures Total(files) == Weight(files[key]) + Total(files - {key})
    decreases |files|
  {
    var first :| first in files && Total(files) == Weight(files[first]) + Total(files - {first});
    if first != key {
      TotalWithout(files - {first}, key);
      TotalWithout(files - {key}, first);
      assert files - {first} - {key} == files - {key} - {first};
    }
  }

  lemma TotalWith(files: map<Path, FileSnapshot>, key: Path, f: FileSnapshot)
    ensures Total(files[key := f]) ==
      Total(files) + Weight(f) - (if key in files then Weight(files[key]) else 0)
  {
    TotalWithout(files[key := f], key);
    assert files[key := f] - {key} == files - {key};
    if key in files {
      TotalWithout(files, key);
    } else {
      assert files - {key} == files;
    }
  }

  /** A capture, its plan made at any earlier moment: commits of one run may interleave with plans of others. */
  datatype Commit =
    | Before(key: Path, plan: Redaction, content: Option<Bytes>)
    | After(key: Path, plan: Redaction, content: Option<Bytes>)

  function Read(content: Option<Bytes>): Option<StreamedRead> {
    if content.Some? then Some(ReadCapped(content.value, MAX_CAPTURE_FILE_CONTENT_BYTES)) else None
  }

  function Step(live: Live, c: Commit): Live {
    match c
    case Before(key, plan, content) => CommitBefore(live, key, plan, Read(content))
    case After(key, plan, content) => CommitAfter(live, key, plan, Read(content))
  }

  function Run(live: Live, commits: seq<Commit>): Live
    decreases |commits|
  {
    if commits == [] then live else Run(Step(live, commits[0]), commits[1..])
  }

  ghost predicate WithinBudget(live: Live) {
    Total(live.files) <= live.capturedBytes <= MAX_CAPTURE_TOTAL_BYTES
  }

  predicate SmallFiles(live: Live) {
    forall key :: key in live.files ==>
      && Size(live.files[key].beforeContent) <= MAX_CAPTURE_FILE_CONTENT_BYTES
      && Size(live.files[key].afterContent) <= MAX_CAPTURE_FILE_CONTENT_BYTES
  }

  lemma StepKeepsBudget(live: Live, c: Commit)
    requires WithinBudget(live) && SmallFiles(live)
    ensures WithinBudget(Step(live, c)) && SmallFiles(Step(live, c))
  {
    TotalWith(live.files, c.key, Step(live, c).files[c.key]);
  }

  /**
   * In every order of commits, also ones planned against a state long gone, the
   * before-images and the after-images of files with no before-hash fit in the
   * bytes charged, those in 8 MiB, and no kept image exceeds 256 KiB.
   */
  lemma {:induction false} BudgetHolds(commits: seq<Commit>)
    ensures WithinBudget(Run(EMPTY_LIVE, commits)) && SmallFiles(Run(EMPTY_LIVE, commits))
  {
    BudgetKept(EMPTY_LIVE, commits);
  }

  lemma {:induction false} BudgetKept(live: Live, commits: seq<Commit>)
    requires WithinBudget(live) && SmallFiles(live)
    ensures WithinBudget(Run(live, commits)) && SmallFiles(Run(live, commits))
    decreases |commits|
  {
    if commits != [] {
      StepKeepsBudget(live, commits[0]);
      BudgetKept(Step(live, commits[0]), commits[1..]);
    }
  }

  /** After-images of files with a before-hash are outside the quota: nothing is charged for them. */
  lemma RewritesAreNotCharged(live: Live, key: Path, plan: Redaction, content: Option<Bytes>)
    requires key in live.files && live.files[key].beforeHash.Some?
    ensures CommitAfter(live, key, plan, Read(content)).capturedBytes == live.capturedBytes
  {
  }

  // ---- Which before-image is kept ----

  /** What the last before-capture to commit saw at a path, if there was any. */
  function LastBefore(commits: seq<Commit>, key: Path): Option<Option<Bytes>>
    decreases |commits|
  {
    if commits == [] then None
    else
      var later := LastBefore(commits[1..], key);
      if later.Some? then later
      else if commits[0].Before? && commits[0].key == key then Some(commits[0].content)
      else None
  }

  function Hash(content: Option<Bytes>): Option<Digest> {
    if content.Some? then Some(Digest(content.value)) else None
  }

  lemma {:induction false} LastBeforeStands(live: Live, commits: seq<Commit>, key: Path)
    ensures
      var files := Run(live, commits).files;
      var last := LastBefore(commits, key);
      && (last.Some? ==> key in files && files[key].beforeHash == Hash(last.value)
                         && files[key].existedBefore == last.value.Some?)
      && (last.None? && key in live.files ==>
            key in files && files[key].beforeHash == live.files[key].beforeHash
            && files[key].existedBefore == live.files[key].existedBefore)
    decreases |commits|
  {
    if commits != [] {
      LastBeforeStands(Step(live, commits[0]), commits[1..], key);
    }
  }

  /**
   * A before-capture planned early may commit late, and then replaces the
   * image an earlier commit made: the file keeps its first before-image exactly
   * when the last before-capture to commit saw the same content.
   */
  lemma FirstImageIsKeptIff(key: Path, plan: Redaction, first: Option<Bytes>, commits: seq<Commit>)
    ensures
      var files := Run(EMPTY_LIVE, [Before(key, plan, first)] + commits).files;
      var last := LastBefore(commits, key);
      && key in files
      && (files[key].beforeHash == Hash(first) <==> last.None? || last.value == first)
  {
    var all := [Before(key, plan, first)] + commits;
    assert all[1..] == commits;
    LastBeforeStands(EMPTY_LIVE, all, key);
  }

  // ---- When redaction comes off ----

  /** A commit redacts the file: by its plan, or because what it read is over the quota or too large. */
  predicate Redacts(live: Live, c: Commit) {
    || c.plan.redacted
    || (c.content.Some? && (live.capturedBytes + |c.content.value| > MAX_CAPTURE_TOTAL_BYTES
                            || |c.content.value| > MAX_CAPTURE_FILE_CONTENT_BYTES))
  }

  lemma StepKeepsRedactionIff(live: Live, c: Commit, key: Path)
    requires key in live.files && live.files[key].redacted
    ensures key in Step(live, c).files
    ensures Step(live, c).files[key].redacted <==> (c.key == key ==> Redacts(live, c))
  {
  }

  predicate StaysRedacted(live: Live, commits: seq<Commit>, key: Path)
    decreases |commits|
  {
    && key in live.files && live.files[key].redacted
    && (commits != [] ==> StaysRedacted(Step(live, commits[0]), commits[1..], key))
  }

  predicate EachRedacts(live: Live, commits: seq<Commit>, key: Path)
    decreases |commits|
  {
    commits != [] ==>
      && (commits[0].key == key ==> Redacts(live, commits[0]))
      && EachRedacts(Step(live, commits[0]), commits[1..], key)
  }

  /**
   * In any order of commits a redacted file stays redacted exactly when every
   * commit on its path redacts it again: one planned before the redaction was
   * known, with little text to read, takes it off.
   */
  lemma {:induction false} RedactionStaysIff(live: Live, commits: seq<Commit>, key: Path)
    requires key in live.files && live.files[key].redacted
    ensures StaysRedacted(live, commits, key) <==> EachRedacts(live, commits, key)
    decreases |commits|
  {
    if commits != [] {
      StepKeepsRedactionIff(live, commits[0], key);
      if Step(live, commits[0]).files[key].redacted {
        RedactionStaysIff(Step(live, commits[0]), commits[1..], key);
      }
    }
  }

  /**
   * Two calls on one path. The second call's before-capture commits, its
   * after-capture is planned, the first call's late before-capture finds the
   * file too large and redacts it: the after-capture then uncovers it.
   */
  lemma AStalePlanUncovers(key: Path, was: Bytes, large: Bytes)
    requires |was| <= MAX_CAPTURE_FILE_CONTENT_BYTES < |large|
    ensures
      var plan := Redaction(false, None);
      var captured := Step(EMPTY_LIVE, Before(key, plan, Some(was)));
      var redacted := Step(captured, Before(key, plan, Some(large)));
      var uncovered := Step(redacted, After(key, plan, Some([])));
      && !captured.files[key].redacted && redacted.files[key].redacted
      && !uncovered.files[key].redacted && uncovered.files[key].afterContent == Some([])
  {
    var captured := Step(EMPTY_LIVE, Before(key, Redaction(false, None), Some(was)));
    assert captured.capturedBytes <= |was|;
  }
}
