/**
 * The Export2Bin conversion runner (mlConvertThread): for each dropped file,
 * map its suffix to a binary extension, skip it or fail it on the per-file
 * checks, pipe it through the converter, and write the converter's output
 * to the target file; three counters and a success flag record the run.
 */
module ConvertRunner {
  import opened Wrappers
  import opened Strings
  import opened Process
  import opened Paths

  /**
   * The name under which Windows finds a file: paths that differ only in the case of
   * an ASCII letter, or in '/' against '\', name the same file.
   */
  function FileKey(path: string): string {
    ToLower(ForwardSlashes(path))
  }

  /**
   * The files as the runner sees them, each under its FileKey: the contents of existing
   * files, and which ones cannot be opened.
   */
  datatype FileSystem = FileSystem(files: map<string, seq<byte>>, unreadable: set<string>, unwritable: set<string>)

  /** QFile::exists. */
  predicate Exists(fs: FileSystem, path: string) {
    FileKey(path) in fs.files
  }

  /** QFile::open(ReadOnly) succeeds. */
  predicate CanRead(fs: FileSystem, path: string) {
    Exists(fs, path) && FileKey(path) !in fs.unreadable
  }

  /** QFile::open(WriteOnly) succeeds (creating or truncating the file). */
  predicate CanWrite(fs: FileSystem, path: string) {
    FileKey(path) !in fs.unwritable
  }

  /** The files after `data` is written to `path`, replacing what was there. */
  function Written(fs: FileSystem, path: string, data: seq<byte>): FileSystem {
    fs.(files := fs.files[FileKey(path) := data])
  }

  /**
   * How a converter process ends: a normal exit with the bytes it printed, or an
   * abnormal one. The converter runs with merged channels, so `output` holds what it
   * wrote to either stream, and reading its standard error gives nothing.
   */
  datatype ConvOutcome = Exited(code: int, output: seq<byte>) | Crashed

  /** The outcomes observed when the converter for file `killedAt` is killed because of a cancel request. */
  function ObservedConversions(outcomes: seq<ConvOutcome>, killedAt: Option<nat>): (r: seq<ConvOutcome>)
    ensures |r| == |outcomes|
    ensures forall i :: 0 <= i < |r| ==> r[i] == if killedAt == Some(i) then Crashed else outcomes[i]
  {
    seq(|outcomes|, i requires 0 <= i < |outcomes| => if killedAt == Some(i) then Crashed else outcomes[i])
  }

  /** The binary extension for a file suffix, compared upper-cased. */
  function TargetExtension(suffix: string): Option<string> {
    var ext := ToUpper(suffix);
    if ext == "XANIM_EXPORT" then Some(".XANIM_BIN")
    else if ext == "XMODEL_EXPORT" then Some(".XMODEL_BIN")
    else None
  }

  /** The target of a conversion: the cleaned output directory, a separator, the base name and the new extension. */
  function TargetPath(outputDir: string, file: string, ext: string): string {
    CleanPath(outputDir) + [Separator] + BaseName(file) + ext
  }

  datatype Tally = Tally(succeeded: nat, skipped: nat, failed: nat)

  /** What the loop reports, before it is turned into OutputReady text. */
  datatype Note =
    | SkipInvalid(path: string)
    | SkipExisting(path: string)
    | CannotRead(path: string)
    | Converting(base: string)
    | ExitedAbnormally
    | Output(bytes: seq<byte>)
    | CannotWrite(path: string)
    | Finished(count: nat, tally: Tally)

  /** The OutputReady signal for a note, with the runner's own wording. */
  function Render(n: Note): OutputEvent {
    match n
    case SkipInvalid(path) => Text("Export2Bin: Skipping file '" + path + "' (file has invalid extension)\n")
    case SkipExisting(path) => Text("Export2Bin: Skipping file '" + path + "' (file already exists)\n")
    case CannotRead(path) => Text("Export2Bin: Could not open '" + path + "' for reading\n")
    case Converting(base) => Text("Export2Bin: Converting '" + base + "'")
    case ExitedAbnormally => Text("ERROR: Process exited abnormally")
    case Output(bytes) => Data(bytes)
    case CannotWrite(path) => Text("Export2Bin: Could not open '" + path + "' for writing\n")
    case Finished(count, t) =>
      Text("Export2Bin: Finished!\n\nFiles Processed: " + IntToString(count)
           + "\nSuccesses: " + IntToString(t.succeeded)
           + "\nSkipped: " + IntToString(t.skipped)
           + "\nFailures: " + IntToString(t.failed) + "\n")
  }

  function Rendered(notes: seq<Note>): (r: seq<OutputEvent>)
    ensures |r| == |notes|
    ensures forall i :: 0 <= i < |r| ==> r[i] == Render(notes[i])
  {
    seq(|notes|, i requires 0 <= i < |notes| => Render(notes[i]))
  }

  /** emit OutputReady(...): the signal for one more note. */
  method Emit(events: seq<OutputEvent>, ghost log: seq<Note>, n: Note) returns (events': seq<OutputEvent>, ghost log': seq<Note>)
    requires events == Rendered(log)
    ensures log' == log + [n] && events' == Rendered(log')
  {
    events' := events + [Render(n)];
    log' := log + [n];
  }

  /** What the runner works from: the constructor's arguments. */
  datatype Job = Job(files: seq<string>, outputDir: string, overwrite: bool, ignoreErrors: bool)

  /**
   * What the loop derives from a file name alone, before it looks at the disk:
   * either the suffix is not one of the two export formats, or the base name and
   * the target path of the conversion.
   */
  datatype FilePlan = InvalidExtension | ConvertTo(base: string, target: string)

  function PlanFor(outputDir: string, file: string): FilePlan {
    match TargetExtension(Suffix(file))
    case None => InvalidExtension
    case Some(ext) => ConvertTo(BaseName(file), TargetPath(outputDir, file, ext))
  }

  /** The plans of all files of a job, in order. */
  function Plans(job: Job): (r: seq<FilePlan>)
    ensures |r| == |job.files|
    ensures forall i :: 0 <= i < |r| ==> r[i] == PlanFor(job.outputDir, job.files[i])
  {
    seq(|job.files|, i requires 0 <= i < |job.files| => PlanFor(job.outputDir, job.files[i]))
  }

  /**
   * The state of the file loop. Besides the events, the files and the counters it
   * records, for the proofs, how many files the loop has taken up (`processed`),
   * how many converted files could not be saved (`unsaved`), the indices of the
   * files a converter was started for (`launched`), and whether the loop broke off.
   */
  datatype ConvState = ConvState(events: seq<Note>, fs: FileSystem, tally: Tally,
                                 unsaved: nat, processed: nat, launched: seq<nat>, aborted: bool)

  /** Which way the per-file checks send a file, before any converter runs. */
  datatype FileCheck = BadExtension | TargetExists | Unreadable | Launch(base: string, target: string)

  function Check(job: Job, plan: FilePlan, fs: FileSystem, file: string): FileCheck {
    match plan
    case InvalidExtension => BadExtension
    case ConvertTo(base, target) =>
      if !job.overwrite && Exists(fs, target) then TargetExists
      else if !CanRead(fs, file) then Unreadable
      else Launch(base, target)
  }

  /** One iteration of the file loop, for file number i with plan `plan`. */
  function ConvertStep(job: Job, plan: FilePlan, s: ConvState, i: nat, o: ConvOutcome): ConvState
    requires i < |job.files|
  {
    if s.aborted then s
    else
      var file := job.files[i];
      var s := s.(processed := s.processed + 1);
      match Check(job, plan, s.fs, file)
      case BadExtension =>
        s.(events := s.events + [SkipInvalid(file)], tally := s.tally.(skipped := s.tally.skipped + 1))
      case TargetExists =>
        s.(events := s.events + [SkipExisting(file)], tally := s.tally.(skipped := s.tally.skipped + 1))
      case Unreadable =>
        s.(events := s.events + [CannotRead(file)], tally := s.tally.(failed := s.tally.failed + 1))
      case Launch(base, target) =>
        var s := s.(events := s.events + [Converting(base)], launched := s.launched + [i]);
        match o
        case Crashed =>
          s.(events := s.events + [ExitedAbnormally], aborted := true)
        case Exited(code, out) =>
          if code != 0 then
            s.(events := s.events + [Output(out), Output([])], tally := s.tally.(failed := s.tally.failed + 1),
               aborted := !job.ignoreErrors)
          else if !CanWrite(s.fs, target) then
            s.(events := s.events + [CannotWrite(target)], unsaved := s.unsaved + 1)
          else
            s.(fs := Written(s.fs, target, out), tally := s.tally.(succeeded := s.tally.succeeded + 1))
  }

  /** An outcome after which the loop goes on: a normal exit, with code 0 unless errors are ignored. */
  predicate Usable(job: Job, o: ConvOutcome) {
    o.Exited? && (o.code == 0 || job.ignoreErrors)
  }

  /** Files counted so far: the three counters plus the conversions that could not be saved. */
  function Counted(s: ConvState): nat {
    s.tally.succeeded + s.tally.skipped + s.tally.failed + s.unsaved
  }

  /** What one iteration does to the bookkeeping, whatever branch it takes: a crash counts nowhere. */
  lemma StepAccounting(job: Job, plan: FilePlan, s: ConvState, i: nat, o: ConvOutcome, t: ConvState)
    requires i < |job.files| && t == ConvertStep(job, plan, s, i, o)
    ensures var launch := Check(job, plan, s.fs, job.files[i]).Launch?;
      (s.aborted ==> t == s)
      && (!s.aborted ==>
            t.processed == s.processed + 1
            && Counted(t) == Counted(s) + (if launch && o.Crashed? then 0 else 1)
            && t.launched == (if launch then s.launched + [i] else s.launched)
            && (t.aborted <==> launch && !Usable(job, o))
            && (t.aborted ==> |t.events| > 0 && (t.events[|t.events| - 1] == ExitedAbnormally
                                                 || t.events[|t.events| - 1].Output?)))
  {
    if !s.aborted {
      match Check(job, plan, s.fs, job.files[i])
      case BadExtension =>
      case TargetExists =>
      case Unreadable =>
      case Launch(base, target) =>
        match o
        case Crashed =>
          assert t.events[|t.events| - 1] == ExitedAbnormally;
        case Exited(code, out) =>
          if code != 0 {
            assert t.events[|t.events| - 1] == Output([]);
          }
    }
  }

  /** The state after the first k iterations of the file loop, file j going by plans[j]. */
  function ConvertUpTo(job: Job, plans: seq<FilePlan>, outs: seq<ConvOutcome>, disk: FileSystem, k: nat): ConvState
    requires k <= |job.files| && |plans| == |job.files| && |outs| == |job.files|
    decreases k
  {
    if k == 0 then ConvState([], disk, Tally(0, 0, 0), 0, 0, [], false)
    else ConvertStep(job, plans[k - 1], ConvertUpTo(job, plans, outs, disk, k - 1), k - 1, outs[k - 1])
  }

  /** The run on a job: every file, each going by its own plan. */
  function ConvertAll(job: Job, outs: seq<ConvOutcome>, disk: FileSystem): ConvState
    requires |outs| == |job.files|
  {
    ConvertUpTo(job, Plans(job), outs, disk, |job.files|)
  }

  /** The events of a whole run: the loop's, then the summary if the run succeeded. */
  function RunNotes(job: Job, s: ConvState): seq<Note> {
    if !s.aborted then s.events + [Finished(|job.files|, s.tally)] else s.events
  }

  // ---------------------------------------------------------------------
  // Extension and target path

  /** The mapping replaces a trailing "EXPORT" of the upper-cased suffix by "BIN" and prefixes a dot. */
  lemma TargetExtensionShape(suffix: string)
    ensures var up := ToUpper(suffix);
      TargetExtension(suffix).Some? <==> up == "XANIM_EXPORT" || up == "XMODEL_EXPORT"
    ensures var up := ToUpper(suffix);
      TargetExtension(suffix).Some? ==> TargetExtension(suffix).value == "." + up[..|up| - 6] + "BIN"
  {
  }

  /** The case of the suffix does not matter. */
  lemma TargetExtensionIgnoresCase(suffix: string)
    ensures TargetExtension(ToLower(suffix)) == TargetExtension(suffix)
  {
    UpperIgnoresCase(suffix);
  }

  /** dir/x.xanim_export converts to <clean output dir>\x.XANIM_BIN. */
  lemma PlanOfAnimation(outputDir: string, dir: string, base: string)
    requires '/' !in base && '\\' !in base && '.' !in base
    ensures PlanFor(outputDir, dir + "/" + base + ".xanim_export")
         == ConvertTo(base, CleanPath(outputDir) + "\\" + base + ".XANIM_BIN")
  {
    var file := dir + "/" + base + ".xanim_export";
    assert file == dir + "/" + base + "." + "xanim_export";
    NameParts(dir, '/', base, "xanim_export");
    var sfx := Suffix(file);
    assert sfx == "xanim_export";
    UpperOfAnimationSuffix();
    assert TargetExtension(sfx) == Some(".XANIM_BIN");
  }

  lemma UpperOfAnimationSuffix()
    ensures ToUpper("xanim_export") == "XANIM_EXPORT"
  {
    var u := ToUpper("xanim_export");
    assert |u| == 12;
    assert u[0] == 'X' && u[1] == 'A' && u[2] == 'N' && u[3] == 'I' && u[4] == 'M' && u[5] == '_';
    assert u[6] == 'E' && u[7] == 'X' && u[8] == 'P' && u[9] == 'O' && u[10] == 'R' && u[11] == 'T';
  }

  /** A file whose plan is a conversion has a dotless base name and a target in the cleaned output directory. */
  lemma PlanShape(outputDir: string, file: string)
    ensures PlanFor(outputDir, file).InvalidExtension? <==> TargetExtension(Suffix(file)).None?
    ensures match PlanFor(outputDir, file)
      case InvalidExtension => true
      case ConvertTo(base, target) =>
        base == BaseName(file) && '.' !in base
        && exists ext :: ext in {".XANIM_BIN", ".XMODEL_BIN"} && target == CleanPath(outputDir) + "\\" + base + ext
  {
    NamePartsShape(file);
    var e := TargetExtension(Suffix(file));
    if e.Some? {
      assert e.value in {".XANIM_BIN", ".XMODEL_BIN"};
      assert TargetPath(outputDir, file, e.value) == CleanPath(outputDir) + "\\" + BaseName(file) + e.value;
    }
  }

  // ---------------------------------------------------------------------
  // Per-file rules

  /** A file with an unknown suffix adds one to skipped, starts no converter and leaves the files alone. */
  lemma BadExtensionSkipped(job: Job, s: ConvState, i: nat, o: ConvOutcome)
    requires i < |job.files| && !s.aborted
    requires TargetExtension(Suffix(job.files[i])).None?
    ensures var t := ConvertStep(job, PlanFor(job.outputDir, job.files[i]), s, i, o);
      t == s.(events := s.events + [SkipInvalid(job.files[i])], processed := s.processed + 1,
              tally := s.tally.(skipped := s.tally.skipped + 1))
  {
  }

  /** With overwrite off, an existing target adds one to skipped and starts no converter. */
  lemma ExistingTargetSkipped(job: Job, s: ConvState, i: nat, o: ConvOutcome, base: string, target: string)
    requires i < |job.files| && !s.aborted && !job.overwrite
    requires Exists(s.fs, target)
    ensures var t := ConvertStep(job, ConvertTo(base, target), s, i, o);
      t == s.(events := s.events + [SkipExisting(job.files[i])], processed := s.processed + 1,
              tally := s.tally.(skipped := s.tally.skipped + 1))
  {
  }

  /** An unreadable source adds one to failed, starts no converter, and the loop goes on. */
  lemma UnreadableSourceFails(job: Job, s: ConvState, i: nat, o: ConvOutcome, base: string, target: string)
    requires i < |job.files| && !s.aborted
    requires job.overwrite || !Exists(s.fs, target)
    requires !CanRead(s.fs, job.files[i])
    ensures var t := ConvertStep(job, ConvertTo(base, target), s, i, o);
      t == s.(events := s.events + [CannotRead(job.files[i])], processed := s.processed + 1,
              tally := s.tally.(failed := s.tally.failed + 1))
  {
  }

  /**
   * When the converter is started and exits with code 0, its merged output becomes
   * the target's contents, replacing any file there; if the target cannot be opened,
   * nothing is written and no counter moves.
   */
  lemma CleanExitWritesTarget(job: Job, s: ConvState, i: nat, out: seq<byte>, base: string, target: string)
    requires i < |job.files| && !s.aborted
    requires job.overwrite || !Exists(s.fs, target)
    requires CanRead(s.fs, job.files[i])
    ensures var t := ConvertStep(job, ConvertTo(base, target), s, i, Exited(0, out));
      t.launched == s.launched + [i] && !t.aborted
      && (CanWrite(s.fs, target) ==> t.fs == Written(s.fs, target, out) && t.tally == s.tally.(succeeded := s.tally.succeeded + 1))
      && (!CanWrite(s.fs, target) ==> t.fs == s.fs && t.tally == s.tally && t.unsaved == s.unsaved + 1)
  {
  }

  /**
   * A non-zero exit emits both buffers, the second one empty because the channels are
   * merged, and adds one to failed; it breaks off the loop only without ignoreErrors.
   */
  lemma NonZeroExitFails(job: Job, s: ConvState, i: nat, code: int, out: seq<byte>, base: string, target: string)
    requires i < |job.files| && !s.aborted && code != 0
    requires job.overwrite || !Exists(s.fs, target)
    requires CanRead(s.fs, job.files[i])
    ensures var t := ConvertStep(job, ConvertTo(base, target), s, i, Exited(code, out));
      t.events[|t.events| - 2..] == [Output(out), Output([])]
      && t.tally == s.tally.(failed := s.tally.failed + 1) && t.fs == s.fs
      && t.aborted == !job.ignoreErrors
  {
  }

  // ---------------------------------------------------------------------
  // File identity

  /** Paths that differ only in the case of ASCII letters name the same file. */
  lemma CaseVariantsSameFile(a: string, b: string)
    requires ToLower(a) == ToLower(b)
    ensures FileKey(a) == FileKey(b)
  {
    ForwardSlashesFacts(a);
    ForwardSlashesFacts(b);
    forall i | 0 <= i < |a|
      ensures FileKey(a)[i] == FileKey(b)[i]
    {
      ForwardSlashesAt(a, i);
      ForwardSlashesAt(b, i);
      assert LowerChar(a[i]) == LowerChar(b[i]);
    }
  }

  /** Paths that differ only in the separators they use name the same file. */
  lemma SeparatorVariantsSameFile(a: string, b: string)
    requires ForwardSlashes(a) == ForwardSlashes(b)
    ensures FileKey(a) == FileKey(b)
  {
  }

  /** After a write, the file can be found under any case variant of its path. */
  lemma WrittenFoundByCaseVariant(fs: FileSystem, p: string, q: string, data: seq<byte>)
    requires ToLower(p) == ToLower(q)
    ensures Exists(Written(fs, p, data), q)
    ensures Written(fs, p, data).files[FileKey(q)] == data
  {
    CaseVariantsSameFile(p, q);
  }

  /** Changing the case of a middle piece changes no letter's lower case. */
  lemma LowerInside(a: string, b: string, b': string, c: string)
    requires ToLower(b) == ToLower(b')
    ensures ToLower(a + b + c) == ToLower(a + b' + c)
  {
    var s, s' := a + b + c, a + b' + c;
    forall i | 0 <= i < |s|
      ensures ToLower(s)[i] == ToLower(s')[i]
    {
      if |a| <= i < |a| + |b| {
        assert s[i] == b[i - |a|] && s'[i] == b'[i - |a|];
        assert LowerChar(b[i - |a|]) == ToLower(b)[i - |a|];
      } else {
        assert s[i] == s'[i];
      }
    }
  }

  /** The target of an animation with base name `base`. */
  function AnimationTarget(outputDir: string, base: string): string {
    CleanPath(outputDir) + "\\" + base + ".XANIM_BIN"
  }

  /** A file name plain enough to be a whole base name. */
  predicate PlainBase(base: string) {
    '/' !in base && '\\' !in base && '.' !in base
  }

  lemma TwoAnimationPlans(outputDir: string, f1: string, dir1: string, base1: string,
                          f2: string, dir2: string, base2: string)
    requires PlainBase(base1) && PlainBase(base2)
    requires f1 == dir1 + "/" + base1 + ".xanim_export" && f2 == dir2 + "/" + base2 + ".xanim_export"
    ensures Plans(Job([f1, f2], outputDir, false, true))
         == [ConvertTo(base1, AnimationTarget(outputDir, base1)), ConvertTo(base2, AnimationTarget(outputDir, base2))]
  {
    PlanOfAnimation(outputDir, dir1, base1);
    PlanOfAnimation(outputDir, dir2, base2);
  }

  /**
   * Two dropped animations whose base names differ only in case (such as
   * C:/a/Foo.xanim_export and C:/b/foo.xanim_export) share a target: with overwrite
   * off, once the first is converted the second is skipped as already existing.
   */
  lemma CaseVariantsShareTarget(outputDir: string, dir1: string, base1: string, dir2: string, base2: string,
                                disk: FileSystem, out1: seq<byte>, out2: seq<byte>)
    requires PlainBase(base1) && PlainBase(base2) && ToLower(base1) == ToLower(base2)
    requires CanRead(disk, dir1 + "/" + base1 + ".xanim_export")
    requires !Exists(disk, AnimationTarget(outputDir, base1)) && CanWrite(disk, AnimationTarget(outputDir, base1))
    ensures var job := Job([dir1 + "/" + base1 + ".xanim_export", dir2 + "/" + base2 + ".xanim_export"], outputDir, false, true);
      var r := ConvertAll(job, [Exited(0, out1), Exited(0, out2)], disk);
      r.tally == Tally(1, 1, 0) && |r.events| > 0 && r.events[|r.events| - 1] == SkipExisting(job.files[1])
      && r.fs == Written(disk, AnimationTarget(outputDir, base1), out1)
  {
    var f1, f2 := dir1 + "/" + base1 + ".xanim_export", dir2 + "/" + base2 + ".xanim_export";
    var job := Job([f1, f2], outputDir, false, true);
    var outs := [Exited(0, out1), Exited(0, out2)];
    var t1, t2 := AnimationTarget(outputDir, base1), AnimationTarget(outputDir, base2);
    TwoAnimationPlans(outputDir, f1, dir1, base1, f2, dir2, base2);
    var plans := Plans(job);
    var s0 := ConvertUpTo(job, plans, outs, disk, 0);
    CleanExitWritesTarget(job, s0, 0, out1, base1, t1);
    var s1 := ConvertStep(job, ConvertTo(base1, t1), s0, 0, outs[0]);
    assert ConvertUpTo(job, plans, outs, disk, 1) == s1;
    LowerInside(CleanPath(outputDir) + "\\", base1, base2, ".XANIM_BIN");
    WrittenFoundByCaseVariant(disk, t1, t2, out1);
    ExistingTargetSkipped(job, s1, 1, outs[1], base2, t2);
  }

  // ---------------------------------------------------------------------
  // Whole-run properties, for any plans

  /** Once broken off, the loop changes nothing more. */
  lemma {:induction false} AbortedStays(job: Job, plans: seq<FilePlan>, outs: seq<ConvOutcome>, disk: FileSystem, j: nat, m: nat)
    requires j <= m <= |job.files| && |plans| == |job.files| && |outs| == |job.files|
    requires ConvertUpTo(job, plans, outs, disk, j).aborted
    ensures ConvertUpTo(job, plans, outs, disk, m) == ConvertUpTo(job, plans, outs, disk, j)
    decreases m - j
  {
    if j < m {
      AbortedStays(job, plans, outs, disk, j, m - 1);
      StepAccounting(job, plans[m - 1], ConvertUpTo(job, plans, outs, disk, m - 1), m - 1, outs[m - 1],
                     ConvertUpTo(job, plans, outs, disk, m));
    }
  }

  /** Converters are started in file order, at most once per file, only for files already taken up. */
  lemma {:induction false} LaunchedInOrder(job: Job, plans: seq<FilePlan>, outs: seq<ConvOutcome>, disk: FileSystem, k: nat)
    requires k <= |job.files| && |plans| == |job.files| && |outs| == |job.files|
    ensures forall j :: 0 <= j < |ConvertUpTo(job, plans, outs, disk, k).launched| ==>
      ConvertUpTo(job, plans, outs, disk, k).launched[j] < k
    ensures forall j, j' :: 0 <= j < j' < |ConvertUpTo(job, plans, outs, disk, k).launched| ==>
      ConvertUpTo(job, plans, outs, disk, k).launched[j] < ConvertUpTo(job, plans, outs, disk, k).launched[j']
    decreases k
  {
    if k > 0 {
      var prev := ConvertUpTo(job, plans, outs, disk, k - 1);
      var t := ConvertUpTo(job, plans, outs, disk, k);
      LaunchedInOrder(job, plans, outs, disk, k - 1);
      var p := prev.launched;
      StepAccounting(job, plans[k - 1], prev, k - 1, outs[k - 1], ConvertUpTo(job, plans, outs, disk, k));
      if t.launched != p {
        assert t.launched == p + [k - 1];
        forall j | 0 <= j < |t.launched| ensures t.launched[j] < k {
          if j < |p| { assert t.launched[j] == p[j]; }
        }
        forall j, j' | 0 <= j < j' < |t.launched| ensures t.launched[j] < t.launched[j'] {
          assert t.launched[j] == p[j];
          if j' < |p| { assert t.launched[j'] == p[j']; }
        }
      }
    }
  }

  /**
   * What the started converters tell about a state: each was started for a file with
   * an outcome, every one but the last ended in a usable way, and the loop broke off
   * exactly when the last one crashed or failed with errors not ignored.
   */
  predicate LaunchFacts(job: Job, outs: seq<ConvOutcome>, s: ConvState) {
    var n := |s.launched|;
    (forall j :: 0 <= j < n ==> s.launched[j] < |outs|)
    && (forall j :: 0 <= j < n && (j < n - 1 || !s.aborted) ==> Usable(job, outs[s.launched[j]]))
    && (s.aborted <==> n > 0 && !Usable(job, outs[s.launched[n - 1]]))
  }

  /** One iteration keeps the launch facts. */
  lemma LaunchFactsStep(job: Job, plan: FilePlan, outs: seq<ConvOutcome>, s: ConvState, i: nat, t: ConvState)
    requires i < |job.files| && i < |outs| && LaunchFacts(job, outs, s)
    requires t == ConvertStep(job, plan, s, i, outs[i])
    ensures LaunchFacts(job, outs, t)
  {
    StepAccounting(job, plan, s, i, outs[i], t);
    var p := s.launched;
    if !s.aborted && t.launched != p {
      assert t.launched == p + [i];
      assert forall j :: 0 <= j < |p| ==> t.launched[j] == p[j];
    }
  }

  /** The launch facts hold after every number of iterations. */
  lemma {:induction false} LaunchedOutcomes(job: Job, plans: seq<FilePlan>, outs: seq<ConvOutcome>, disk: FileSystem, k: nat)
    requires k <= |job.files| && |plans| == |job.files| && |outs| == |job.files|
    ensures LaunchFacts(job, outs, ConvertUpTo(job, plans, outs, disk, k))
    decreases k
  {
    if k > 0 {
      LaunchedOutcomes(job, plans, outs, disk, k - 1);
      LaunchFactsStep(job, plans[k - 1], outs, ConvertUpTo(job, plans, outs, disk, k - 1), k - 1,
                      ConvertUpTo(job, plans, outs, disk, k));
    }
  }

  /** With errors ignored, a state is not broken off exactly when every started converter exited normally. */
  lemma IgnoringErrorsOnlyCrashesAbort(job: Job, outs: seq<ConvOutcome>, s: ConvState)
    requires job.ignoreErrors && LaunchFacts(job, outs, s)
    ensures !s.aborted <==> forall j :: 0 <= j < |s.launched| ==> s.launched[j] < |outs| && outs[s.launched[j]].Exited?
  {
  }

  /**
   * The counters after k iterations: every file taken up is counted once as succeeded,
   * skipped, failed or unsaved, except the one whose converter crashed, which ends the
   * run uncounted; without a break all k files are taken up.
   */
  predicate TallyFacts(s: ConvState, k: nat) {
    s.processed <= k
    && (Counted(s) == s.processed || (s.aborted && Counted(s) + 1 == s.processed))
    && (!s.aborted ==> Counted(s) == s.processed == k)
  }

  lemma TallyFactsStep(job: Job, plan: FilePlan, s: ConvState, i: nat, o: ConvOutcome, t: ConvState)
    requires i < |job.files| && TallyFacts(s, i) && t == ConvertStep(job, plan, s, i, o)
    ensures TallyFacts(t, i + 1)
  {
    StepAccounting(job, plan, s, i, o, t);
  }

  lemma {:induction false} TallyConservation(job: Job, plans: seq<FilePlan>, outs: seq<ConvOutcome>, disk: FileSystem, k: nat)
    requires k <= |job.files| && |plans| == |job.files| && |outs| == |job.files|
    ensures TallyFacts(ConvertUpTo(job, plans, outs, disk, k), k)
    decreases k
  {
    if k > 0 {
      TallyConservation(job, plans, outs, disk, k - 1);
      TallyFactsStep(job, plans[k - 1], ConvertUpTo(job, plans, outs, disk, k - 1), k - 1, outs[k - 1],
                     ConvertUpTo(job, plans, outs, disk, k));
    }
  }

  /** In a run that was not broken off and saved every conversion, succeeded + skipped + failed is the number of files. */
  lemma CountersCoverAllFiles(job: Job, outs: seq<ConvOutcome>, disk: FileSystem)
    requires |outs| == |job.files|
    requires var s := ConvertAll(job, outs, disk); !s.aborted && s.unsaved == 0
    ensures var s := ConvertAll(job, outs, disk);
      s.tally.succeeded + s.tally.skipped + s.tally.failed == |job.files|
  {
    TallyConservation(job, Plans(job), outs, disk, |job.files|);
  }

  /** A broken-off run ends on an error event. */
  lemma {:induction false} AbortEndsOnError(job: Job, plans: seq<FilePlan>, outs: seq<ConvOutcome>, disk: FileSystem, k: nat)
    requires k <= |job.files| && |plans| == |job.files| && |outs| == |job.files|
    requires ConvertUpTo(job, plans, outs, disk, k).aborted
    ensures var ev := ConvertUpTo(job, plans, outs, disk, k).events;
      |ev| > 0 && (ev[|ev| - 1] == ExitedAbnormally || ev[|ev| - 1].Output?)
    decreases k
  {
    var s := ConvertUpTo(job, plans, outs, disk, k - 1);
    StepAccounting(job, plans[k - 1], s, k - 1, outs[k - 1], ConvertUpTo(job, plans, outs, disk, k));
    if s.aborted {
      AbortEndsOnError(job, plans, outs, disk, k - 1);
    }
  }

  /** The summary is the last event exactly when the run was not broken off. */
  lemma SummaryIffNotAborted(job: Job, outs: seq<ConvOutcome>, disk: FileSystem)
    requires |outs| == |job.files|
    ensures var s := ConvertAll(job, outs, disk); var ev := RunNotes(job, s);
      (|ev| > 0 && ev[|ev| - 1] == Finished(|job.files|, s.tally)) <==> !s.aborted
  {
    var s := ConvertAll(job, outs, disk);
    var ev := RunNotes(job, s);
    if s.aborted {
      assert s == ConvertUpTo(job, Plans(job), outs, disk, |job.files|);
      AbortEndsOnError(job, Plans(job), outs, disk, |job.files|);
      assert ev == s.events;
      assert !ev[|ev| - 1].Finished?;
    } else {
      assert ev == s.events + [Finished(|job.files|, s.tally)];
    }
  }

  // ---------------------------------------------------------------------

  /** mlConvertThread: the files, the output directory, the two policies and the two flags. */
  class ConvertThread {
    const files: seq<string>
    const outputDir: string
    const overwrite: bool
    const ignoreErrors: bool
    var success: bool
    var cancel: bool

    constructor (files: seq<string>, outputDir: string, ignoreErrors: bool, overwrite: bool)
      ensures this.files == files && this.outputDir == outputDir
      ensures this.ignoreErrors == ignoreErrors && this.overwrite == overwrite
      ensures !success && !cancel
    {
      this.files := files;
      this.outputDir := outputDir;
      this.overwrite := overwrite;
      this.ignoreErrors := ignoreErrors;
      success := false;
      cancel := false;
    }

    function AsJob(): Job {
      Job(files, outputDir, overwrite, ignoreErrors)
    }

    /** The success flag; a function, so reading it changes nothing. */
    function Succeeded(): (r: bool)
      reads this
      ensures r == success
    {
      success
    }

    /** Request cancellation: only the cancel flag is written. */
    method Cancel()
      modifies this`cancel
      ensures cancel
    {
      cancel := true;
    }

    /**
     * One pass of the loop body for file number i, planned as `plan`, whose converter
     * would end as `outcome`: the files, the counters and the signals after it, and whether the
     * loop breaks off. `st` is the loop's state before it, as the specification sees it.
     */
    method ConvertFile(i: nat, plan: FilePlan, outcome: ConvOutcome, fs: FileSystem, tally: Tally, events: seq<OutputEvent>, ghost st: ConvState)
      returns (fs': FileSystem, tally': Tally, events': seq<OutputEvent>, stop: bool, ghost st': ConvState)
      requires i < |files| && !st.aborted
      requires fs == st.fs && tally == st.tally && events == Rendered(st.events)
      ensures st' == ConvertStep(AsJob(), plan, st, i, outcome)
      ensures fs' == st'.fs
      ensures tally' == st'.tally
      ensures events' == Rendered(st'.events)
      ensures stop == st'.aborted
    {
      st' := ConvertStep(AsJob(), plan, st, i, outcome);
      var file := files[i];
      fs', tally', stop := fs, tally, false;
      ghost var log := st.events;
      match plan
      case InvalidExtension =>
        events', log := Emit(events, log, SkipInvalid(file));
        tally' := tally.(skipped := tally.skipped + 1);
      case ConvertTo(base, target) =>
        if !overwrite && Exists(fs, target) {
          events', log := Emit(events, log, SkipExisting(file));
          tally' := tally.(skipped := tally.skipped + 1);
          return;
        }
        if !CanRead(fs, file) {
          events', log := Emit(events, log, CannotRead(file));
          tally' := tally.(failed := tally.failed + 1);
          return;
        }
        events', log := Emit(events, log, Converting(base));
        if outcome.Crashed? {
          events', log := Emit(events', log, ExitedAbnormally);
          stop := true;
          return;
        }
        if outcome.code != 0 {
          events', log := Emit(events', log, Output(outcome.output));
          events', log := Emit(events', log, Output([]));
          tally' := tally.(failed := tally.failed + 1);
          stop := !ignoreErrors;
          return;
        }
        if !CanWrite(fs, target) {
          events', log := Emit(events', log, CannotWrite(target));
          return;
        }
        fs' := Written(fs, target, outcome.output);
        tally' := tally.(succeeded := tally.succeeded + 1);
    }

    /**
     * The file loop of run(), file i's converter ending as outs[i]: the files, the
     * counters and the signals when the loop ends, and whether it ran to the end.
     */
    method ConvertFiles(outs: seq<ConvOutcome>, disk: FileSystem)
      returns (fs: FileSystem, tally: Tally, events: seq<OutputEvent>, ok: bool, ghost st: ConvState)
      requires |outs| == |files|
      ensures st == ConvertAll(AsJob(), outs, disk)
      ensures fs == st.fs && tally == st.tally && events == Rendered(st.events) && ok == !st.aborted
    {
      ghost var job := AsJob();
      ghost var plans := Plans(job);
      ok := true;
      tally := Tally(0, 0, 0);
      events := [];
      fs := disk;
      st := ConvertUpTo(job, plans, outs, disk, 0);
      var i := 0;
      while i < |files|
        invariant 0 <= i <= |files|
        invariant st == ConvertUpTo(job, plans, outs, disk, i) && !st.aborted
        invariant fs == st.fs && tally == st.tally && events == Rendered(st.events)
      {
        var plan := PlanFor(outputDir, files[i]);
        assert plans[i] == plan;
        var stop;
        fs, tally, events, stop, st := ConvertFile(i, plan, outs[i], fs, tally, events, st);
        if stop {
          ok := false;
          AbortedStays(job, plans, outs, disk, i + 1, |files|);
          return;
        }
        i := i + 1;
      }
    }

    /**
     * run(): `outcomes[i]` is how the converter for file i would end, `killedAt`
     * the file whose converter was killed on a cancel request, `disk` the files
     * before the run. Returns the OutputReady signals and the files after the run.
     */
    method Run(outcomes: seq<ConvOutcome>, killedAt: Option<nat>, disk: FileSystem)
      returns (events: seq<OutputEvent>, after: FileSystem)
      requires |outcomes| == |files|
      modifies this`success
      ensures var s := ConvertAll(AsJob(), ObservedConversions(outcomes, killedAt), disk);
        success == !s.aborted && after == s.fs && events == Rendered(RunNotes(AsJob(), s))
    {
      var outs := ObservedConversions(outcomes, killedAt);
      var tally, ok;
      ghost var st;
      after, tally, events, ok, st := ConvertFiles(outs, disk);
      success := ok;
      if success {
        ghost var log := st.events;
        events, log := Emit(events, log, Finished(|files|, tally));
      }
    }
  }

  /**
   * A fresh runner as the main window starts it (errors ignored), run to the end:
   * it succeeds exactly when no started converter crashed or was killed, and then
   * its last event is the summary.
   */
  method RunConversion(files: seq<string>, outputDir: string, overwrite: bool,
                       outcomes: seq<ConvOutcome>, killedAt: Option<nat>, disk: FileSystem)
    returns (succeeded: bool, events: seq<OutputEvent>, after: FileSystem)
    requires |outcomes| == |files|
    ensures var job := Job(files, outputDir, overwrite, true);
      var outs := ObservedConversions(outcomes, killedAt);
      var s := ConvertAll(job, outs, disk);
      (succeeded <==> forall j :: 0 <= j < |s.launched| ==> s.launched[j] < |outs| && outs[s.launched[j]].Exited?)
      && (succeeded ==> |events| > 0 && events[|events| - 1] == Render(Finished(|files|, s.tally)))
      && after == s.fs
  {
    var thread := new ConvertThread(files, outputDir, true, overwrite);
    events, after := thread.Run(outcomes, killedAt, disk);
    succeeded := thread.Succeeded();
    ghost var job := thread.AsJob();
    ghost var outs := ObservedConversions(outcomes, killedAt);
    LaunchedOutcomes(job, Plans(job), outs, disk, |files|);
    IgnoringErrorsOnlyCrashesAbort(job, outs, ConvertAll(job, outs, disk));
  }
}
