/** The two converting commands of `main`: `convert` (one file, quality
    from `--all`, `--quality` or a prompt) and `batch` (every audio file
    under a directory, each converted independently, with a progress bar). */
module Cli {
  import opened Outcomes
  import opened Profiles
  import opened Paths
  import opened Classifier
  import opened Naming
  import opened Convert
  import opened Process

  /** The progress bar's counters: its length, fixed at creation, and the
      position that `inc` advances. */
  class ProgressBar {
    const length: nat
    var position: nat

    constructor (length: nat)
      ensures this.length == length && position == 0
    {
      this.length := length;
      position := 0;
    }

    method Inc(delta: nat)
      modifies this
      ensures position == old(position) + delta
    {
      position := position + delta;
    }
  }

  /** The walk's yield filtered down to audio files: failed entries
      (`None`) are skipped, then every path that is not an audio file;
      the walk's order is kept. */
  function AudioFiles(walk: seq<Option<string>>): (r: seq<string>)
    ensures |r| <= |walk|
    ensures forall f | f in r :: IsAudioFile(f)
  {
    if walk == [] then []
    else
      var rest := AudioFiles(walk[1..]);
      match walk[0]
      case Some(path) => if IsAudioFile(path) then [path] + rest else rest
      case None => rest
  }

  /** A path is collected exactly when the walk yielded it and it is an
      audio file. */
  lemma {:induction false} AudioFilesExact(walk: seq<Option<string>>, f: string)
    ensures f in AudioFiles(walk) <==> Some(f) in walk && IsAudioFile(f)
  {
    if walk != [] {
      AudioFilesExact(walk[1..], f);
      assert Some(f) in walk <==> walk[0] == Some(f) || Some(f) in walk[1..];
    }
  }

  /** Filtering keeps order: the files of two walks in turn are the files
      of the first followed by those of the second. */
  lemma {:induction false} AudioFilesAppend(a: seq<Option<string>>, b: seq<Option<string>>)
    ensures AudioFiles(a + b) == AudioFiles(a) + AudioFiles(b)
  {
    if a == [] {
      assert a + b == b;
    } else {
      var c := a + b;
      assert c[0] == a[0] && c[1..] == a[1..] + b;
      AudioFilesAppend(a[1..], b);
      assert AudioFiles(c[1..]) == AudioFiles(a[1..]) + AudioFiles(b);
    }
  }

  /** Every collected file has a file name, so taking it for the progress
      message never fails. */
  lemma AudioFilesHaveNames(walk: seq<Option<string>>)
    ensures forall f | f in AudioFiles(walk) :: FileName(f).Some?
  {
    forall f | f in AudioFiles(walk)
      ensures FileName(f).Some?
    {
      AudioFileShape(f);
    }
  }

  /** The state of a batch: the effects so far, the files handled (the
      progress position) and whether a panic ended the process. */
  datatype BatchRun = BatchRun(effects: seq<Effect>, processed: nat, panicked: bool)

  /** One file's turn: its request's effects, then a report line if it
      failed; a panic ends the run before the progress bar moves. */
  function Advance(run: BatchRun, file: string, r: Attempt): BatchRun
  {
    match r.outcome
    case Panic => BatchRun(run.effects + r.effects, run.processed, true)
    case Fail(e) => BatchRun(run.effects + r.effects + [Report(file, e)], run.processed + 1, false)
    case Pass => BatchRun(run.effects + r.effects, run.processed + 1, false)
  }

  /** The batch loop over `files` with `step` as the per-file request. */
  function BatchOver(step: string -> Attempt, files: seq<string>): BatchRun
  {
    if files == [] then BatchRun([], 0, false)
    else
      var before := BatchOver(step, files[..|files| - 1]);
      if before.panicked then before
      else Advance(before, files[|files| - 1], step(files[|files| - 1]))
  }

  /** The per-file request of the batch command: `process_song`, not
      verbose, with the command's quality and karaoke mode. */
  function ProcessStep(host: Host, quality: string, ai: bool): string -> Attempt
  {
    (f: string) => ProcessSpec(host, f, quality, ai)
  }

  /** The batch loop of the batch command. */
  function BatchSpec(host: Host, files: seq<string>, quality: string, ai: bool): BatchRun
  {
    BatchOver(ProcessStep(host, quality, ai), files)
  }

  /** The number of report lines in a trace. */
  function Reports(effects: seq<Effect>): nat
  {
    if effects == [] then 0
    else Reports(effects[..|effects| - 1]) + (if effects[|effects| - 1].Report? then 1 else 0)
  }

  /** The number of files whose request fails with an error. */
  function Failures(step: string -> Attempt, files: seq<string>): nat
  {
    if files == [] then 0
    else Failures(step, files[..|files| - 1]) + (if step(files[|files| - 1]).outcome.Fail? then 1 else 0)
  }

  /** No request of `step` on these files panics. */
  predicate NoPanics(step: string -> Attempt, files: seq<string>)
  {
    forall f | f in files :: step(f).outcome != Panic
  }

  /** No effect in the trace is a report line. */
  predicate Unreported(effects: seq<Effect>)
  {
    forall e | e in effects :: !e.Report?
  }

  lemma {:induction false} ReportsAppend(a: seq<Effect>, b: seq<Effect>)
    ensures Reports(a + b) == Reports(a) + Reports(b)
  {
    if b == [] {
      assert a + b == a;
    } else {
      ReportsAppend(a, b[..|b| - 1]);
      assert (a + b)[..|a + b| - 1] == a + b[..|b| - 1];
    }
  }

  lemma {:induction false} UnreportedHasNoReports(effects: seq<Effect>)
    requires Unreported(effects)
    ensures Reports(effects) == 0
  {
    if effects != [] {
      UnreportedHasNoReports(effects[..|effects| - 1]);
    }
  }

  /** Once a panic has ended the run, later files change nothing. */
  lemma {:induction false} PanicEndsBatch(step: string -> Attempt, a: seq<string>, b: seq<string>)
    requires BatchOver(step, a).panicked
    ensures BatchOver(step, a + b) == BatchOver(step, a)
  {
    if b == [] {
      assert a + b == a;
    } else {
      PanicEndsBatch(step, a, b[..|b| - 1]);
      assert (a + b)[..|a + b| - 1] == a + b[..|b| - 1];
    }
  }

  /** Without a panic in the first part, the batch over two lists in turn
      is the batch over the first followed by the batch over the second:
      one file's failure does not affect the files after it. */
  lemma {:induction false} BatchAppend(step: string -> Attempt, a: seq<string>, b: seq<string>)
    requires !BatchOver(step, a).panicked
    ensures var x, y := BatchOver(step, a), BatchOver(step, b);
            BatchOver(step, a + b) == BatchRun(x.effects + y.effects, x.processed + y.processed, y.panicked)
  {
    if b == [] {
      assert a + b == a;
    } else {
      var init := b[..|b| - 1];
      BatchAppend(step, a, init);
      assert (a + b)[..|a + b| - 1] == a + init;
      assert (a + b)[|a + b| - 1] == b[|b| - 1];
    }
  }

  /** Without panics every file is handled, the progress bar reaches the
      number of files, and there is one report line per failing file when
      the requests themselves report nothing. */
  lemma {:induction false} BatchCompletes(step: string -> Attempt, files: seq<string>)
    requires NoPanics(step, files)
    ensures var run := BatchOver(step, files);
            && !run.panicked && run.processed == |files|
            && ((forall f :: Unreported(step(f).effects)) ==> Reports(run.effects) == Failures(step, files))
  {
    if files != [] {
      var init := files[..|files| - 1];
      var last := files[|files| - 1];
      assert files == init + [last];
      BatchCompletes(step, init);
      assert step(last).outcome != Panic;
      if forall f :: Unreported(step(f).effects) {
        var before := BatchOver(step, init);
        var r := step(last);
        UnreportedHasNoReports(r.effects);
        ReportsAppend(before.effects, r.effects);
        if r.outcome.Fail? {
          ReportsAppend(before.effects + r.effects, [Report(last, r.outcome.error)]);
          assert [Report(last, r.outcome.error)][..0] == [];
        }
      }
    }
  }

  /** The first panicking file ends the batch: the files before it are
      handled, the progress bar stops at their number, and nothing after
      it runs. */
  lemma PanicStopsAtFirst(step: string -> Attempt, before: seq<string>, f: string, after: seq<string>)
    requires NoPanics(step, before) && step(f).outcome == Panic
    ensures var run := BatchOver(step, before + [f] + after);
            && run.panicked && run.processed == |before|
            && run.effects == BatchOver(step, before).effects + step(f).effects
  {
    BatchCompletes(step, before);
    BatchStep(step, before, f);
    PanicEndsBatch(step, before + [f], after);
  }

  /** Each file's request effects appear in the trace right after those of
      the files before it, whatever became of those files, unless one of
      them panicked. */
  lemma EachFileTraced(step: string -> Attempt, before: seq<string>, f: string, after: seq<string>)
    requires NoPanics(step, before)
    ensures BatchOver(step, before).effects + step(f).effects <= BatchOver(step, before + [f] + after).effects
  {
    var x := BatchOver(step, before).effects + step(f).effects;
    var upto := BatchOver(step, before + [f]).effects;
    var all := BatchOver(step, before + [f] + after).effects;
    BatchCompletes(step, before);
    BatchStep(step, before, f);
    assert x <= upto;
    BatchExtends(step, before + [f], after);
    assert upto == all[..|upto|];
    assert all[..|upto|][..|x|] == all[..|x|];
  }

  /** A batch that ended within its first n files ends there. */
  lemma PanicEndsBatchAt(step: string -> Attempt, files: seq<string>, n: nat)
    requires n <= |files| && BatchOver(step, files[..n]).panicked
    ensures BatchOver(step, files) == BatchOver(step, files[..n])
  {
    assert files == files[..n] + files[n..];
    PanicEndsBatch(step, files[..n], files[n..]);
  }

  /** Later files only add to a batch's trace. */
  lemma BatchExtends(step: string -> Attempt, a: seq<string>, b: seq<string>)
    ensures BatchOver(step, a).effects <= BatchOver(step, a + b).effects
  {
    if BatchOver(step, a).panicked {
      PanicEndsBatch(step, a, b);
    } else {
      BatchAppend(step, a, b);
    }
  }

  /** One more file: unless the batch has ended, it advances by that
      file. */
  lemma BatchStep(step: string -> Attempt, files: seq<string>, f: string)
    requires !BatchOver(step, files).panicked
    ensures BatchOver(step, files + [f]) == Advance(BatchOver(step, files), f, step(f))
  {
    assert (files + [f])[..|files|] == files;
  }

  /** A request that collects effects of steps without report lines writes
      none itself. */
  lemma {:induction false} CollectUnreported(step: Profile -> seq<Effect>, profiles: seq<Profile>)
    requires forall p | p in profiles :: Unreported(step(p))
    ensures Unreported(Collect(step, profiles))
  {
    if profiles != [] {
      CollectUnreported(step, profiles[..|profiles| - 1]);
      assert profiles[|profiles| - 1] in profiles;
    }
  }

  lemma ConvertUnreported(host: Host, input: string, quality: string, outDir: string, ai: bool)
    requires FileStem(input).Some?
    ensures Unreported(ConvertSpec(host, input, quality, outDir, ai).effects)
  {
    ConvertTraceShape(host, input, quality, outDir, ai);
    RunThenMoveKinds(ConvertSpec(host, input, quality, outDir, ai).effects);
  }

  /** A `process_song` request never writes a report line itself. */
  lemma ProcessUnreported(host: Host, input: string, quality: string, ai: bool)
    ensures Unreported(ProcessSpec(host, input, quality, ai).effects)
  {
    match host.canonicalize(input)
    case None =>
    case Some(path) =>
      match FileStem(path)
      case None =>
      case Some(stem) =>
        var folder := OutputFolder(stem);
        if quality == AllRequest {
          var step := (p: Profile) => ConvertSpec(host, path, p.name, folder, ai).effects;
          forall p | p in Table ensures Unreported(step(p)) {
            ConvertUnreported(host, path, p.name, folder, ai);
          }
          CollectUnreported(step, Table);
          assert ProcessSpec(host, input, quality, ai).effects == [MakeDirs(folder)] + Collect(step, Table)
              || ProcessSpec(host, input, quality, ai).effects == [MakeDirs(folder)];
        } else {
          ConvertUnreported(host, path, quality, folder, ai);
        }
  }

  /** The batch command: when no file panics, every file is handled, the
      progress bar ends at the number of files, and the trace holds exactly
      one report line per file whose request failed. */
  lemma BatchReportsEachFailure(host: Host, files: seq<string>, quality: string, ai: bool)
    requires forall f | f in files :: ProcessSpec(host, f, quality, ai).outcome != Panic
    ensures var run := BatchSpec(host, files, quality, ai);
            && !run.panicked && run.processed == |files|
            && Reports(run.effects) == Failures(ProcessStep(host, quality, ai), files)
  {
    ProcessStepUnreported(host, quality, ai);
    BatchCompletes(ProcessStep(host, quality, ai), files);
  }

  lemma ProcessStepUnreported(host: Host, quality: string, ai: bool)
    ensures forall f :: Unreported(ProcessStep(host, quality, ai)(f).effects)
  {
    forall f ensures Unreported(ProcessStep(host, quality, ai)(f).effects) {
      ProcessUnreported(host, f, quality, ai);
    }
  }

  /** The batch loop of `main`: collect the audio files, then handle them
      one by one, advancing the progress bar after each file that returns. */
  method Batch(host: Host, walk: seq<Option<string>>, quality: string, ai: bool) returns (run: BatchRun, bar: ProgressBar)
    ensures run == BatchSpec(host, AudioFiles(walk), quality, ai)
    ensures bar.length == |AudioFiles(walk)| && bar.position == run.processed
  {
    var files := AudioFiles(walk);
    bar := new ProgressBar(|files|);
    run := BatchRun([], 0, false);
    for i := 0 to |files|
      invariant run == BatchSpec(host, files[..i], quality, ai)
      invariant !run.panicked
      invariant bar.length == |files| && bar.position == run.processed
    {
      var r := ProcessSong(host, files[i], quality, ai);
      BatchStep(ProcessStep(host, quality, ai), files[..i], files[i]);
      assert files[..i + 1] == files[..i] + [files[i]];
      match r.outcome {
        case Panic =>
          run := BatchRun(run.effects + r.effects, run.processed, true);
          PanicEndsBatchAt(ProcessStep(host, quality, ai), files, i + 1);
          return;
        case Fail(e) =>
          run := BatchRun(run.effects + r.effects + [Report(files[i], e)], run.processed, false);
        case Pass =>
          run := BatchRun(run.effects + r.effects, run.processed, false);
      }
      bar.Inc(1);
      run := run.(processed := run.processed + 1);
    }
    assert files[..|files|] == files;
  }

  /** The quality request of the `convert` command: "all" under `--all`,
      else the `--quality` value, else the prompt's choice of a table name;
      a cancelled prompt is an error. */
  function ResolveQuality(all: bool, quality: Option<string>, choice: Option<nat>): (r: Option<string>)
    requires choice.Some? ==> choice.value < |Table|
    ensures all ==> r == Some(AllRequest)
    ensures !all && quality.Some? ==> r == quality
    ensures !all && quality.None? ==> (r.Some? <==> choice.Some?)
    ensures !all && quality.None? && choice.Some? ==> r == Some(Table[choice.value].name)
  {
    if all then Some(AllRequest)
    else match quality
      case Some(q) => Some(q)
      case None =>
        match choice
        case Some(i) => Some(Table[i].name)
        case None => None
  }

  /** Only a typed `--quality` can name an unknown profile: "all" and every
      prompt choice are handled without an InvalidProfile error. */
  lemma PromptedQualityIsKnown(host: Host, input: string, all: bool, choice: Option<nat>, ai: bool)
    requires choice.Some? ==> choice.value < |Table|
    requires ResolveQuality(all, None, choice).Some?
    ensures ProcessSpec(host, input, ResolveQuality(all, None, choice).value, ai).outcome != Fail(InvalidProfile)
  {
    var request := ResolveQuality(all, None, choice).value;
    match host.canonicalize(input)
    case None =>
    case Some(path) =>
      match FileStem(path)
      case None =>
      case Some(stem) =>
        if !all {
          LookupEachProfile(choice.value);
          ConvertOutcome(host, path, request, OutputFolder(stem), ai);
        }
  }

  /** The `convert` command: the path from `--input` or a prompt, the
      quality resolved as above, then one verbose request whose error ends
      the command. */
  function ConvertCommand(host: Host, input: Option<string>, typed: Option<string>,
                          all: bool, quality: Option<string>, choice: Option<nat>, ai: bool): (r: Attempt)
    requires choice.Some? ==> choice.value < |Table|
    ensures input.None? && typed.None? ==> r == Attempt([], Fail(PromptFailed))
    ensures (input.Some? || typed.Some?) && ResolveQuality(all, quality, choice).None? ==>
              r == Attempt([], Fail(PromptFailed))
    ensures (input.Some? || typed.Some?) && ResolveQuality(all, quality, choice).Some? ==>
              r == ProcessSpec(host, if input.Some? then input.value else typed.value,
                               ResolveQuality(all, quality, choice).value, ai)
  {
    var file := if input.Some? then input else typed;
    match file
    case None => Attempt([], Fail(PromptFailed))
    case Some(f) =>
      match ResolveQuality(all, quality, choice)
      case None => Attempt([], Fail(PromptFailed))
      case Some(q) => ProcessSpec(host, f, q, ai)
  }
}
