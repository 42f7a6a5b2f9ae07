# audioconv: a Dafny model of the converter's core

`audioconv` converts audio files into fixed quality tiers by running
`ffmpeg`, and optionally `audio-separator` for an AI karaoke
(instrumental) track. All its own logic is in `src/main.rs`. This project
models that logic and proves properties of it:

- the profile table and the lookup by name (`Profiles`);
- `is_audio_file` over Rust's `Path::extension` (`Paths`, `Classifier`);
- the output layout `output/{stem}/{stem}_{profile}.mp3` (`Naming`);
- the three argument vectors handed to the external programs
  (`Invocations`). The standard encoder call is built step by step on a
  mutable command builder, as in the source; the fast karaoke call and the
  separator call are fixed word lists. Strict reference readers of all
  three vectors serve as their inverses (`Readers`);
- `convert_file`, including the directory scan and rename after a
  successful separation (`Convert`);
- `process_song` and its "all" fan-out over the table (`Process`);
- the `convert` and `batch` commands of `main`: flag precedence, the file
  filter over the directory walk, the per-file error policy and the
  progress bar (`Cli`).

The filesystem and the subprocesses are a `Host`: a record of
deterministic oracle functions, one each for `fs::canonicalize`,
`fs::create_dir_all`, `Command::status`, `fs::read_dir` and `fs::rename`.
Every operation returns the trace of `Effect`s it attempted (make a folder,
run a program, rename a file, print a batch error line) together with an
`Outcome`. The outcome is `Pass`, `Fail(error)`, or `Panic` for an
`unwrap` that aborts the process. Each imperative operation is a `method`
proved equal to a specification function (`ConvertSpec`, `ProcessSpec`,
`BatchSpec`). The lemmas are stated about those functions.

Behaviour of the code worth noting:

- An encoder that starts but exits with a failure status still yields `Ok`.
  Only a failure to start is an error.
- After the separator exits with a failure status, `convert_file` returns
  `Ok` and renames nothing.
- When the scan finds no candidate, the result is `Ok`. When it finds
  several, the first in listing order is renamed. There is no "output not
  located" error.
- The output extension is always `.mp3`. `convert_file` never reads the
  profile's `ext` field; only the `profiles` listing prints it.
- The per-file error policy of `batch` does not cover panics. An input that
  canonicalizes to a path without a file stem (the root directory) panics
  at line 114 and ends the whole batch.
- The rename rule picks any `.mp3` entry that does not contain
  `{stem}_karaoke.mp3`. In "all" mode the low, mid and high outputs are
  already in the folder when the karaoke step runs, so one of them can be
  renamed to the karaoke name, depending on listing order.
  `TierOutputsAreCandidates`, `KaraokeCanTakeTierOutput` and
  `AllModeKaraokeTakesTierOutput` state this as proved behaviour of the
  code as written.

## Model

| member | source | states |
|---|---|---|
| Profiles.Find | src/main.rs:129 | `find` over a profile list returns a profile of that list with the requested name, and returns nothing exactly when no entry has that name |
| Profiles.Lookup | src/main.rs:129 | a name is found in the table exactly when some table entry carries it, and the profile found carries that name |
| Profiles.FindFirst | src/main.rs:129 | `find` returns the first entry with the name, by induction over the list |
| Profiles.NamesDistinct | src/main.rs:51-57 | the five profile names are pairwise different |
| Profiles.LookupEachProfile | src/main.rs:51-57 | looking up the name of table entry i returns exactly entry i |
| Profiles.TableShape | src/main.rs:51-57 | "karaoke" is entry 3 and no other; every entry has ext "mp3", codec "libmp3lame" and a bitrate |
| Paths.FileName | src/main.rs:148 | a file name never holds a separator and is never "", "." or ".." |
| Paths.LastDot | src/main.rs:190 | the index found holds a dot with no dot after it; no index means no dot at all |
| Paths.Join | src/main.rs:131 | a relative name ends the joined path |
| Paths.StemDotExtension | src/main.rs:190 | a path with an extension has a non-empty stem, and its file name is stem, dot, extension, where the extension holds no dot |
| Paths.ExtensionIffInnerDot | src/main.rs:190 | a path has an extension exactly when its file name holds a dot after its first character; without one, the stem is the whole name |
| Paths.FileNameOfJoin | src/main.rs:131 | joining any directory with a plain name gives a path whose file name is that name |
| Classifier.ToLowerAscii | src/main.rs:190 | lowercasing keeps the length and maps each character on its own |
| Classifier.AudioFileShape | src/main.rs:188-191 | an audio file has a non-empty stem, and its name is stem, dot and an extension of 3 or 4 characters |
| Classifier.NoInnerDotRejected | src/main.rs:188-191 | a file name with no dot after its first character (no dot, or a hidden file) is never an audio file |
| Classifier.AnyCaseAccepted | src/main.rs:188-191 | any stem, in any directory, with an allowed extension in any ASCII case is an audio file |
| Classifier.AllowedExtensionChars | src/main.rs:189 | an extension whose lowercase form is allowed is non-empty and holds neither a dot nor a separator |
| ClassifierExamples.UpperCaseExample | src/main.rs:188-191 | "track.MP3" is an audio file |
| ClassifierExamples.DirectoryDotExample | src/main.rs:188-191 | "music.mp3/README" is not: only the final component counts |
| ClassifierExamples.NestedPathExample | src/main.rs:188-191 | "music/Album.v2/Intro.Wav" is an audio file |
| ClassifierExamples.HiddenFileExample | src/main.rs:188-191 | ".mp3" has no extension and is not an audio file |
| ClassifierExamples.ForeignExtensionExample | src/main.rs:188-191 | "notes.txt" is not an audio file |
| Naming.FinalOutputShape | src/main.rs:131 | the output path's file name is `{stem}_{name}.mp3`, its extension is "mp3" whatever the profile's ext, and its stem is `{stem}_{name}` |
| Naming.OutputFileNameSplit | src/main.rs:131 | the output file name has no separator and splits at its last dot into `{stem}_{name}` and "mp3" |
| Naming.OutputNamesDistinct | src/main.rs:131 | two different profiles never share an output file, so "all" writes five distinct files |
| Naming.OutputFolderName | src/main.rs:115 | the per-input folder is `output/{stem}`, and its own name is the stem |
| Invocations.Command.constructor | src/main.rs:170 | a new command has no arguments |
| Invocations.Command.Arg | src/main.rs:171 | `arg` appends exactly one argument at the end |
| Invocations.StandardArgs | src/main.rs:170-180 | the standard vector's length counts the optional duration and bitrate pairs; it starts with `-y -i input` and ends with the trailer and the output path |
| Invocations.BuildStandardCommand | src/main.rs:170-180 | the step-by-step builder produces `ffmpeg` with exactly the standard vector |
| Invocations.AppendEncoding | src/main.rs:175-178 | the codec pair is appended, then the bitrate pair when the profile has one |
| Invocations.FastIsStandardPlusFilter | src/main.rs:158-166 | the fast karaoke vector is the karaoke tier's standard vector with `-af filter` inserted after the input |
| Invocations.FastArgsIndependentOfInput | src/main.rs:158-166 | the fast karaoke vector has 13 words and differs between calls only in the input and output paths |
| Readers.StandardArgsRoundTrip | src/main.rs:170-180 | every standard vector reads back as overwrite, the input, the preview duration only for preview, the codec, the bitrate only if present, banner hidden, log level "error", and the output path |
| Readers.ReadEncoding | src/main.rs:175-180 | the codec, the optional bitrate and the trailer read back as such |
| Readers.ReadTrailer | src/main.rs:180 | the trailer reads as banner hidden and log level "error" |
| Readers.KaraokeFastArgsRoundTrip | src/main.rs:158-166 | the fast vector reads back as the karaoke tier's request plus the filter graph, and the output path |
| Readers.SeparatorArgsRoundTrip | src/main.rs:136-141 | the separator vector reads back as this input, the fixed model, MP3 format, the output folder and instrumental only, when the input does not start with '-' |
| Readers.StandardArgsOptionCounts | src/main.rs:173-178 | "-b:a" occurs exactly once when the profile has a bitrate and never otherwise; "-t" occurs exactly once for preview and never otherwise |
| Readers.CountOptionWords | src/main.rs:170-180 | a word outside the fixed ones and the codec occurs only in the duration and bitrate pairs |
| Convert.FoundIsFirstCandidate | src/main.rs:146-153 | the scan picks n exactly when n is a candidate and every earlier entry was readable and not a candidate |
| Convert.NoCandidateIffNone | src/main.rs:146-154 | the scan finds nothing exactly when every entry is readable and none is a candidate |
| Convert.RenameSeparatorOutput | src/main.rs:146-154 | the directory loop (error on an unreadable listing or entry, rename the first candidate, then stop) equals the scan specification |
| Convert.ConvertFile | src/main.rs:128-186 | `convert_file` attempts exactly the effects and returns exactly the outcome of the specification |
| Convert.UnknownQualityDoesNothing | src/main.rs:129 | a name outside the table fails with InvalidProfile before anything is run |
| Convert.StandardTierConversion | src/main.rs:169-184 | a non-karaoke tier runs exactly the standard encoder call for its output path, in either karaoke mode, and passes exactly when the encoder started |
| Convert.AiKaraokeIsSeparation | src/main.rs:133-135 | AI karaoke is the separator step towards the karaoke output path |
| Convert.SeparationShape | src/main.rs:136-155 | the separator runs first; at most one rename follows, only after a success status, to the final path; the outcome is neither a panic nor InvalidProfile |
| Convert.ProfileConversionShape | src/main.rs:133-184 | once a profile is found: no panic, no InvalidProfile, one program run first and at most one rename after, only in AI karaoke mode after separator success, to the profile's output path |
| Convert.ConvertOutcome | src/main.rs:128-186 | for an input with a stem, a conversion never panics and fails with InvalidProfile exactly when the name is not in the table |
| Convert.ConvertTraceShape | src/main.rs:133-184 | at most one program run, first; at most one rename, after it, only in AI karaoke mode after separator success and always to the karaoke output path |
| Convert.RunThenMoveKinds | src/main.rs:133-184 | such a trace holds only program runs and renames |
| Convert.SeparationRenamesFirstCandidate | src/main.rs:144-155 | after separator success the renamed entry is the first candidate of the listing; with no candidate nothing is renamed and the result is still `Ok` |
| Convert.TierOutputsAreCandidates | src/main.rs:150 | the output name of every tier but karaoke passes the rename rule; the karaoke output does not |
| Convert.KaraokeCanTakeTierOutput | src/main.rs:146-153 | if an earlier tier's output is listed first, AI karaoke renames that file to the karaoke name |
| Process.ProcessSong | src/main.rs:112-126 | `process_song` attempts exactly the effects and returns exactly the outcome of the specification |
| Process.FanOut | src/main.rs:119-121 | the "all" loop converts once per profile in order and drops every outcome |
| Process.ProcessOutcome | src/main.rs:112-126 | a panic happens exactly when the canonical path has no stem; "all" passes exactly when the folder was prepared; a single request passes exactly when it was prepared and its conversion passed |
| Process.CollectAppend | src/main.rs:119-121 | collecting over two lists in turn is collecting over their concatenation |
| Process.TierInFanOut | src/main.rs:119-121 | in the fan-out, each profile's conversion comes after all earlier ones and before all later ones |
| Process.AllModeRunsEveryTier | src/main.rs:118-121 | in "all" mode, after the folder is made, every non-karaoke tier runs its standard encoder call on the canonical path, whatever the earlier tiers did, and the request passes |
| Process.UnknownSingleRequest | src/main.rs:116-123 | a single unknown name still creates the output folder, then fails with InvalidProfile without running anything |
| Process.RootInputPanics | src/main.rs:113-114 | an input that canonicalizes to "/" panics before anything is created |
| Process.AllModeKaraokeTakesTierOutput | src/main.rs:118-121 | in "all" AI mode, if the folder lists an earlier tier's output first, that output is renamed to the karaoke name |
| Cli.ProgressBar.constructor | src/main.rs:95 | the bar starts at position 0 with length the number of files |
| Cli.ProgressBar.Inc | src/main.rs:104 | `inc` advances the position by its argument |
| Cli.AudioFiles | src/main.rs:88-93 | the collected files are audio files and no more than the walk yielded |
| Cli.AudioFilesExact | src/main.rs:88-93 | a path is collected exactly when the walk yielded it without error and it is an audio file |
| Cli.AudioFilesAppend | src/main.rs:88-93 | collection keeps the walk's order: it distributes over concatenation |
| Cli.AudioFilesHaveNames | src/main.rs:100 | every collected file has a file name, so the progress message's `unwrap` never fails |
| Cli.PanicEndsBatch | src/main.rs:98-105 | once a panic has ended the batch, later files change nothing |
| Cli.PanicEndsBatchAt | src/main.rs:98-105 | a batch that ended within its first n files ends there |
| Cli.BatchAppend | src/main.rs:98-105 | without a panic in the first part, a batch over two lists is the first batch followed by the second: one file's failure does not affect later files |
| Cli.BatchExtends | src/main.rs:98-105 | later files only add to the trace |
| Cli.BatchStep | src/main.rs:98-105 | unless the batch has ended, one more file advances it by that file's request |
| Cli.BatchCompletes | src/main.rs:98-105 | with no panic every file is handled, the progress count reaches the number of files, and report lines match failing files one for one when requests write none themselves |
| Cli.PanicStopsAtFirst | src/main.rs:98-105 | the first panicking file ends the batch: the files before it are handled, the progress count equals their number, and nothing after it runs |
| Cli.EachFileTraced | src/main.rs:98-105 | each file's effects follow those of all earlier files in the trace unless an earlier file panicked |
| Cli.CollectUnreported | src/main.rs:119-121 | the fan-out over steps without report lines writes none |
| Cli.ConvertUnreported | src/main.rs:128-186 | `convert_file` writes no report line |
| Cli.ProcessUnreported | src/main.rs:112-126 | `process_song` writes no report line; only the batch loop does |
| Cli.ProcessStepUnreported | src/main.rs:101 | the batch's per-file request writes no report line for any file |
| Cli.BatchReportsEachFailure | src/main.rs:98-105 | for a batch without panics, every file is handled, the bar ends at the file count, and there is exactly one error line per failing file |
| Cli.Batch | src/main.rs:87-106 | the batch loop's trace is the batch specification over the collected audio files; the bar's length is their number and its position is the number of files handled |
| Cli.ResolveQuality | src/main.rs:78-83 | `--all` wins over `--quality`, which wins over the prompt; without either, a request exists exactly when the prompt returned a choice, and it is the name of the chosen table entry |
| Cli.PromptedQualityIsKnown | src/main.rs:78-84 | "all" and every prompt choice are handled without an InvalidProfile error; only a typed `--quality` can name an unknown profile |
| Cli.ConvertCommand | src/main.rs:73-85 | a cancelled path prompt, or a cancelled quality prompt once a path is known, fails with PromptFailed before anything is attempted; otherwise the command is one `process_song` request on the given path with the resolved quality |

## Left out

- The external programs (`ffmpeg`, `audio-separator`) do no work in the
  model. `Command::status` is an oracle answering "did not start" or
  "exited with success/failure".
- Filesystem effects are not simulated. The oracles answer from the
  question alone. A folder listing does not change when the converter
  renames or writes files, and the model does not track which files the
  encoder created.
- Rust's `Path` is modelled on '/'-separated strings. The trailing-separator
  and "." normalisation done by `Path::components` is not modelled: a
  trailing '/' or a final "." gives no file name here. Canonical paths and
  directory entry names never carry either.
- Non-UTF-8 paths are left out, and so are the `to_str().unwrap()` panics
  they would cause at lines 99, 100, 114, 130 and 148.
- Lowercasing is ASCII only, where the source's `to_lowercase` is
  Unicode-aware. For this allow-list the two agree. The only non-ASCII
  character whose lowercase is ASCII is the Kelvin sign, which lowercases
  to 'k', and no allowed extension contains a 'k'.
- The verbose messages (lines 135, 157, 182), the batch progress message
  text and style, the final "Batch complete!" message, and the error line's
  text are left out. A report line is modelled as `Report(path, error)`.
- The `profiles` command's listing (lines 64-70) is output formatting only
  and is not modelled.
- Argument parsing by clap, the inquire prompts and indicatif's drawing are
  left out. Prompt answers are parameters: a path or nothing, a table
  index or nothing.
- `WalkDir` is a parameter: the sequence it yields, with failed entries as
  `None`. Its traversal order, the directory root itself and symbolic
  links are not modelled.
- The async runtime is left out: every call runs to completion in order.
- `src/v2.rs` is commented out in full and is not part of this model.
