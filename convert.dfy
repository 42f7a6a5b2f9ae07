/** `convert_file`: one input, one quality name, one output folder. The
    profile is looked up first; karaoke goes to the separator (AI mode) or
    to the fixed filter call (fast mode), every other profile to the
    standard encoder call. After a successful separation the folder is
    scanned and the first plausible separator output is renamed to the
    karaoke output name. */
module Convert {
  import opened Outcomes
  import opened Profiles
  import opened Paths
  import opened Naming
  import opened Invocations

  /** The trace and outcome of a request. */
  datatype Attempt = Attempt(effects: seq<Effect>, outcome: Outcome)

  predicate EndsWith(s: string, suffix: string)
  {
    |suffix| <= |s| && s[|s| - |suffix|..] == suffix
  }

  /** `part` occurs in `s` starting at index i. */
  predicate IsAt(s: string, part: string, i: int)
  {
    0 <= i <= |s| - |part| && s[i..i + |part|] == part
  }

  predicate Contains(s: string, part: string)
  {
    exists i | 0 <= i <= |s| - |part| :: IsAt(s, part, i)
  }

  /** The rename rule: an ".mp3" entry that does not contain the karaoke
      output name of this stem. */
  predicate IsSeparatorOutput(name: string, stem: string)
  {
    EndsWith(name, ".mp3") && !Contains(name, stem + "_karaoke.mp3")
  }

  /** What the directory scan comes to: the entry to rename, no entry to
      rename, or an entry that could not be read (which ends the scan). */
  datatype Scan = Found(name: string) | NoCandidate | BadEntry

  /** The scan over the listing, in listing order, stopping at the first
      unreadable entry or the first candidate. */
  function FirstCandidate(entries: seq<DirEntry>, stem: string): Scan
  {
    if entries == [] then NoCandidate
    else match entries[0]
      case Unreadable => BadEntry
      case Named(n) => if IsSeparatorOutput(n, stem) then Found(n) else FirstCandidate(entries[1..], stem)
  }

  /** No entry before index k is unreadable or a candidate. */
  predicate PassedOver(entries: seq<DirEntry>, stem: string, k: nat)
    requires k <= |entries|
  {
    forall j | 0 <= j < k :: entries[j].Named? && !IsSeparatorOutput(entries[j].name, stem)
  }

  /** The scan finds `n` exactly when `n` is the first entry that is either
      unreadable or a candidate, and is a candidate. */
  lemma {:induction false} FoundIsFirstCandidate(entries: seq<DirEntry>, stem: string, n: string)
    ensures FirstCandidate(entries, stem) == Found(n) <==>
            exists k | 0 <= k < |entries| :: entries[k] == Named(n) && IsSeparatorOutput(n, stem)
                                             && PassedOver(entries, stem, k)
  {
    if entries != [] {
      FoundIsFirstCandidate(entries[1..], stem, n);
      if FirstCandidate(entries, stem) == Found(n) {
        if entries[0] != Named(n) {
          var k :| 0 <= k < |entries[1..]| && entries[1..][k] == Named(n) && IsSeparatorOutput(n, stem)
                   && PassedOver(entries[1..], stem, k);
          assert PassedOver(entries, stem, k + 1);
        } else {
          assert PassedOver(entries, stem, 0);
        }
      } else {
        forall k | 0 <= k < |entries| && entries[k] == Named(n) && IsSeparatorOutput(n, stem)
          ensures !PassedOver(entries, stem, k)
        {
          if k > 0 && PassedOver(entries, stem, k) {
            assert PassedOver(entries[1..], stem, k - 1);
          }
        }
      }
    }
  }

  /** The scan finds nothing exactly when every entry is readable and none
      is a candidate. */
  lemma {:induction false} NoCandidateIffNone(entries: seq<DirEntry>, stem: string)
    ensures FirstCandidate(entries, stem) == NoCandidate <==> PassedOver(entries, stem, |entries|)
  {
    if entries != [] {
      NoCandidateIffNone(entries[1..], stem);
      if PassedOver(entries, stem, |entries|) {
        assert PassedOver(entries[1..], stem, |entries| - 1);
      }
      if PassedOver(entries[1..], stem, |entries| - 1) && entries[0].Named? && !IsSeparatorOutput(entries[0].name, stem) {
        assert PassedOver(entries, stem, |entries|);
      }
    }
  }

  /** The separator call for an input and output folder. */
  function SeparatorCall(input: string, outDir: string): Invocation
  {
    Invocation(SeparatorProgram, SeparatorArgs(input, outDir))
  }

  /** Running an encoder call: only a failure to start is an error; the exit
      status is not looked at. */
  function RunEncoder(host: Host, inv: Invocation): Attempt
  {
    Attempt([Run(inv)], if host.status(inv) == NotStarted then Fail(SpawnFailed) else Pass)
  }

  /** After a successful separation: list the folder, rename the first
      candidate to the karaoke output path. */
  function RenameSpec(host: Host, outDir: string, stem: string, final: string): Attempt
  {
    match host.readDir(outDir)
    case None => Attempt([], Fail(ReadDirFailed))
    case Some(entries) =>
      match FirstCandidate(entries, stem)
      case BadEntry => Attempt([], Fail(EntryFailed))
      case NoCandidate => Attempt([], Pass)
      case Found(n) =>
        var from := Join(outDir, n);
        Attempt([Move(from, final)], if host.rename(from, final) then Pass else Fail(RenameFailed))
  }

  /** AI karaoke: run the separator; only on a success status, rename. */
  function SeparateSpec(host: Host, input: string, outDir: string, stem: string, final: string): Attempt
  {
    var inv := SeparatorCall(input, outDir);
    match host.status(inv)
    case NotStarted => Attempt([Run(inv)], Fail(SpawnFailed))
    case Exited(success) =>
      if !success then Attempt([Run(inv)], Pass)
      else
        var after := RenameSpec(host, outDir, stem, final);
        Attempt([Run(inv)] + after.effects, after.outcome)
  }

  /** `convert_file` as a function of the host's answers. The profile is
      looked up before the stem is taken, so an unknown name fails even for
      a path without a stem, which otherwise panics. */
  function ConvertSpec(host: Host, input: string, quality: string, outDir: string, ai: bool): Attempt
  {
    match Lookup(quality)
    case None => Attempt([], Fail(InvalidProfile))
    case Some(p) =>
      match FileStem(input)
      case None => Attempt([], Panic)
      case Some(stem) => ConvertWithProfile(host, input, quality, p, stem, outDir, ai)
  }

  /** The rest of `convert_file` once profile `p` is found and the input's
      stem is known: the karaoke branch on the quality name, else the
      standard encoder call, all towards `{outDir}/{stem}_{name}.mp3`. */
  function ConvertWithProfile(host: Host, input: string, quality: string, p: Profile, stem: string,
                              outDir: string, ai: bool): Attempt
  {
    var final := FinalOutput(outDir, stem, p);
    if quality == "karaoke" then
      if ai then SeparateSpec(host, input, outDir, stem, final)
      else RunEncoder(host, Invocation(Encoder, KaraokeFastArgs(input, final)))
    else RunEncoder(host, Invocation(Encoder, StandardArgs(p, input, final)))
  }

  /** The folder scan and rename that follow a successful separation. */
  method RenameSeparatorOutput(host: Host, outDir: string, stem: string, final: string) returns (a: Attempt)
    ensures a == RenameSpec(host, outDir, stem, final)
  {
    var listing := host.readDir(outDir);
    if listing.None? {
      return Attempt([], Fail(ReadDirFailed));
    }
    var entries := listing.value;
    a := Attempt([], Pass);
    var i := 0;
    while i < |entries|
      invariant i <= |entries|
      invariant FirstCandidate(entries, stem) == FirstCandidate(entries[i..], stem)
      invariant a == Attempt([], Pass)
    {
      match entries[i] {
        case Unreadable =>
          return Attempt([], Fail(EntryFailed));
        case Named(name) =>
          if IsSeparatorOutput(name, stem) {
            var from := Join(outDir, name);
            var moved := host.rename(from, final);
            a := Attempt([Move(from, final)], if moved then Pass else Fail(RenameFailed));
            break;
          }
      }
      assert entries[i..][1..] == entries[i + 1..];
      i := i + 1;
    }
  }

  /** `convert_file`. */
  method ConvertFile(host: Host, input: string, quality: string, outDir: string, ai: bool) returns (a: Attempt)
    ensures a == ConvertSpec(host, input, quality, outDir, ai)
  {
    var found := Lookup(quality);
    if found.None? {
      return Attempt([], Fail(InvalidProfile));
    }
    var profile := found.value;
    var stemOf := FileStem(input);
    if stemOf.None? {
      return Attempt([], Panic);
    }
    var stem := stemOf.value;
    var final := FinalOutput(outDir, stem, profile);
    if quality == "karaoke" {
      if ai {
        var inv := SeparatorCall(input, outDir);
        var status := host.status(inv);
        a := Attempt([Run(inv)], if status == NotStarted then Fail(SpawnFailed) else Pass);
        if status == Exited(true) {
          var after := RenameSeparatorOutput(host, outDir, stem, final);
          a := Attempt([Run(inv)] + after.effects, after.outcome);
        }
      } else {
        var inv := Invocation(Encoder, KaraokeFastArgs(input, final));
        a := Attempt([Run(inv)], if host.status(inv) == NotStarted then Fail(SpawnFailed) else Pass);
      }
    } else {
      var inv := BuildStandardCommand(profile, input, final);
      a := Attempt([Run(inv)], if host.status(inv) == NotStarted then Fail(SpawnFailed) else Pass);
    }
  }

  /** An unknown quality name fails with InvalidProfile before anything is
      run or renamed. */
  lemma UnknownQualityDoesNothing(host: Host, input: string, quality: string, outDir: string, ai: bool)
    requires forall p | p in Table :: p.name != quality
    ensures ConvertSpec(host, input, quality, outDir, ai) == Attempt([], Fail(InvalidProfile))
  {
  }

  /** A non-karaoke tier runs exactly the standard encoder call for its
      output path, in either karaoke mode, and succeeds whatever exit status
      the encoder reports; only a failure to start is an error. */
  lemma StandardTierConversion(host: Host, input: string, i: nat, outDir: string, ai: bool)
    requires i < |Table| && Table[i].name != "karaoke"
    requires FileStem(input).Some?
    ensures var inv := Invocation(Encoder, StandardArgs(Table[i], input, FinalOutput(outDir, FileStem(input).value, Table[i])));
            && ConvertSpec(host, input, Table[i].name, outDir, ai).effects == [Run(inv)]
            && (ConvertSpec(host, input, Table[i].name, outDir, ai).outcome == Pass <==> host.status(inv) != NotStarted)
  {
    LookupEachProfile(i);
  }

  /** The AI karaoke request is the separator step towards the karaoke
      output path. */
  lemma AiKaraokeIsSeparation(host: Host, input: string, outDir: string)
    requires FileStem(input).Some?
    ensures var stem := FileStem(input).value;
            ConvertSpec(host, input, "karaoke", outDir, true)
              == SeparateSpec(host, input, outDir, stem, FinalOutput(outDir, stem, Karaoke))
  {
    LookupEachProfile(3);
  }

  /** A trace of at most one program run, first, and at most one rename,
      after it. */
  predicate RunThenMove(effects: seq<Effect>)
  {
    |effects| <= 2 && (effects != [] ==> effects[0].Run?) && (|effects| == 2 ==> effects[1].Move?)
  }

  /** Such a trace holds program runs and renames only. */
  lemma RunThenMoveKinds(effects: seq<Effect>)
    requires RunThenMove(effects)
    ensures forall e | e in effects :: e.Run? || e.Move?
  {
  }

  /** The separator step runs the separator first and renames at most one
      file, to the given path, and only after the separator reported
      success. */
  lemma SeparationShape(host: Host, input: string, outDir: string, stem: string, final: string)
    ensures var r := SeparateSpec(host, input, outDir, stem, final);
            && RunThenMove(r.effects) && r.effects[0] == Run(SeparatorCall(input, outDir))
            && r.outcome != Panic && r.outcome != Fail(InvalidProfile)
            && (|r.effects| == 2 ==> host.status(SeparatorCall(input, outDir)) == Exited(true) && r.effects[1].to == final)
  {
  }

  /** Once the profile is found, a conversion neither panics nor reports
      an invalid profile, runs one program first and renames at most one
      file after it, and only in AI karaoke mode after the separator
      reported success, to the profile's output path. */
  lemma ProfileConversionShape(host: Host, input: string, quality: string, p: Profile, stem: string,
                               outDir: string, ai: bool)
    ensures var r := ConvertWithProfile(host, input, quality, p, stem, outDir, ai);
            && r.outcome != Panic && r.outcome != Fail(InvalidProfile)
            && RunThenMove(r.effects) && |r.effects| >= 1
            && (|r.effects| == 2 ==>
                  && quality == "karaoke" && ai
                  && host.status(SeparatorCall(input, outDir)) == Exited(true)
                  && r.effects[1].to == FinalOutput(outDir, stem, p))
  {
    if quality == "karaoke" && ai {
      SeparationShape(host, input, outDir, stem, FinalOutput(outDir, stem, p));
    }
  }

  /** A conversion of an input with a stem never panics, and fails with
      InvalidProfile exactly when the name is not in the table. */
  lemma ConvertOutcome(host: Host, input: string, quality: string, outDir: string, ai: bool)
    requires FileStem(input).Some?
    ensures var r := ConvertSpec(host, input, quality, outDir, ai);
            && r.outcome != Panic
            && (r.outcome == Fail(InvalidProfile) <==> Lookup(quality).None?)
  {
    match Lookup(quality)
    case None =>
    case Some(p) =>
      ProfileConversionShape(host, input, quality, p, FileStem(input).value, outDir, ai);
  }

  /** A conversion runs at most one program, first, and renames at most one
      file, after it; a rename happens only in AI karaoke mode, only after
      the separator reported success, and always targets the karaoke output
      path. */
  lemma ConvertTraceShape(host: Host, input: string, quality: string, outDir: string, ai: bool)
    requires FileStem(input).Some?
    ensures var r := ConvertSpec(host, input, quality, outDir, ai);
            && RunThenMove(r.effects)
            && (|r.effects| == 2 ==>
                  && quality == "karaoke" && ai
                  && host.status(SeparatorCall(input, outDir)) == Exited(true)
                  && r.effects[1].to == FinalOutput(outDir, FileStem(input).value, Karaoke))
  {
    match Lookup(quality)
    case None =>
    case Some(p) =>
      ProfileConversionShape(host, input, quality, p, FileStem(input).value, outDir, ai);
      if quality == "karaoke" {
        LookupEachProfile(3);
      }
  }

  /** After a successful separation, the entry renamed is the scan's first
      candidate, and when there is none nothing is renamed and the
      conversion still succeeds. */
  lemma SeparationRenamesFirstCandidate(host: Host, input: string, outDir: string, entries: seq<DirEntry>)
    requires FileStem(input).Some?
    requires host.status(SeparatorCall(input, outDir)) == Exited(true)
    requires host.readDir(outDir) == Some(entries)
    ensures var stem := FileStem(input).value;
            var r := ConvertSpec(host, input, "karaoke", outDir, true);
            && (PassedOver(entries, stem, |entries|) ==>
                  r == Attempt([Run(SeparatorCall(input, outDir))], Pass))
            && (forall k | 0 <= k < |entries| && entries[k].Named? && IsSeparatorOutput(entries[k].name, stem)
                           && PassedOver(entries, stem, k) ::
                  r.effects == [Run(SeparatorCall(input, outDir)),
                                Move(Join(outDir, entries[k].name), FinalOutput(outDir, stem, Karaoke))])
  {
    var stem := FileStem(input).value;
    AiKaraokeIsSeparation(host, input, outDir);
    NoCandidateIffNone(entries, stem);
    forall k | 0 <= k < |entries| && entries[k].Named? && IsSeparatorOutput(entries[k].name, stem)
               && PassedOver(entries, stem, k)
      ensures FirstCandidate(entries, stem) == Found(entries[k].name)
    {
      FoundIsFirstCandidate(entries, stem, entries[k].name);
    }
  }

  /** The output of every other tier for the same stem passes the rename
      rule, while the karaoke output itself does not. */
  lemma TierOutputsAreCandidates(stem: string, i: nat)
    requires i < |Table|
    ensures IsSeparatorOutput(OutputFileName(stem, Table[i]), stem) <==> Table[i].name != "karaoke"
  {
    var name := OutputFileName(stem, Table[i]);
    var part := stem + "_karaoke.mp3";
    assert EndsWith(name, ".mp3") by {
      assert name == (stem + "_" + Table[i].name) + ".mp3";
    }
    if Table[i].name == "karaoke" {
      assert IsAt(name, part, 0);
    } else if Table[i].name == "preview" {
      assert name[|stem| + 1] == 'p' && part[|stem| + 1] == 'k';
      assert !Contains(name, part);
    } else {
      assert |name| < |part|;
      assert forall k :: !IsAt(name, part, k);
    }
  }

  /** The rename rule in "all" mode: when the folder lists the output of an
      earlier tier, say `{stem}_low.mp3`, before the separator's own file,
      the karaoke step renames that tier's output to the karaoke name. */
  lemma KaraokeCanTakeTierOutput(host: Host, input: string, outDir: string, i: nat, rest: seq<DirEntry>)
    requires FileStem(input).Some?
    requires i < |Table| && Table[i].name != "karaoke"
    requires host.status(SeparatorCall(input, outDir)) == Exited(true)
    requires host.readDir(outDir) == Some([Named(OutputFileName(FileStem(input).value, Table[i]))] + rest)
    ensures var stem := FileStem(input).value;
            Move(Join(outDir, OutputFileName(stem, Table[i])), FinalOutput(outDir, stem, Karaoke))
              in ConvertSpec(host, input, "karaoke", outDir, true).effects
  {
    var stem := FileStem(input).value;
    TierOutputsAreCandidates(stem, i);
    SeparationRenamesFirstCandidate(host, input, outDir, [Named(OutputFileName(stem, Table[i]))] + rest);
  }
}
