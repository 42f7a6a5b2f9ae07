/** `process_song`: resolve the input, create its output folder, then
    either convert once for the requested profile (its error propagates) or,
    for "all", convert once per table entry in table order, discarding
    every outcome. */
module Process {
  import opened Outcomes
  import opened Profiles
  import opened Paths
  import opened Naming
  import opened Convert

  /** The request that fans out over the whole table. */
  const AllRequest: string := "all"

  /** The effects of running `step` once per profile, in order. */
  function Collect(step: Profile -> seq<Effect>, profiles: seq<Profile>): seq<Effect>
  {
    if profiles == [] then []
    else Collect(step, profiles[..|profiles| - 1]) + step(profiles[|profiles| - 1])
  }

  /** The effects of converting `input` once per profile, in order; the
      outcomes are dropped. */
  function FanOutSpec(host: Host, input: string, outDir: string, ai: bool, profiles: seq<Profile>): seq<Effect>
  {
    Collect((p: Profile) => ConvertSpec(host, input, p.name, outDir, ai).effects, profiles)
  }

  /** `process_song` as a function of the host's answers. The conversions
      get the canonical path, not the path as given. */
  function ProcessSpec(host: Host, input: string, request: string, ai: bool): Attempt
  {
    match host.canonicalize(input)
    case None => Attempt([], Fail(CanonicalizeFailed))
    case Some(path) =>
      match FileStem(path)
      case None => Attempt([], Panic)
      case Some(stem) =>
        var folder := OutputFolder(stem);
        if !host.createDirAll(folder) then Attempt([MakeDirs(folder)], Fail(CreateDirFailed))
        else if request == AllRequest then Attempt([MakeDirs(folder)] + FanOutSpec(host, path, folder, ai, Table), Pass)
        else
          var r := ConvertSpec(host, path, request, folder, ai);
          Attempt([MakeDirs(folder)] + r.effects, r.outcome)
  }

  /** `process_song`. */
  method ProcessSong(host: Host, input: string, request: string, ai: bool) returns (a: Attempt)
    ensures a == ProcessSpec(host, input, request, ai)
  {
    var canonical := host.canonicalize(input);
    if canonical.None? {
      return Attempt([], Fail(CanonicalizeFailed));
    }
    var path := canonical.value;
    var stem := FileStem(path);
    if stem.None? {
      return Attempt([], Panic);
    }
    var folder := OutputFolder(stem.value);
    var effects := [MakeDirs(folder)];
    var created := host.createDirAll(folder);
    if !created {
      return Attempt(effects, Fail(CreateDirFailed));
    }
    if request == AllRequest {
      var fan := FanOut(host, path, folder, ai, Table);
      a := Attempt(effects + fan, Pass);
    } else {
      var r := ConvertFile(host, path, request, folder, ai);
      a := Attempt(effects + r.effects, r.outcome);
    }
  }

  /** The loop of the "all" branch: one conversion per profile, in order,
      whatever each one's outcome. */
  method FanOut(host: Host, input: string, outDir: string, ai: bool, profiles: seq<Profile>) returns (effects: seq<Effect>)
    ensures effects == FanOutSpec(host, input, outDir, ai, profiles)
  {
    effects := [];
    for i := 0 to |profiles|
      invariant effects == FanOutSpec(host, input, outDir, ai, profiles[..i])
    {
      var r := ConvertFile(host, input, profiles[i].name, outDir, ai);
      assert profiles[..i + 1][..i] == profiles[..i];
      effects := effects + r.effects;
    }
    assert profiles[..|profiles|] == profiles;
  }

  /** The host steps before any conversion all succeed for this input. */
  predicate Prepared(host: Host, input: string)
  {
    && host.canonicalize(input).Some?
    && FileStem(host.canonicalize(input).value).Some?
    && host.createDirAll(OutputFolder(FileStem(host.canonicalize(input).value).value))
  }

  /** How a request ends: a panic exactly when the canonical path has no
      file stem; in "all" mode success exactly when the folder was
      prepared, whatever the conversions did; otherwise success exactly
      when it was prepared and the one conversion succeeded. */
  lemma ProcessOutcome(host: Host, input: string, request: string, ai: bool)
    ensures var r := ProcessSpec(host, input, request, ai);
            && (r.outcome == Panic <==> host.canonicalize(input).Some? && FileStem(host.canonicalize(input).value).None?)
            && (request == AllRequest ==> (r.outcome == Pass <==> Prepared(host, input)))
            && (request != AllRequest ==>
                  (r.outcome == Pass <==>
                     Prepared(host, input)
                     && var path := host.canonicalize(input).value;
                        ConvertSpec(host, path, request, OutputFolder(FileStem(path).value), ai).outcome == Pass))
  {
    if host.canonicalize(input).Some? {
      var path := host.canonicalize(input).value;
      if FileStem(path).Some? {
        ConvertOutcome(host, path, request, OutputFolder(FileStem(path).value), ai);
      }
    }
  }

  /** Collecting over two lists in turn is collecting over their
      concatenation. */
  lemma {:induction false} CollectAppend(step: Profile -> seq<Effect>, a: seq<Profile>, b: seq<Profile>)
    ensures Collect(step, a + b) == Collect(step, a) + Collect(step, b)
  {
    if b == [] {
      assert a + b == a;
    } else {
      var init := b[..|b| - 1];
      CollectAppend(step, a, init);
      assert (a + b)[..|a + b| - 1] == a + init;
      assert (a + b)[|a + b| - 1] == b[|b| - 1];
    }
  }

  /** The conversion for profile j comes after those of all earlier
      profiles and is followed by those of all later ones. */
  lemma TierInFanOut(host: Host, input: string, outDir: string, ai: bool, profiles: seq<Profile>, j: nat)
    requires j < |profiles|
    ensures FanOutSpec(host, input, outDir, ai, profiles)
              == FanOutSpec(host, input, outDir, ai, profiles[..j])
                 + ConvertSpec(host, input, profiles[j].name, outDir, ai).effects
                 + FanOutSpec(host, input, outDir, ai, profiles[j + 1..])
  {
    var step := (p: Profile) => ConvertSpec(host, input, p.name, outDir, ai).effects;
    assert profiles == profiles[..j] + [profiles[j]] + profiles[j + 1..];
    CollectAppend(step, profiles[..j] + [profiles[j]], profiles[j + 1..]);
    CollectAppend(step, profiles[..j], [profiles[j]]);
    assert [profiles[j]][..0] == [];
  }

  /** In "all" mode, once the folder is prepared, every tier other than
      karaoke runs its standard encoder call on the canonical path, into the
      per-input folder, in table order and whatever became of the tiers
      before it, and the request succeeds. */
  lemma AllModeRunsEveryTier(host: Host, input: string, ai: bool, i: nat)
    requires Prepared(host, input)
    requires i < |Table| && Table[i].name != "karaoke"
    ensures var path := host.canonicalize(input).value;
            var stem := FileStem(path).value;
            var folder := OutputFolder(stem);
            var r := ProcessSpec(host, input, AllRequest, ai);
            && r.outcome == Pass
            && r.effects[0] == MakeDirs(folder)
            && Run(Invocation(Invocations.Encoder, Invocations.StandardArgs(Table[i], path, FinalOutput(folder, stem, Table[i]))))
                 in r.effects
  {
    var path := host.canonicalize(input).value;
    var folder := OutputFolder(FileStem(path).value);
    StandardTierConversion(host, path, i, folder, ai);
    TierInFanOut(host, path, folder, ai, Table, i);
  }

  /** A single request for a name outside the table (other than "all")
      still creates the output folder, then fails with InvalidProfile
      without running anything. */
  lemma UnknownSingleRequest(host: Host, input: string, request: string, ai: bool)
    requires Prepared(host, input)
    requires request != AllRequest && forall p | p in Table :: p.name != request
    ensures ProcessSpec(host, input, request, ai)
              == Attempt([MakeDirs(OutputFolder(FileStem(host.canonicalize(input).value).value))], Fail(InvalidProfile))
  {
  }

  /** An input that resolves to the root directory has no file stem, and
      the request panics before creating anything. */
  lemma RootInputPanics(host: Host, input: string, request: string, ai: bool)
    requires host.canonicalize(input) == Some("/")
    ensures ProcessSpec(host, input, request, ai) == Attempt([], Panic)
  {
    ComponentStartAt("/", 1);
  }

  /** In "all" mode with AI karaoke, the karaoke step runs after the low,
      mid and high tiers. If the separator succeeds and the folder listing
      shows an earlier tier's output first, that output is renamed to the
      karaoke file name. */
  lemma AllModeKaraokeTakesTierOutput(host: Host, input: string, i: nat, rest: seq<DirEntry>)
    requires Prepared(host, input)
    requires i < |Table| && Table[i].name != "karaoke"
    requires var path := host.canonicalize(input).value;
             var folder := OutputFolder(FileStem(path).value);
             && host.status(SeparatorCall(path, folder)) == Exited(true)
             && host.readDir(folder) == Some([Named(OutputFileName(FileStem(path).value, Table[i]))] + rest)
    ensures var path := host.canonicalize(input).value;
            var stem := FileStem(path).value;
            var folder := OutputFolder(stem);
            Move(Join(folder, OutputFileName(stem, Table[i])), FinalOutput(folder, stem, Karaoke))
              in ProcessSpec(host, input, AllRequest, true).effects
  {
    var path := host.canonicalize(input).value;
    var folder := OutputFolder(FileStem(path).value);
    KaraokeCanTakeTierOutput(host, path, folder, i, rest);
    assert Table[3].name == "karaoke";
    TierInFanOut(host, path, folder, true, Table, 3);
  }
}
