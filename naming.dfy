/** Where the converter writes: one folder per input stem under "output",
    and one file per profile named `{stem}_{profile}.mp3` inside it. */
module Naming {
  import opened Outcomes
  import opened Profiles
  import opened Paths

  /** The relative root every per-input folder is created under. */
  const OutputRoot: string := "output"

  /** The per-input output folder, `output/{stem}`. */
  function OutputFolder(stem: string): string
  {
    Join(OutputRoot, stem)
  }

  /** The output file name for a profile. The ".mp3" suffix is fixed: the
      profile's own `ext` field plays no part. */
  function OutputFileName(stem: string, p: Profile): string
  {
    stem + "_" + p.name + ".mp3"
  }

  /** The full output path of a conversion into `outDir`. */
  function FinalOutput(outDir: string, stem: string, p: Profile): string
  {
    Join(outDir, OutputFileName(stem, p))
  }

  /** Whatever the profile's `ext` says, the output is a file named after the
      stem and the profile, with extension "mp3" and stem `{stem}_{name}`. */
  lemma FinalOutputShape(outDir: string, stem: string, p: Profile)
    requires Sep !in stem && Sep !in p.name && '.' !in p.name
    ensures FileName(FinalOutput(outDir, stem, p)) == Some(OutputFileName(stem, p))
    ensures Extension(FinalOutput(outDir, stem, p)) == Some("mp3")
    ensures FileStem(FinalOutput(outDir, stem, p)) == Some(stem + "_" + p.name)
  {
    OutputFileNameSplit(stem, p);
    FileNameOfJoin(outDir, OutputFileName(stem, p));
  }

  /** The output file name has no separator, and its last dot comes right
      after `{stem}_{name}` and right before "mp3". */
  lemma {:induction false} OutputFileNameSplit(stem: string, p: Profile)
    requires Sep !in stem && Sep !in p.name && '.' !in p.name
    ensures var name, d := OutputFileName(stem, p), |stem| + 1 + |p.name|;
            && Sep !in name && name !in {"", ".", ".."}
            && SplitAtDot(name) == (stem + "_" + p.name, Some("mp3"))
  {
    var name := OutputFileName(stem, p);
    var d := |stem| + 1 + |p.name|;
    assert name == (stem + "_" + p.name) + "." + "mp3";
    assert name[d] == '.' && name[d + 1..] == "mp3" && name[..d] == stem + "_" + p.name;
    assert Sep !in name by {
      forall i | 0 <= i < |name| ensures name[i] != Sep {
        if i < |stem| { assert name[i] == stem[i]; }
        else if |stem| < i < d { assert name[i] == p.name[i - |stem| - 1]; }
      }
    }
    assert |name| == d + 4 && name[d + 1] == 'm' && name[d + 2] == 'p' && name[d + 3] == '3';
    LastDotAt(name, d);
  }

  /** Two profiles of the table never share an output file: "all" mode
      writes five different files. */
  lemma OutputNamesDistinct(stem: string, i: nat, j: nat)
    requires i < |Table| && j < |Table| && i != j
    ensures OutputFileName(stem, Table[i]) != OutputFileName(stem, Table[j])
  {
    var k := |stem| + 1;
    assert OutputFileName(stem, Table[i])[k..k + |Table[i].name|] == Table[i].name;
    NamesDistinct();
  }

  /** The per-input folder's own name is the stem. */
  lemma OutputFolderName(stem: string)
    requires Sep !in stem && stem !in {"", ".", ".."}
    ensures FileName(OutputFolder(stem)) == Some(stem)
    ensures OutputFolder(stem) == "output/" + stem
  {
    FileNameOfJoin(OutputRoot, stem);
  }
}
