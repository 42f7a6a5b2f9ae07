/** The three subprocess invocations `convert_file` builds: the standard
    encoder call, the fixed fast-karaoke encoder call, and the vocal
    separator call. The standard one is built by appending to a mutable
    command builder, as the source does. */
module Invocations {
  import opened Outcomes
  import opened Profiles

  const Encoder: string := "ffmpeg"
  const SeparatorProgram: string := "audio-separator"

  /** Length, in seconds, of the preview tier. */
  const PreviewSeconds: string := "40"

  /** The fast karaoke filter graph: split, low band kept, high band
      centre-cancelled, weighted remix with makeup gain. Used verbatim. */
  const KaraokeFilter: string := "asplit[a][b]; [a]lowpass=f=200[low]; [b]highpass=f=200,pan=mono|c0=c0-c1[high]; [low][high]amix=inputs=2:weights=1 -0.8,volume=1.25"

  const SeparatorModel: string := "UVR-MDX-NET-Inst_HQ_3"

  /** A subprocess builder: the program and the arguments appended so far. */
  class Command {
    const program: string
    var args: seq<string>

    constructor (program: string)
      ensures this.program == program && args == []
    {
      this.program := program;
      args := [];
    }

    /** Appends one argument. */
    method Arg(a: string)
      modifies this
      ensures args == old(args) + [a]
    {
      args := args + [a];
    }

    function Built(): Invocation
      reads this
    {
      Invocation(program, args)
    }
  }

  /** The duration limit, present for the preview tier only. */
  function DurationPart(p: Profile): seq<string>
  {
    if p.name == "preview" then ["-t", PreviewSeconds] else []
  }

  /** The bitrate option, present when there is a bitrate. */
  function BitratePart(bitrate: Option<string>): seq<string>
  {
    match bitrate
    case Some(b) => ["-b:a", b]
    case None => []
  }

  /** The fixed options every encoder call ends with, before the output. */
  const Trailer: seq<string> := ["-hide_banner", "-loglevel", "error"]

  /** Argument vector of the standard encoder call for profile `p`. */
  function StandardArgs(p: Profile, input: string, output: string): (r: seq<string>)
    ensures |r| == 9 + (if p.name == "preview" then 2 else 0) + (if p.bitrate.Some? then 2 else 0)
    ensures r[..3] == ["-y", "-i", input]
    ensures r[|r| - 4..] == ["-hide_banner", "-loglevel", "error", output]
  {
    ["-y", "-i", input] + DurationPart(p) + ["-c:a", p.codec] + BitratePart(p.bitrate)
    + Trailer + [output]
  }

  /** Builds the standard encoder call step by step on a fresh Command. */
  method BuildStandardCommand(p: Profile, input: string, output: string) returns (inv: Invocation)
    ensures inv == Invocation(Encoder, StandardArgs(p, input, output))
  {
    var cmd := new Command(Encoder);
    cmd.Arg("-y");
    cmd.Arg("-i");
    cmd.Arg(input);
    if p.name == "preview" {
      cmd.Arg("-t");
      cmd.Arg(PreviewSeconds);
    }
    assert cmd.args == ["-y", "-i", input] + DurationPart(p);
    AppendEncoding(cmd, p);
    ghost var options := ["-y", "-i", input] + DurationPart(p) + ["-c:a", p.codec] + BitratePart(p.bitrate);
    assert cmd.args == options;
    cmd.Arg("-hide_banner");
    cmd.Arg("-loglevel");
    cmd.Arg("error");
    cmd.Arg(output);
    inv := cmd.Built();
  }

  /** Appends the codec and, when the profile has one, the bitrate. */
  method AppendEncoding(cmd: Command, p: Profile)
    modifies cmd
    ensures cmd.args == old(cmd.args) + ["-c:a", p.codec] + BitratePart(p.bitrate)
  {
    cmd.Arg("-c:a");
    cmd.Arg(p.codec);
    if p.bitrate.Some? {
      cmd.Arg("-b:a");
      cmd.Arg(p.bitrate.value);
    }
  }

  /** Argument vector of the fast karaoke encoder call. */
  function KaraokeFastArgs(input: string, output: string): seq<string>
  {
    ["-y", "-i", input, "-af", KaraokeFilter, "-c:a", "libmp3lame", "-b:a", "320k",
     "-hide_banner", "-loglevel", "error", output]
  }

  /** Argument vector of the vocal separator call. */
  function SeparatorArgs(input: string, outDir: string): seq<string>
  {
    [input, "--model_name", SeparatorModel, "--output_format", "MP3",
     "--output_dir", outDir, "--instrumental_only"]
  }

  /** The fast karaoke call is the standard call of the karaoke profile with
      the filter graph inserted after the input. */
  lemma FastIsStandardPlusFilter(input: string, output: string)
    ensures var s := StandardArgs(Karaoke, input, output);
            KaraokeFastArgs(input, output) == s[..3] + ["-af", KaraokeFilter] + s[3..]
  {
  }

  /** The fast karaoke call depends on the input only through the two paths:
      every other position is the same for all inputs. */
  lemma FastArgsIndependentOfInput(i1: string, o1: string, i2: string, o2: string)
    ensures var a, b := KaraokeFastArgs(i1, o1), KaraokeFastArgs(i2, o2);
            |a| == |b| == 13 && a[2] == i1 && a[12] == o1
            && forall k | 0 <= k < 13 && k != 2 && k != 12 :: a[k] == b[k]
  {
  }
}
