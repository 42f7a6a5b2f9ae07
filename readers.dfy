/** Reference readings of the argument vectors: how the encoder and the
    separator take apart the options they are given. Each reader is strict
    (an option given twice, an unknown word or a missing value makes the
    vector unreadable), so a successful reading also shows that every option
    occurs at most once. The round-trip lemmas say that each vector the
    converter builds reads back as exactly the request it stands for. */
module Readers {
  import opened Outcomes
  import opened Profiles
  import opened Invocations

  /** What an encoder call asks for. */
  datatype EncodeRequest = EncodeRequest(
    overwrite: bool,           // -y
    input: Option<string>,     // -i
    filter: Option<string>,    // -af
    duration: Option<string>,  // -t
    codec: Option<string>,     // -c:a
    bitrate: Option<string>,   // -b:a
    hideBanner: bool,          // -hide_banner
    logLevel: Option<string>)  // -loglevel

  const NoOptions: EncodeRequest := EncodeRequest(false, None, None, None, None, None, false, None)

  /** Reads encoder options from the front of `opts` into `acc`. */
  function ReadEncoderOptions(opts: seq<string>, acc: EncodeRequest): Option<EncodeRequest>
    decreases |opts|
  {
    if opts == [] then Some(acc)
    else if opts[0] == "-y" then
      if acc.overwrite then None else ReadEncoderOptions(opts[1..], acc.(overwrite := true))
    else if opts[0] == "-hide_banner" then
      if acc.hideBanner then None else ReadEncoderOptions(opts[1..], acc.(hideBanner := true))
    else if |opts| < 2 then None
    else
      var v, rest := opts[1], opts[2..];
      if opts[0] == "-i" && acc.input.None? then ReadEncoderOptions(rest, acc.(input := Some(v)))
      else if opts[0] == "-af" && acc.filter.None? then ReadEncoderOptions(rest, acc.(filter := Some(v)))
      else if opts[0] == "-t" && acc.duration.None? then ReadEncoderOptions(rest, acc.(duration := Some(v)))
      else if opts[0] == "-c:a" && acc.codec.None? then ReadEncoderOptions(rest, acc.(codec := Some(v)))
      else if opts[0] == "-b:a" && acc.bitrate.None? then ReadEncoderOptions(rest, acc.(bitrate := Some(v)))
      else if opts[0] == "-loglevel" && acc.logLevel.None? then ReadEncoderOptions(rest, acc.(logLevel := Some(v)))
      else None
  }

  /** Reads a whole encoder call: options, then the output path last. */
  function ReadEncoderArgs(args: seq<string>): Option<(EncodeRequest, string)>
  {
    if args == [] then None
    else match ReadEncoderOptions(args[..|args| - 1], NoOptions)
      case Some(r) => Some((r, args[|args| - 1]))
      case None => None
  }

  /** A flag that takes no value is read and the rest follows. */
  lemma ReadFlag(f: string, rest: seq<string>, acc: EncodeRequest, next: EncodeRequest)
    requires (f == "-y" && !acc.overwrite && next == acc.(overwrite := true))
          || (f == "-hide_banner" && !acc.hideBanner && next == acc.(hideBanner := true))
    ensures ReadEncoderOptions([f] + rest, acc) == ReadEncoderOptions(rest, next)
  {
    assert ([f] + rest)[1..] == rest;
  }

  /** An option with its value is read and the rest follows. */
  lemma ReadValued(f: string, v: string, rest: seq<string>, acc: EncodeRequest, next: EncodeRequest)
    requires
      || (f == "-i" && acc.input.None? && next == acc.(input := Some(v)))
      || (f == "-af" && acc.filter.None? && next == acc.(filter := Some(v)))
      || (f == "-t" && acc.duration.None? && next == acc.(duration := Some(v)))
      || (f == "-c:a" && acc.codec.None? && next == acc.(codec := Some(v)))
      || (f == "-b:a" && acc.bitrate.None? && next == acc.(bitrate := Some(v)))
      || (f == "-loglevel" && acc.logLevel.None? && next == acc.(logLevel := Some(v)))
    ensures ReadEncoderOptions([f, v] + rest, acc) == ReadEncoderOptions(rest, next)
  {
    assert ([f, v] + rest)[2..] == rest;
  }

  /** The request a standard call stands for. */
  function StandardRequest(p: Profile, input: string): EncodeRequest
  {
    EncodeRequest(true, Some(input), None,
                  if p.name == "preview" then Some(PreviewSeconds) else None,
                  Some(p.codec), p.bitrate, true, Some("error"))
  }

  /** Every standard call reads back as its request and its output path, for
      every profile and whatever the paths look like: the duration limit is
      there exactly for the preview tier, the bitrate exactly when the
      profile has one, each at most once. */
  lemma {:induction false} StandardArgsRoundTrip(p: Profile, input: string, output: string)
    ensures ReadEncoderArgs(StandardArgs(p, input, output)) == Some((StandardRequest(p, input), output))
  {
    var args := StandardArgs(p, input, output);
    var s3 := ["-c:a", p.codec] + BitratePart(p.bitrate) + Trailer;
    var s2 := DurationPart(p) + s3;
    var s1 := ["-i", input] + s2;
    assert args[..|args| - 1] == ["-y"] + s1;
    var a1 := NoOptions.(overwrite := true);
    ReadFlag("-y", s1, NoOptions, a1);
    var a2 := a1.(input := Some(input));
    ReadValued("-i", input, s2, a1, a2);
    var a3 := a2.(duration := StandardRequest(p, input).duration);
    if p.name == "preview" {
      ReadValued("-t", PreviewSeconds, s3, a2, a3);
    } else {
      assert s2 == s3 && a3 == a2;
    }
    ReadEncoding(p.codec, p.bitrate, a3);
  }

  /** Codec, optional bitrate and trailer read as such. */
  lemma ReadEncoding(codec: string, bitrate: Option<string>, acc: EncodeRequest)
    requires acc.codec.None? && acc.bitrate.None? && !acc.hideBanner && acc.logLevel.None?
    ensures ReadEncoderOptions(["-c:a", codec] + BitratePart(bitrate) + Trailer, acc)
         == Some(acc.(codec := Some(codec), bitrate := bitrate, hideBanner := true, logLevel := Some("error")))
  {
    var a4 := acc.(codec := Some(codec));
    ReadValued("-c:a", codec, BitratePart(bitrate) + Trailer, acc, a4);
    var a5 := a4.(bitrate := bitrate);
    if bitrate.Some? {
      ReadValued("-b:a", bitrate.value, Trailer, a4, a5);
    } else {
      assert BitratePart(bitrate) + Trailer == Trailer;
    }
    ReadTrailer(a5);
  }

  /** The trailer reads as banner hidden and log level "error". */
  lemma ReadTrailer(acc: EncodeRequest)
    requires !acc.hideBanner && acc.logLevel.None?
    ensures ReadEncoderOptions(Trailer, acc) == Some(acc.(hideBanner := true, logLevel := Some("error")))
  {
    var a6 := acc.(hideBanner := true);
    assert Trailer == ["-hide_banner"] + ["-loglevel", "error"];
    ReadFlag("-hide_banner", ["-loglevel", "error"], acc, a6);
    assert ["-loglevel", "error"] == ["-loglevel", "error"] + [];
    ReadValued("-loglevel", "error", [], a6, a6.(logLevel := Some("error")));
  }

  /** The fast karaoke call reads back as the karaoke tier's request with the
      filter graph added, whatever the paths look like. */
  lemma {:induction false} KaraokeFastArgsRoundTrip(input: string, output: string)
    ensures ReadEncoderArgs(KaraokeFastArgs(input, output))
         == Some((StandardRequest(Karaoke, input).(filter := Some(KaraokeFilter)), output))
  {
    var args := KaraokeFastArgs(input, output);
    var s3 := ["-c:a", "libmp3lame"] + BitratePart(Some("320k")) + Trailer;
    var s2 := ["-af", KaraokeFilter] + s3;
    var s1 := ["-i", input] + s2;
    assert args[..|args| - 1] == ["-y"] + s1;
    var a1 := NoOptions.(overwrite := true);
    ReadFlag("-y", s1, NoOptions, a1);
    var a2 := a1.(input := Some(input));
    ReadValued("-i", input, s2, a1, a2);
    var a3 := a2.(filter := Some(KaraokeFilter));
    ReadValued("-af", KaraokeFilter, s3, a2, a3);
    ReadEncoding("libmp3lame", Some("320k"), a3);
  }

  /** What a separator call asks for. */
  datatype SeparateRequest = SeparateRequest(
    input: Option<string>,      // the one positional argument
    model: Option<string>,      // --model_name
    format: Option<string>,     // --output_format
    outputDir: Option<string>,  // --output_dir
    instrumentalOnly: bool)     // --instrumental_only

  /** A word the separator takes for an option rather than a path. */
  predicate LooksLikeOption(w: string)
  {
    |w| > 0 && w[0] == '-'
  }

  /** Reads separator arguments from the front of `args` into `acc`. */
  function ReadSeparatorOptions(args: seq<string>, acc: SeparateRequest): Option<SeparateRequest>
    decreases |args|
  {
    if args == [] then Some(acc)
    else if args[0] == "--instrumental_only" then
      if acc.instrumentalOnly then None
      else ReadSeparatorOptions(args[1..], acc.(instrumentalOnly := true))
    else if !LooksLikeOption(args[0]) then
      if acc.input.Some? then None
      else ReadSeparatorOptions(args[1..], acc.(input := Some(args[0])))
    else if |args| < 2 then None
    else
      var v, rest := args[1], args[2..];
      if args[0] == "--model_name" && acc.model.None? then ReadSeparatorOptions(rest, acc.(model := Some(v)))
      else if args[0] == "--output_format" && acc.format.None? then ReadSeparatorOptions(rest, acc.(format := Some(v)))
      else if args[0] == "--output_dir" && acc.outputDir.None? then ReadSeparatorOptions(rest, acc.(outputDir := Some(v)))
      else None
  }

  /** The separator call reads back as: this input, the fixed model, MP3
      output into `outDir`, instrumental track only. The input must not look
      like an option (a canonical path is absolute, so it starts with '/'). */
  lemma {:induction false} SeparatorArgsRoundTrip(input: string, outDir: string)
    requires !LooksLikeOption(input)
    ensures ReadSeparatorOptions(SeparatorArgs(input, outDir), SeparateRequest(None, None, None, None, false))
         == Some(SeparateRequest(Some(input), Some(SeparatorModel), Some("MP3"), Some(outDir), true))
  {
    var args := SeparatorArgs(input, outDir);
    var r0 := SeparateRequest(None, None, None, None, false);
    var r1 := r0.(input := Some(input));
    var r2 := r1.(model := Some(SeparatorModel));
    var r3 := r2.(format := Some("MP3"));
    var r4 := r3.(outputDir := Some(outDir));
    assert args[1..] == ["--model_name", SeparatorModel, "--output_format", "MP3", "--output_dir", outDir, "--instrumental_only"];
    assert ReadSeparatorOptions(args, r0) == ReadSeparatorOptions(args[1..], r1);
    assert args[3..] == ["--output_format", "MP3", "--output_dir", outDir, "--instrumental_only"];
    assert ReadSeparatorOptions(args[1..], r1) == ReadSeparatorOptions(args[3..], r2);
    assert args[5..] == ["--output_dir", outDir, "--instrumental_only"];
    assert ReadSeparatorOptions(args[3..], r2) == ReadSeparatorOptions(args[5..], r3);
    assert args[7..] == ["--instrumental_only"];
    assert ReadSeparatorOptions(args[5..], r3) == ReadSeparatorOptions(args[7..], r4);
  }

  /** Number of occurrences of `w` in `s`. */
  function Count(s: seq<string>, w: string): nat
  {
    if s == [] then 0 else (if s[0] == w then 1 else 0) + Count(s[1..], w)
  }

  lemma {:induction false} CountAppend(a: seq<string>, b: seq<string>, w: string)
    ensures Count(a + b, w) == Count(a, w) + Count(b, w)
  {
    if a == [] {
      assert a + b == b;
    } else {
      assert (a + b)[1..] == a[1..] + b;
      CountAppend(a[1..], b, w);
    }
  }

  /** The option words of a standard call: everything but the input path
      (third) and the output path (last), which are opaque. */
  function OptionWords(args: seq<string>): seq<string>
    requires |args| >= 4
  {
    args[..2] + args[3..|args| - 1]
  }

  /** Counted directly: a standard call holds "-b:a" exactly once when the
      profile has a bitrate and never otherwise, and "-t" exactly once for the
      preview tier and never otherwise. */
  lemma StandardArgsOptionCounts(p: Profile, input: string, output: string)
    requires p.codec !in {"-b:a", "-t"}
    requires p.bitrate.Some? ==> p.bitrate.value !in {"-b:a", "-t"}
    ensures var w := OptionWords(StandardArgs(p, input, output));
            && Count(w, "-b:a") == (if p.bitrate.Some? then 1 else 0)
            && Count(w, "-t") == (if p.name == "preview" then 1 else 0)
  {
    CountOptionWords(p, input, output, "-b:a");
    CountOptionWords(p, input, output, "-t");
    CountPair("-t", PreviewSeconds, "-t");
    CountPair("-t", PreviewSeconds, "-b:a");
    if p.bitrate.Some? {
      CountPair("-b:a", p.bitrate.value, "-t");
      CountPair("-b:a", p.bitrate.value, "-b:a");
    }
  }

  /** A word other than the fixed ones and the codec occurs in the option
      words only inside the duration and bitrate parts. */
  lemma CountOptionWords(p: Profile, input: string, output: string, x: string)
    requires x !in {"-y", "-i", "-c:a", "-hide_banner", "-loglevel", "error"} && x != p.codec
    ensures Count(OptionWords(StandardArgs(p, input, output)), x)
         == Count(DurationPart(p), x) + Count(BitratePart(p.bitrate), x)
  {
    var args := StandardArgs(p, input, output);
    var d, b := DurationPart(p), BitratePart(p.bitrate);
    var e := ["-c:a", p.codec] + b;
    assert args == ["-y", "-i", input] + (d + e + Trailer) + [output];
    assert OptionWords(args) == ["-y", "-i"] + d + e + Trailer;
    CountAppend(["-y", "-i"], d, x);
    CountAppend(["-y", "-i"] + d, e, x);
    CountAppend(["-c:a", p.codec], b, x);
    CountAppend(["-y", "-i"] + d + e, Trailer, x);
    CountPair("-y", "-i", x);
    CountPair("-c:a", p.codec, x);
    assert Trailer == ["-hide_banner"] + ["-loglevel", "error"];
    CountAppend(["-hide_banner"], ["-loglevel", "error"], x);
    CountPair("-loglevel", "error", x);
    assert Count(["-hide_banner"], x) == 0 by {
      assert ["-hide_banner"][1..] == [];
    }
  }

  lemma CountPair(a: string, b: string, w: string)
    ensures Count([a, b], w) == (if a == w then 1 else 0) + (if b == w then 1 else 0)
  {
    assert [a, b][1..] == [b];
    assert [b][1..] == [];
    assert Count([b], w) == (if b == w then 1 else 0) + Count([], w);
  }
}
