/** `is_audio_file`: a path is an audio input when its extension, lowercased,
    is on a fixed allow-list. */
module Classifier {
  import opened Outcomes
  import opened Paths

  const AudioExtensions: seq<string> := ["mp3", "wav", "flac", "ogg", "m4a", "aac"]

  /** ASCII lowercasing of one character. */
  function LowerChar(c: char): char
  {
    if 'A' <= c <= 'Z' then (c as int + 32) as char else c
  }

  /** ASCII lowercasing of a string, character by character. */
  function ToLowerAscii(s: string): (r: string)
    ensures |r| == |s|
    ensures forall i | 0 <= i < |s| :: r[i] == LowerChar(s[i])
  {
    if s == [] then [] else [LowerChar(s[0])] + ToLowerAscii(s[1..])
  }

  predicate IsAudioFile(path: string)
  {
    match Extension(path)
    case Some(e) => ToLowerAscii(e) in AudioExtensions
    case None => false
  }

  /** An audio file has a non-empty stem, and its file name is that stem, a
      dot and an extension of three or four characters free of dots. */
  lemma AudioFileShape(path: string)
    requires IsAudioFile(path)
    ensures FileStem(path).Some? && FileStem(path).value != ""
    ensures FileName(path) == Some(FileStem(path).value + "." + Extension(path).value)
    ensures 3 <= |Extension(path).value| <= 4
  {
    StemDotExtension(path);
  }

  /** A file name without a dot after its first character (no dot at all, or
      only the leading dot of a hidden file) is never an audio file. */
  lemma {:induction false} NoInnerDotRejected(path: string)
    requires FileName(path).Some?
    requires forall i | 0 < i < |FileName(path).value| :: FileName(path).value[i] != '.'
    ensures !IsAudioFile(path)
  {
    ExtensionIffInnerDot(path);
  }

  /** Any spelling of an allowed extension, in any mix of ASCII case, after a
      non-empty stem and in any directory, is accepted. */
  lemma {:induction false} AnyCaseAccepted(dir: string, stem: string, ext: string)
    requires stem != [] && Sep !in stem
    requires ToLowerAscii(ext) in AudioExtensions
    ensures IsAudioFile(Join(dir, stem + "." + ext))
  {
    var name := stem + "." + ext;
    AllowedExtensionChars(ext);
    assert Sep !in name by {
      forall i | 0 <= i < |name| ensures name[i] != Sep {
        if i > |stem| { assert name[i] == ext[i - |stem| - 1]; }
      }
    }
    assert |name| >= 3;
    FileNameOfJoin(dir, name);
    var d := |stem|;
    assert name[d] == '.';
    assert forall i | d < i < |name| :: name[i] == ext[i - d - 1];
    LastDotAt(name, d);
    assert name[d + 1..] == ext;
  }

  /** An extension whose lowercase form is allowed is made of letters and
      digits only, so it holds neither a dot nor a separator. */
  lemma AllowedExtensionChars(ext: string)
    requires ToLowerAscii(ext) in AudioExtensions
    ensures '.' !in ext && Sep !in ext && ext != []
  {
    var lo := ToLowerAscii(ext);
    assert "" !in AudioExtensions;
    assert LowerAlnum(lo);
    forall i | 0 <= i < |ext| ensures ext[i] != '.' && ext[i] != Sep {
      assert lo[i] == LowerChar(ext[i]);
    }
  }

  /** Lowercase ASCII letters and digits only. */
  predicate LowerAlnum(s: string)
  {
    forall i | 0 <= i < |s| :: 'a' <= s[i] <= 'z' || '0' <= s[i] <= '9'
  }

}

/** Worked cases of the classifier. */
module ClassifierExamples {
  import opened Paths
  import opened Classifier

  /** An upper-case extension is accepted. */
  lemma UpperCaseExample()
    ensures IsAudioFile("track.MP3")
  {
    ComponentStartAt("track.MP3", 0);
    LastDotAt("track.MP3", 5);
    assert "track.MP3"[6..] == "MP3";
    assert ToLowerAscii("MP3") == "mp3";
  }

  /** Only the final component counts: a dot in a directory name is no
      extension. */
  lemma DirectoryDotExample()
    ensures !IsAudioFile("music.mp3/README")
  {
    var q := "music.mp3/README";
    ComponentStartAt(q, 10);
    assert q[10..] == "README";
    NoInnerDotRejected(q);
  }

  /** An extension in mixed case behind a dotted directory is accepted. */
  lemma NestedPathExample()
    ensures IsAudioFile("music/Album.v2/Intro.Wav")
  {
    var p := "music/Album.v2/Intro.Wav";
    ComponentStartAt(p, 15);
    assert p[15..] == "Intro.Wav";
    LastDotAt("Intro.Wav", 5);
    assert "Intro.Wav"[6..] == "Wav";
    assert ToLowerAscii("Wav") == "wav";
  }

  /** A hidden file named like an extension has none. */
  lemma HiddenFileExample()
    ensures !IsAudioFile(".mp3")
  {
    ComponentStartAt(".mp3", 0);
    NoInnerDotRejected(".mp3");
  }

  /** An extension off the allow-list is rejected. */
  lemma ForeignExtensionExample()
    ensures !IsAudioFile("notes.txt")
  {
    ComponentStartAt("notes.txt", 0);
    LastDotAt("notes.txt", 5);
    assert "notes.txt"[6..] == "txt";
    assert ToLowerAscii("txt") == "txt";
  }
}
