/** The fixed, ordered table of quality profiles and the lookup by name that
    `convert_file` performs on it. */
module Profiles {
  import opened Outcomes

  /** A quality preset: name (the lookup key), container extension, encoder
      identifier and optional bitrate. */
  datatype Profile = Profile(name: string, ext: string, codec: string, bitrate: Option<string>)

  /** The five presets, in table order (that order drives "all" mode). */
  const Table: seq<Profile> := [
    Profile("low", "mp3", "libmp3lame", Some("64k")),
    Profile("mid", "mp3", "libmp3lame", Some("160k")),
    Profile("high", "mp3", "libmp3lame", Some("320k")),
    Profile("karaoke", "mp3", "libmp3lame", Some("320k")),
    Profile("preview", "mp3", "libmp3lame", Some("96k"))
  ]

  const Karaoke: Profile := Table[3]

  /** The first profile of `table` whose name is `name` (iterator `find`). */
  function Find(table: seq<Profile>, name: string): (r: Option<Profile>)
    ensures r.Some? ==> r.value in table && r.value.name == name
    ensures r.None? <==> forall p | p in table :: p.name != name
  {
    if table == [] then None
    else if table[0].name == name then Some(table[0])
    else Find(table[1..], name)
  }

  /** Profile lookup as `convert_file` does it: the table's first match. */
  function Lookup(name: string): (r: Option<Profile>)
    ensures r.Some? <==> exists i | 0 <= i < |Table| :: Table[i].name == name
    ensures r.Some? ==> r.value in Table && r.value.name == name
  {
    Find(Table, name)
  }

  /** Find returns the entry at the first index whose name matches. */
  lemma {:induction false} FindFirst(table: seq<Profile>, name: string, i: nat)
    requires i < |table| && table[i].name == name
    requires forall j | 0 <= j < i :: table[j].name != name
    ensures Find(table, name) == Some(table[i])
  {
    if i > 0 {
      FindFirst(table[1..], name, i - 1);
    }
  }

  /** No two entries of the table share a name. */
  lemma NamesDistinct()
    ensures forall i, j | 0 <= i < j < |Table| :: Table[i].name != Table[j].name
  {
  }

  /** Looking up the name of a table entry gives back that very entry. */
  lemma LookupEachProfile(i: nat)
    requires i < |Table|
    ensures Lookup(Table[i].name) == Some(Table[i])
  {
    NamesDistinct();
    FindFirst(Table, Table[i].name, i);
  }

  /** Exactly one entry is the karaoke preset, and every entry targets mp3
      with the LAME encoder at a fixed bitrate. */
  lemma TableShape()
    ensures forall i | 0 <= i < |Table| :: Table[i].name == "karaoke" <==> i == 3
    ensures forall p | p in Table :: p.ext == "mp3" && p.codec == "libmp3lame" && p.bitrate.Some?
  {
  }
}
