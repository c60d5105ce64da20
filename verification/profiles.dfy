/**
 * Profiles and the mapping search (findMapping and loadProfiles in
 * src/profiles/ProfileManager.js): a profile's ordered mappings, the first
 * one matching an event, and the insertion-ordered table of loaded profiles.
 */
module Profiles {
  import opened Wrappers
  import opened Midi
  import opened Actions

  datatype Mapping = Mapping(midi: Pattern, action: Action)

  /** A profile file's content; `mappings` left out reads as `[]`. */
  datatype Profile = Profile(mappings: seq<Mapping>)

  /** findMapping: the first mapping, in declared order, whose pattern matches the event. */
  function FindMapping(mappings: seq<Mapping>, e: MidiEvent): (r: Option<Mapping>)
    ensures r.None? <==> forall i :: 0 <= i < |mappings| ==> !Matches(mappings[i].midi, e)
    ensures r.Some? ==> exists i :: 0 <= i < |mappings| && mappings[i] == r.value && Matches(r.value.midi, e)
                                    && forall j :: 0 <= j < i ==> !Matches(mappings[j].midi, e)
    decreases |mappings|
  {
    if mappings == [] then None
    else if Matches(mappings[0].midi, e) then Some(mappings[0])
    else
      var r := FindMapping(mappings[1..], e);
      assert forall i :: 0 < i < |mappings| ==> mappings[i] == mappings[1..][i - 1];
      r
  }

  /** Searching a concatenation searches the first list, then the second. */
  lemma {:induction false} FindMappingAppend(front: seq<Mapping>, back: seq<Mapping>, e: MidiEvent)
    ensures FindMapping(front + back, e) ==
              if FindMapping(front, e).Some? then FindMapping(front, e) else FindMapping(back, e)
    decreases |front|
  {
    if front == [] {
      assert front + back == back;
    } else {
      assert (front + back)[1..] == front[1..] + back;
      FindMappingAppend(front[1..], back, e);
    }
  }

  /** Mappings that never match can be added at the end without changing any lookup. */
  lemma UnmatchedSuffixIrrelevant(mappings: seq<Mapping>, extra: seq<Mapping>, e: MidiEvent)
    requires FindMapping(mappings, e).Some?
    ensures FindMapping(mappings + extra, e) == FindMapping(mappings, e)
  {
    FindMappingAppend(mappings, extra, e);
  }

  /**
   * The `profiles` Map: names in insertion order and the entry of each.
   * Setting an existing name replaces its entry and keeps its position.
   */
  datatype ProfileTable = ProfileTable(order: seq<string>, entries: map<string, Profile>) {
    ghost predicate Valid() {
      && (forall i, j :: 0 <= i < j < |order| ==> order[i] != order[j])
      && (forall name :: name in entries <==> name in order)
    }

    function Set(name: string, profile: Profile): (r: ProfileTable)
      ensures Valid() ==> r.Valid()
      ensures r.entries == entries[name := profile]
      ensures name in entries ==> r.order == order
      ensures name !in entries ==> r.order == order + [name]
    {
      ProfileTable(if name in entries then order else order + [name], entries[name := profile])
    }
  }

  const EmptyTable := ProfileTable([], map[])

  /** A profile file: its base name, and its parsed content or None when it could not be read or parsed. */
  datatype ProfileFile = ProfileFile(name: string, parsed: Option<Profile>)

  /** The table after loading `files` in order: later files with the same name win, unreadable ones are skipped. */
  function LoadAll(t: ProfileTable, files: seq<ProfileFile>): (r: ProfileTable)
    ensures t.Valid() ==> r.Valid()
    decreases |files|
  {
    if files == [] then t
    else
      var before := LoadAll(t, files[..|files| - 1]);
      var last := files[|files| - 1];
      if last.parsed.Some? then before.Set(last.name, last.parsed.value) else before
  }

  /** The names of the files that parsed. */
  function ParsedNames(files: seq<ProfileFile>): set<string>
    decreases |files|
  {
    if files == [] then {}
    else ParsedNames(files[..|files| - 1]) + (if files[|files| - 1].parsed.Some? then {files[|files| - 1].name} else {})
  }

  /** Loading adds exactly the names of the files that parsed. */
  lemma {:induction false} LoadAllKeys(t: ProfileTable, files: seq<ProfileFile>)
    ensures LoadAll(t, files).entries.Keys == t.entries.Keys + ParsedNames(files)
    decreases |files|
  {
    if files != [] {
      LoadAllKeys(t, files[..|files| - 1]);
    }
  }

  /** A loaded entry is the content of the last file of that name that parsed. */
  lemma {:induction false} LoadAllLastWins(t: ProfileTable, files: seq<ProfileFile>, k: nat)
    requires k < |files| && files[k].parsed.Some?
    requires forall j :: k < j < |files| ==> files[j].name != files[k].name || files[j].parsed.None?
    ensures files[k].name in LoadAll(t, files).entries
    ensures LoadAll(t, files).entries[files[k].name] == files[k].parsed.value
    decreases |files|
  {
    if k < |files| - 1 {
      var front := files[..|files| - 1];
      assert front[k] == files[k];
      LoadAllLastWins(t, front, k);
    }
  }

  /** Loading never reorders names already loaded: the first name stays first. */
  lemma {:induction false} LoadAllKeepsOrder(t: ProfileTable, files: seq<ProfileFile>)
    ensures |LoadAll(t, files).order| >= |t.order|
    ensures LoadAll(t, files).order[..|t.order|] == t.order
    decreases |files|
  {
    if files != [] {
      LoadAllKeepsOrder(t, files[..|files| - 1]);
    }
  }

  /** Into an empty table, the first name in order is the first file that parsed. */
  lemma {:induction false} FirstLoadedFirst(files: seq<ProfileFile>, k: nat)
    requires k < |files| && files[k].parsed.Some?
    requires forall j :: 0 <= j < k ==> files[j].parsed.None?
    ensures LoadAll(EmptyTable, files).order != []
    ensures LoadAll(EmptyTable, files).order[0] == files[k].name
    decreases |files|
  {
    if |files| - 1 == k {
      EmptyBeforeFirst(files[..k]);
    } else {
      var front := files[..|files| - 1];
      assert front[k] == files[k];
      FirstLoadedFirst(front, k);
      LoadAllKeepsOrder(LoadAll(EmptyTable, front), [files[|files| - 1]]);
      assert [files[|files| - 1]][..0] == [];
    }
  }

  /** Files that all failed to parse load nothing. */
  lemma {:induction false} EmptyBeforeFirst(files: seq<ProfileFile>)
    requires forall j :: 0 <= j < |files| ==> files[j].parsed.None?
    ensures LoadAll(EmptyTable, files) == EmptyTable
    decreases |files|
  {
    if files != [] {
      EmptyBeforeFirst(files[..|files| - 1]);
    }
  }
}
