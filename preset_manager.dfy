/*
 * The preset manager (src/preset/manager.rs): the presets found in the
 * presets directory, kept sorted by name, looked up by exact name, and
 * stored under a file name made safe from the preset's name. The directory
 * listing and the JSON parsing are inputs here: a `PresetDir` is what
 * reading the directory and each file produced.
 */
module PresetManager {
  import opened Common
  import opened Sorting
  import Stages

  /** `Preset` (src/preset/mod.rs). */
  datatype Preset = Preset(
    name: string,
    description: Option<string>,
    author: Option<string>,
    stages: seq<Stages.StageConfig>,
    irName: Option<string>,
    irGain: real)

  // ----- file names -----

  predicate SafeChar(c: char) {
    ('a' <= c <= 'z') || ('A' <= c <= 'Z') || ('0' <= c <= '9') || c == '-' || c == '_'
  }

  /** `sanitize_filename`: keep ASCII letters, digits, '-' and '_'; every other character becomes '_'. */
  function SanitizeFilename(name: string): (r: string)
    ensures |r| == |name|
    ensures forall i :: 0 <= i < |name| ==> r[i] == if SafeChar(name[i]) then name[i] else '_'
  {
    if |name| == 0 then "" else
      SanitizeFilename(name[..|name| - 1]) + [if SafeChar(name[|name| - 1]) then name[|name| - 1] else '_']
  }

  /** Every character of a sanitized name is safe, so it holds no '/' and no '.'. */
  lemma SanitizedIsSafe(name: string)
    ensures forall i :: 0 <= i < |SanitizeFilename(name)| ==> SafeChar(SanitizeFilename(name)[i])
    ensures '/' !in SanitizeFilename(name) && '.' !in SanitizeFilename(name)
  {
  }

  /** Sanitizing twice is sanitizing once. */
  lemma SanitizeIdempotent(name: string)
    ensures SanitizeFilename(SanitizeFilename(name)) == SanitizeFilename(name)
  {
    var once := SanitizeFilename(name);
    assert forall i :: 0 <= i < |once| ==> SafeChar(once[i]);
  }

  /** A name made only of safe characters is its own file name. */
  lemma SanitizeKeepsSafeNames(name: string)
    requires forall i :: 0 <= i < |name| ==> SafeChar(name[i])
    ensures SanitizeFilename(name) == name
  {
  }

  /** `format!("{}.json", sanitize_filename(name))`, the file `save_preset` and `delete_preset` use. */
  function PresetFileName(name: string): string {
    SanitizeFilename(name) + ".json"
  }

  /** `Path::extension` of a file name: what follows its last '.', if that '.' is not its first character. */
  function Extension(fileName: string): Option<string> {
    var dot := LastDot(fileName, |fileName|);
    if dot.Some? && dot.value > 0 then Some(fileName[dot.value + 1..]) else None
  }

  /** The last index below `n` holding a '.'. */
  function LastDot(s: string, n: nat): (r: Option<nat>)
    requires n <= |s|
    ensures r.Some? ==> r.value < n && s[r.value] == '.' && forall k :: r.value < k < n ==> s[k] != '.'
    ensures r.None? ==> forall k :: 0 <= k < n ==> s[k] != '.'
  {
    if n == 0 then None else if s[n - 1] == '.' then Some(n - 1) else LastDot(s, n - 1)
  }

  /** The file a preset is saved to is one `load_presets` reads back: its extension is "json". */
  lemma PresetFileIsJson(name: string)
    requires |name| > 0
    ensures Extension(PresetFileName(name)) == Some("json")
  {
    var f := PresetFileName(name);
    var s := SanitizeFilename(name);
    SanitizedIsSafe(name);
    assert f[|s|] == '.' && f[|s| + 1..] == "json";
    assert forall k :: |s| < k < |f| ==> f[k] != '.';
    assert LastDot(f, |f|) == Some(|s|);
  }

  /** A preset whose name is empty is written to ".json", which has no extension and is not loaded. */
  lemma EmptyNameFileIsSkipped()
    ensures PresetFileName("") == ".json" && Extension(PresetFileName("")) == None
  {
    assert LastDot(".json", 5) == Some(0);
  }

  // ----- lookup -----

  /** `preset_exists`: some preset has exactly this name. */
  function PresetExists(presets: seq<Preset>, name: string): (b: bool)
    ensures b <==> exists i :: 0 <= i < |presets| && presets[i].name == name
  {
    if |presets| == 0 then false
    else presets[0].name == name || PresetExists(presets[1..], name)
  }

  /** `get_preset_by_name`: the first preset with exactly this name. */
  function FindIndex(presets: seq<Preset>, name: string): (r: Option<nat>)
    ensures r.Some? ==> r.value < |presets| && presets[r.value].name == name
    ensures r.Some? ==> forall k :: 0 <= k < r.value ==> presets[k].name != name
    ensures r.None? ==> forall k :: 0 <= k < |presets| ==> presets[k].name != name
  {
    if |presets| == 0 then None
    else if presets[0].name == name then Some(0)
    else
      var rest := FindIndex(presets[1..], name);
      if rest.Some? then Some(rest.value + 1) else None
  }

  function GetPresetByName(presets: seq<Preset>, name: string): (r: Option<Preset>)
    ensures r.Some? ==> r.value in presets && r.value.name == name
  {
    var i := FindIndex(presets, name);
    if i.Some? then Some(presets[i.value]) else None
  }

  /** A preset exists under a name exactly when looking it up finds one. */
  lemma ExistsIffFound(presets: seq<Preset>, name: string)
    ensures PresetExists(presets, name) <==> GetPresetByName(presets, name).Some?
  {
  }

  // ----- loading -----

  /** One directory entry as `read_dir` yields it: an error, or a path with what parsing that file gave. */
  datatype DirEntry = EntryError | Entry(fileName: string, parsed: Option<Preset>)

  /** The presets directory: absent, unreadable, or its entries in listing order. */
  datatype PresetDir = Missing | Unreadable | Listed(entries: seq<DirEntry>)

  /** The presets the loop pushes, in listing order: the JSON files that parse. */
  function Loaded(entries: seq<DirEntry>): seq<Preset> {
    if |entries| == 0 then []
    else
      var e := entries[|entries| - 1];
      Loaded(entries[..|entries| - 1]) + Pushed(e)
  }

  /** What one entry adds to the list. */
  function Pushed(e: DirEntry): seq<Preset> {
    if e.Entry? && Extension(e.fileName) == Some("json") && e.parsed.Some? then [e.parsed.value] else []
  }

  lemma LoadedStep(entries: seq<DirEntry>, i: nat)
    requires i < |entries|
    ensures Loaded(entries[..i + 1]) == Loaded(entries[..i]) + Pushed(entries[i])
  {
    assert entries[..i + 1][..i] == entries[..i];
  }

  function ByName(a: Preset, b: Preset): bool {
    LexLe(a.name, b.name)
  }

  /** `sort_by(|a, b| a.name.cmp(&b.name))`. */
  function SortByName(presets: seq<Preset>): seq<Preset> {
    Sort(presets, ByName)
  }

  lemma ByNameIsTotalPreorder()
    ensures TotalPreorder(ByName)
  {
    forall a: Preset, b: Preset
      ensures ByName(a, b) || ByName(b, a)
    {
      LexTotal(a.name, b.name);
    }
    forall a: Preset, b: Preset, c: Preset | ByName(a, b) && ByName(b, c)
      ensures ByName(a, c)
    {
      LexTrans(a.name, b.name, c.name);
    }
  }

  /** After loading, the presets are in name order and are exactly the loaded ones. */
  lemma SortedAfterLoad(entries: seq<DirEntry>)
    ensures var r := SortByName(Loaded(entries));
      && (forall i, j :: 0 <= i < j < |r| ==> LexLe(r[i].name, r[j].name))
      && multiset(r) == multiset(Loaded(entries))
  {
    ByNameIsTotalPreorder();
    SortSorted(Loaded(entries), ByName);
  }

  /** A JSON file that parsed is among the loaded presets. */
  lemma {:induction false} LoadedHas(entries: seq<DirEntry>, i: nat)
    requires i < |entries| && entries[i].Entry? && entries[i].parsed.Some?
    requires Extension(entries[i].fileName) == Some("json")
    ensures entries[i].parsed.value in Loaded(entries)
  {
    var last := |entries| - 1;
    if i < last {
      LoadedHas(entries[..last], i);
    }
  }

  /**
   * A preset with a nonempty name, read back from the file `save_preset`
   * wrote for it, is in the sorted list that loading produces.
   */
  lemma SavedPresetIsLoaded(p: Preset, entries: seq<DirEntry>)
    requires |p.name| > 0 && Entry(PresetFileName(p.name), Some(p)) in entries
    ensures p in SortByName(Loaded(entries))
  {
    var i :| 0 <= i < |entries| && entries[i] == Entry(PresetFileName(p.name), Some(p));
    PresetFileIsJson(p.name);
    LoadedHas(entries, i);
    SortedAfterLoad(entries);
    assert p in multiset(Loaded(entries));
  }

  /** The first entry that is an error, if any. */
  function FirstError(entries: seq<DirEntry>): (r: Option<nat>)
    ensures r.Some? ==> r.value < |entries| && entries[r.value].EntryError?
    ensures r.Some? ==> forall k :: 0 <= k < r.value ==> entries[k].Entry?
    ensures r.None? ==> forall k :: 0 <= k < |entries| ==> entries[k].Entry?
  {
    if |entries| == 0 then None
    else if entries[0].EntryError? then Some(0)
    else
      var rest := FirstError(entries[1..]);
      if rest.Some? then Some(rest.value + 1) else None
  }

  /** An error entry after only good entries is the first error. */
  lemma FirstErrorAt(entries: seq<DirEntry>, i: nat)
    requires i < |entries| && entries[i].EntryError?
    requires forall k :: 0 <= k < i ==> entries[k].Entry?
    ensures FirstError(entries) == Some(i)
  {
  }

  class Manager {
    const presetsDir: string
    var presets: seq<Preset>

    /** `Manager::new` after the directory exists: load what it holds. */
    constructor (presetsDir: string, dir: PresetDir)
      ensures this.presetsDir == presetsDir
      ensures dir.Missing? ==> presets == []
      ensures dir.Listed? && FirstError(dir.entries).None? ==> presets == SortByName(Loaded(dir.entries))
    {
      this.presetsDir := presetsDir;
      presets := [];
      new;
      var _ := LoadPresets(dir);
    }

    /**
     * `load_presets`: clear the list; an absent directory leaves it empty;
     * otherwise push every JSON file that parses, in listing order, and sort
     * by name. An entry error stops the scan with the presets pushed so far,
     * unsorted.
     */
    method LoadPresets(dir: PresetDir) returns (r: Result<Unit>)
      modifies this`presets
      ensures dir.Missing? ==> presets == [] && r == Ok(Unit)
      ensures dir.Unreadable? ==> presets == [] && r.Err?
      ensures dir.Listed? && FirstError(dir.entries).None? ==> presets == SortByName(Loaded(dir.entries)) && r == Ok(Unit)
      ensures dir.Listed? && FirstError(dir.entries).Some? ==>
        presets == Loaded(dir.entries[..FirstError(dir.entries).value]) && r.Err?
    {
      presets := [];
      if dir.Missing? {
        return Ok(Unit);
      }
      if dir.Unreadable? {
        return Err("cannot read the presets directory");
      }
      var pushed, failed := ScanEntries(dir.entries);
      if failed {
        presets := pushed;
        return Err("cannot read a directory entry");
      }
      presets := SortByName(pushed);
      return Ok(Unit);
    }

    /**
     * The loop of `load_presets`: the presets pushed in listing order, and
     * whether an entry error stopped the scan (at the first error).
     */
    static method ScanEntries(entries: seq<DirEntry>) returns (pushed: seq<Preset>, failed: bool)
      ensures failed <==> FirstError(entries).Some?
      ensures !failed ==> pushed == Loaded(entries)
      ensures failed ==> pushed == Loaded(entries[..FirstError(entries).value])
    {
      pushed := [];
      var i := 0;
      while i < |entries|
        invariant 0 <= i <= |entries|
        invariant forall k :: 0 <= k < i ==> entries[k].Entry?
        invariant pushed == Loaded(entries[..i])
      {
        var entry := entries[i];
        if entry.EntryError? {
          FirstErrorAt(entries, i);
          return pushed, true;
        }
        LoadedStep(entries, i);
        if Extension(entry.fileName) == Some("json") && entry.parsed.Some? {
          pushed := pushed + [entry.parsed.value];
        }
        i := i + 1;
      }
      assert entries[..i] == entries;
      return pushed, false;
    }

    /**
     * `save_preset`: write the preset to `<sanitized name>.json`, then reload
     * the directory (`after` is how it reads once the file is written). A
     * failed write leaves the list as it was.
     */
    method SavePreset(preset: Preset, write: string -> bool, after: PresetDir) returns (r: Result<Unit>)
      modifies this`presets
      ensures !write(PresetFileName(preset.name)) ==> r == Err("Failed to write preset file") && presets == old(presets)
      ensures write(PresetFileName(preset.name)) ==>
        (r.Ok? <==> after.Missing? || (after.Listed? && FirstError(after.entries).None?))
      ensures write(PresetFileName(preset.name)) && after.Listed? && FirstError(after.entries).None? ==>
        presets == SortByName(Loaded(after.entries))
      ensures write(PresetFileName(preset.name)) && after.Listed? && FirstError(after.entries).None?
        && |preset.name| > 0 && Entry(PresetFileName(preset.name), Some(preset)) in after.entries
        ==> preset in presets
    {
      if !write(PresetFileName(preset.name)) {
        return Err("Failed to write preset file");
      }
      r := LoadPresets(after);
      if after.Listed? && |preset.name| > 0 && Entry(PresetFileName(preset.name), Some(preset)) in after.entries {
        SavedPresetIsLoaded(preset, after.entries);
      }
    }

    /**
     * `delete_preset`: a preset whose file does not exist is an error and
     * changes nothing; otherwise the file is removed and the directory
     * reloaded (`after` is how it reads once the file is gone).
     */
    method DeletePreset(name: string, fileExists: string -> bool, remove: string -> bool, after: PresetDir)
      returns (r: Result<Unit>)
      modifies this`presets
      ensures !fileExists(PresetFileName(name)) ==> r == Err("Preset file not found: " + name) && presets == old(presets)
      ensures fileExists(PresetFileName(name)) && !remove(PresetFileName(name)) ==>
        r == Err("Failed to delete preset file") && presets == old(presets)
      ensures fileExists(PresetFileName(name)) && remove(PresetFileName(name)) ==>
        (r.Ok? <==> after.Missing? || (after.Listed? && FirstError(after.entries).None?))
      ensures fileExists(PresetFileName(name)) && remove(PresetFileName(name)) && after.Listed? && FirstError(after.entries).None? ==>
        presets == SortByName(Loaded(after.entries))
    {
      var file := PresetFileName(name);
      if !fileExists(file) {
        return Err("Preset file not found: " + name);
      }
      if !remove(file) {
        return Err("Failed to delete preset file");
      }
      r := LoadPresets(after);
    }

    /** `preset_exists`. */
    method Exists(name: string) returns (b: bool)
      ensures b <==> exists i :: 0 <= i < |presets| && presets[i].name == name
    {
      b := PresetExists(presets, name);
    }

    /** `get_preset_by_name`. */
    method FindByName(name: string) returns (r: Option<Preset>)
      ensures r == GetPresetByName(presets, name)
      ensures r.Some? <==> exists i :: 0 <= i < |presets| && presets[i].name == name
    {
      r := GetPresetByName(presets, name);
      ExistsIffFound(presets, name);
    }
  }
}
