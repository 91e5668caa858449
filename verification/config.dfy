/** The shared configuration store (`Config`, pilot/src/config.py): an
    INI-style parser holding sections of key/value strings, loaded from
    `<project root>/.conf` or a named file, written back on save, and
    queried with a "section, else default section" lookup. */
module Config {
  import opened Wrappers
  import opened PyStr

  type Section = map<string, string>
  type Sections = map<string, Section>

  /** `parser[section][key]`, which raises KeyError when either is missing. */
  function Lookup(sections: Sections, section: string, key: string): (r: Result<string, Exc>)
    ensures r.Ok? <==> section in sections && key in sections[section]
    ensures r.Ok? ==> r.value == sections[section][key]
    ensures section !in sections ==> r == Err(KeyError(section))
    ensures section in sections && key !in sections[section] ==> r == Err(KeyError(key))
  {
    if section !in sections then Err(KeyError(section))
    else if key !in sections[section] then Err(KeyError(key))
    else Ok(sections[section][key])
  }

  /** The keys of an ordered list of pairs (a Python dict's items). */
  function Keys(pairs: seq<(string, string)>): (r: seq<string>)
    ensures |r| == |pairs| && forall i :: 0 <= i < |pairs| ==> r[i] == pairs[i].0
  {
    if pairs == [] then [] else [pairs[0].0] + Keys(pairs[1..])
  }

  predicate DistinctKeys(pairs: seq<(string, string)>) {
    forall i, j :: 0 <= i < j < |pairs| ==> pairs[i].0 != pairs[j].0
  }

  /** The section obtained by setting the pairs one after another. */
  function PairsToMap(pairs: seq<(string, string)>): Section
  {
    if pairs == [] then map[]
    else PairsToMap(pairs[..|pairs| - 1])[pairs[|pairs| - 1].0 := pairs[|pairs| - 1].1]
  }

  /** The keys of the section are exactly the keys of the pairs. */
  lemma {:induction false} PairsToMapKeys(pairs: seq<(string, string)>)
    ensures PairsToMap(pairs).Keys == set i | 0 <= i < |pairs| :: pairs[i].0
  {
    if pairs != [] {
      var n := |pairs| - 1;
      PairsToMapKeys(pairs[..n]);
      assert (set i | 0 <= i < |pairs| :: pairs[i].0) == (set i | 0 <= i < n :: pairs[..n][i].0) + {pairs[n].0};
    }
  }

  /** With distinct keys, every pair's value is the one stored under its key. */
  lemma {:induction false} PairsToMapAt(pairs: seq<(string, string)>, i: nat)
    requires DistinctKeys(pairs) && i < |pairs|
    ensures pairs[i].0 in PairsToMap(pairs) && PairsToMap(pairs)[pairs[i].0] == pairs[i].1
    decreases |pairs|
  {
    if i < |pairs| - 1 {
      PairsToMapAt(pairs[..|pairs| - 1], i);
    }
  }

  /** Setting the pairs of a longer prefix is setting one pair more. */
  lemma PairsToMapPrefix(pairs: seq<(string, string)>, i: nat)
    requires i < |pairs|
    ensures PairsToMap(pairs[..i + 1]) == PairsToMap(pairs[..i])[pairs[i].0 := pairs[i].1]
  {
    assert pairs[..i + 1][..i] == pairs[..i];
  }

  /** Setting one more pair of a dict whose keys are distinct adds a key
      that was not yet present. */
  lemma PairsToMapStep(pairs: seq<(string, string)>, i: nat)
    requires DistinctKeys(pairs) && i < |pairs|
    ensures pairs[i].0 !in PairsToMap(pairs[..i])
    ensures PairsToMap(pairs[..i + 1]) == PairsToMap(pairs[..i])[pairs[i].0 := pairs[i].1]
  {
    PairsToMapKeys(pairs[..i]);
    assert pairs[..i + 1][..i] == pairs[..i];
  }

  /** What `ConfigParser.read` does with the sections of a file it reads:
      sections are created when new, and the file's keys overwrite. */
  function Merge(current: Sections, read: Sections): (r: Sections)
    ensures r.Keys == current.Keys + read.Keys
    ensures forall s :: s in read ==> r[s] == (if s in current then current[s] else map[]) + read[s]
    ensures forall s :: s in current && s !in read ==> r[s] == current[s]
  {
    map s | s in current.Keys + read.Keys ::
      (if s in current then current[s] else map[]) + (if s in read then read[s] else map[])
  }

  /** A fresh parser that reads a file holds exactly the file's sections. */
  lemma MergeIntoEmpty(read: Sections)
    ensures Merge(map[], read) == read
  {
    var r := Merge(map[], read);
    forall s | s in read
      ensures r[s] == read[s]
    {
      var empty: Section := map[];
      assert empty + read[s] == read[s];
    }
  }

  /** The `section_name` / `default_section` attributes of the object asking
      for a value. `None` stands for Python's None. */
  datatype SectionPair = SectionPair(sectionName: Option<string>, defaultSection: Option<string>)

  /** Python truthiness of an optional section name. */
  predicate IsSet(name: Option<string>) {
    name.Some? && name.value != ""
  }

  class ConfigStore {
    const projectRoot: string
    const configFile: string
    /** The in-memory parser. */
    var sections: Sections
    /** Every snapshot written by `save_config`, oldest first. */
    var saved: seq<Sections>

    constructor (projectRoot: string)
      ensures this.projectRoot == projectRoot
      ensures configFile == JoinPath(projectRoot, ".conf")
      ensures sections == map[] && saved == []
    {
      this.projectRoot := projectRoot;
      configFile := JoinPath(projectRoot, ".conf");
      sections := map[];
      saved := [];
    }

    /** The file `load_config` reads: `.conf`, or the named file when one is given. */
    function ConfigPath(specificConfig: Option<string>): (path: string)
      ensures !IsSet(specificConfig) ==> path == configFile
      ensures IsSet(specificConfig) ==> EndsWith(path, specificConfig.value)
      ensures IsSet(specificConfig) ==> path == JoinPath(projectRoot, specificConfig.value)
    {
      if IsSet(specificConfig) then JoinPath(projectRoot, specificConfig.value) else configFile
    }

    /** `load_config`: FileNotFoundError when the file is missing, otherwise
        the file's sections are merged into the parser. `files` maps each
        existing path to the sections it holds. */
    method LoadConfig(specificConfig: Option<string>, files: map<string, Sections>) returns (r: Outcome)
      modifies this
      ensures r.Fail? <==> ConfigPath(specificConfig) !in files
      ensures r.Fail? ==> r.error == FileNotFoundError(ConfigPath(specificConfig)) && sections == old(sections)
      ensures r.Pass? ==> sections == Merge(old(sections), files[ConfigPath(specificConfig)])
      ensures saved == old(saved)
    {
      var path := ConfigPath(specificConfig);
      if path !in files {
        return Fail(FileNotFoundError(path));
      }
      sections := Merge(sections, files[path]);
      return Pass;
    }

    /** `save_config`: the current sections become the file's contents. */
    method SaveConfig()
      modifies this
      ensures sections == old(sections)
      ensures saved == old(saved) + [sections]
    {
      saved := saved + [sections];
    }

    /** `Config.get(key, fallback)`, with the caller's section pair passed in
        instead of found on the call stack (`None`: no caller instance, or
        one without the attributes, which the source logs and answers None).
        A missing section or key raises inside the lookup and ends it with
        None; an empty value moves on to the default section; `fallback` is
        never read. */
    function Get(caller: Option<SectionPair>, key: string, fallback: Option<string> := None): (r: Option<string>)
      reads this
      ensures r.Some? ==> r.value != ""
      ensures caller.None? ==> r.None?
      ensures caller.Some? && IsSet(caller.value.sectionName) ==>
        var s := caller.value.sectionName.value;
        && (s !in sections || key !in sections[s] ==> r.None?)
        && (s in sections && key in sections[s] && sections[s][key] != "" ==> r == Some(sections[s][key]))
      ensures r.Some? && caller.Some? ==>
        var p := caller.value;
        || (IsSet(p.sectionName) && p.sectionName.value in sections
            && key in sections[p.sectionName.value] && r.value == sections[p.sectionName.value][key])
        || (&& (!IsSet(p.sectionName)
                || (p.sectionName.value in sections && key in sections[p.sectionName.value]
                    && sections[p.sectionName.value][key] == ""))
            && IsSet(p.defaultSection) && p.defaultSection.value in sections
            && key in sections[p.defaultSection.value] && r.value == sections[p.defaultSection.value][key])
      ensures caller.Some? && IsSet(caller.value.defaultSection) ==>
        var p := caller.value;
        var d := p.defaultSection.value;
        (&& (!IsSet(p.sectionName)
             || (p.sectionName.value in sections && key in sections[p.sectionName.value]
                 && sections[p.sectionName.value][key] == ""))
         && d in sections && key in sections[d] && sections[d][key] != "")
        ==> r == Some(sections[d][key])
    {
      match caller
      case None => None
      case Some(p) =>
        if IsSet(p.sectionName) then
          var s := p.sectionName.value;
          if s !in sections || key !in sections[s] then None
          else if sections[s][key] != "" then Some(sections[s][key])
          else DefaultValue(p.defaultSection, key)
        else DefaultValue(p.defaultSection, key)
    }

    /** The `elif` branch of `get`: the default section's value when non-empty. */
    function DefaultValue(defaultSection: Option<string>, key: string): (r: Option<string>)
      reads this
      ensures r.Some? <==> (IsSet(defaultSection) && defaultSection.value in sections
                            && key in sections[defaultSection.value] && sections[defaultSection.value][key] != "")
      ensures r.Some? ==> r.value == sections[defaultSection.value][key]
    {
      if IsSet(defaultSection) && defaultSection.value in sections
         && key in sections[defaultSection.value] && sections[defaultSection.value][key] != ""
      then Some(sections[defaultSection.value][key])
      else None
    }
  }
}
