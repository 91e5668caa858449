/** The VS Code workspace set-up of `VscodeManager` (pilot/src/vscode.py):
    the debug configurations written to `.vscode/launch.json`, the analysis
    settings written to `.vscode/settings.json`, and the extension installs.
    The directory walks (`os.walk`) are inputs, in the order the walk yields
    them; the two JSON files are held decoded, `None` while a file does not
    exist. */
module Vscode {
  import opened Wrappers
  import opened PyStr
  import opened Config
  import opened Json
  import Context

  /** One directory yielded by `os.walk`: its path and the names of its files. */
  datatype WalkEntry = WalkEntry(dir: string, files: seq<string>)

  // ------------------------------------------------------ launch entries

  /** The `Play Full Execution` entry for the `__main__.py` at `program`. */
  function MainConfig(program: string): Json {
    JObj(map[
      "name" := JStr("Play Full Execution"),
      "type" := JStr("python"),
      "request" := JStr("launch"),
      "program" := JStr(program),
      "console" := JStr("integratedTerminal"),
      "justMyCode" := JBool(false)])
  }

  /** The entry for the test file `file` found in directory `dir`. */
  function TestConfig(dir: string, file: string): Json {
    JObj(map[
      "name" := JStr("Test | " + file),
      "type" := JStr("python"),
      "request" := JStr("launch"),
      "program" := JStr(JoinPath(dir, file)),
      "console" := JStr("integratedTerminal"),
      "justMyCode" := JBool(true)])
  }

  predicate IsTestFile(file: string) {
    StartsWith(file, "test_") && EndsWith(file, ".py")
  }

  /** The test files among `files`, in their order, each with its directory. */
  function DirTestFiles(dir: string, files: seq<string>): seq<(string, string)>
  {
    if files == [] then []
    else
      var file := files[|files| - 1];
      DirTestFiles(dir, files[..|files| - 1]) + (if IsTestFile(file) then [(dir, file)] else [])
  }

  /** The test files the walk meets, directory by directory. */
  function TestFiles(walk: seq<WalkEntry>): seq<(string, string)>
  {
    if walk == [] then []
    else TestFiles(walk[..|walk| - 1]) + DirTestFiles(walk[|walk| - 1].dir, walk[|walk| - 1].files)
  }

  /** One launch entry per test file, in the same order. */
  function Configs(found: seq<(string, string)>): seq<Json>
  {
    seq(|found|, k requires 0 <= k < |found| => TestConfig(found[k].0, found[k].1))
  }

  /** What `create_test_configs` returns for a walk. */
  function TestConfigs(walk: seq<WalkEntry>): seq<Json> {
    Configs(TestFiles(walk))
  }

  lemma {:induction false} DirTestFilesExactly(dir: string, files: seq<string>, p: (string, string))
    ensures p in DirTestFiles(dir, files) <==> p.0 == dir && p.1 in files && IsTestFile(p.1)
  {
    if files != [] {
      var n := |files| - 1;
      DirTestFilesExactly(dir, files[..n], p);
      assert files == files[..n] + [files[n]];
    }
  }

  /** `create_test_configs` makes an entry exactly for each file of the walk
      whose name starts with `test_` and ends with `.py`. */
  lemma {:induction false} TestFilesExactly(walk: seq<WalkEntry>, p: (string, string))
    ensures p in TestFiles(walk) <==>
      exists i :: 0 <= i < |walk| && p.0 == walk[i].dir && p.1 in walk[i].files && IsTestFile(p.1)
  {
    if walk != [] {
      var n := |walk| - 1;
      var prefix := walk[..n];
      TestFilesExactly(prefix, p);
      DirTestFilesExactly(walk[n].dir, walk[n].files, p);
      assert TestFiles(walk) == TestFiles(prefix) + DirTestFiles(walk[n].dir, walk[n].files);
      assert forall i :: 0 <= i < n ==> prefix[i] == walk[i];
    }
  }

  lemma ConfigsAppend(found: seq<(string, string)>, p: (string, string))
    ensures Configs(found + [p]) == Configs(found) + [TestConfig(p.0, p.1)]
  {
    forall k | 0 <= k < |found| + 1
      ensures Configs(found + [p])[k] == (Configs(found) + [TestConfig(p.0, p.1)])[k]
    {
      if k < |found| {
        assert (found + [p])[k] == found[k];
      }
    }
  }

  /** `create_test_configs`: the nested walk over directories and files. */
  method CreateTestConfigs(walk: seq<WalkEntry>) returns (configs: seq<Json>)
    ensures configs == TestConfigs(walk)
  {
    configs := [];
    ghost var found: seq<(string, string)> := [];
    for i := 0 to |walk|
      invariant found == TestFiles(walk[..i]) && configs == Configs(found)
    {
      var dir, files := walk[i].dir, walk[i].files;
      for j := 0 to |files|
        invariant found == TestFiles(walk[..i]) + DirTestFiles(dir, files[..j]) && configs == Configs(found)
      {
        var file := files[j];
        assert files[..j + 1][..j] == files[..j];
        if IsTestFile(file) {
          ConfigsAppend(found, (dir, file));
          found := found + [(dir, file)];
          configs := configs + [TestConfig(dir, file)];
        }
      }
      assert files[..|files|] == files;
      assert walk[..i + 1][..i] == walk[..i];
    }
    assert walk[..|walk|] == walk;
  }

  /** Where the walk first meets a `__main__.py`, or `|walk|` when it never
      does. */
  function MainPyIndex(walk: seq<WalkEntry>): (k: nat)
    ensures k <= |walk|
    ensures forall j :: 0 <= j < k ==> "__main__.py" !in walk[j].files
    ensures k < |walk| ==> "__main__.py" in walk[k].files
  {
    if walk == [] || "__main__.py" in walk[0].files then 0
    else 1 + MainPyIndex(walk[1..])
  }

  /** The path of the first `__main__.py` of the walk, if any. */
  function MainPyPath(walk: seq<WalkEntry>): Option<string>
  {
    var k := MainPyIndex(walk);
    if k < |walk| then Some(JoinPath(walk[k].dir, "__main__.py")) else None
  }

  /** `__main__.py` is found exactly when some directory of the walk holds
      one, and the path found is that of the first such directory. */
  lemma MainPyPathFirst(walk: seq<WalkEntry>)
    ensures MainPyPath(walk).Some? <==> exists i :: 0 <= i < |walk| && "__main__.py" in walk[i].files
    ensures MainPyPath(walk).Some? ==>
      exists i :: && 0 <= i < |walk| && "__main__.py" in walk[i].files
                  && (forall j :: 0 <= j < i ==> "__main__.py" !in walk[j].files)
                  && MainPyPath(walk).value == JoinPath(walk[i].dir, "__main__.py")
  {
    var k := MainPyIndex(walk);
    if k < |walk| {
      assert "__main__.py" in walk[k].files;
    }
  }

  /** `find_main_py`: the walk, returning at the first directory holding a
      `__main__.py`. */
  method FindMainPy(walk: seq<WalkEntry>) returns (r: Option<string>)
    ensures r == MainPyPath(walk)
  {
    for i := 0 to |walk|
      invariant i <= MainPyIndex(walk)
    {
      if "__main__.py" in walk[i].files {
        assert MainPyIndex(walk) == i;
        return Some(JoinPath(walk[i].dir, "__main__.py"));
      }
    }
    assert MainPyIndex(walk) == |walk|;
    return None;
  }

  // ------------------------------------------------------ launch.json

  /** The document used when `launch.json` is missing or decodes to a false value. */
  function DefaultLaunch(): Json {
    JObj(map["version" := JStr("0.2.0"), "configurations" := JArr([])])
  }

  /** `self.load_json_file(path) or default`. */
  function LoadedOr(loaded: Option<Json>, default: Json): (doc: Json)
    ensures loaded.Some? && Truthy(loaded.value) ==> doc == loaded.value
    ensures loaded.None? || !Truthy(loaded.value) ==> doc == default
  {
    if loaded.Some? && Truthy(loaded.value) then loaded.value else default
  }

  /** What `update_launch_json` saves, or the exception it raises before
      saving: `['configurations']` needs an object holding that key, and
      `insert`/`extend` need a list there. */
  function UpdatedLaunch(loaded: Option<Json>, mainPy: Option<string>, tests: seq<Json>): (r: Result<Json, Exc>)
    ensures var doc := LoadedOr(loaded, DefaultLaunch());
      r.Ok? <==> doc.JObj? && "configurations" in doc.fields && doc.fields["configurations"].JArr?
    ensures var doc := LoadedOr(loaded, DefaultLaunch());
      r.Ok? ==>
        && r.value.JObj? && r.value.fields.Keys == doc.fields.Keys
        && (forall k :: k in doc.fields && k != "configurations" ==> r.value.fields[k] == doc.fields[k])
        && r.value.fields["configurations"] ==
             JArr((if mainPy.Some? then [MainConfig(mainPy.value)] else [])
                  + doc.fields["configurations"].items + tests)
    ensures var doc := LoadedOr(loaded, DefaultLaunch());
      && (!doc.JObj? ==> r.Err? && r.error.TypeError?)
      && (doc.JObj? && "configurations" !in doc.fields ==> r == Err(KeyError("configurations")))
  {
    var doc := LoadedOr(loaded, DefaultLaunch());
    if !doc.JObj? then Err(TypeError("indices must be integers"))
    else if "configurations" !in doc.fields then Err(KeyError("configurations"))
    else
      var configurations := doc.fields["configurations"];
      if !configurations.JArr? then Err(AttributeError(if mainPy.Some? then "insert" else "extend"))
      else
        var items := (if mainPy.Some? then [MainConfig(mainPy.value)] else []) + configurations.items + tests;
        Ok(JObj(doc.fields["configurations" := JArr(items)]))
  }

  /** Without a `launch.json`, the file written holds version 0.2.0 and
      exactly the main entry (when there is a `__main__.py`) followed by the
      test entries. */
  lemma UpdatedLaunchFresh(mainPy: Option<string>, tests: seq<Json>)
    ensures UpdatedLaunch(None, mainPy, tests).Ok?
    ensures UpdatedLaunch(None, mainPy, tests).value ==
      JObj(map["version" := JStr("0.2.0"),
               "configurations" := JArr((if mainPy.Some? then [MainConfig(mainPy.value)] else []) + tests)])
  {
    var r := UpdatedLaunch(None, mainPy, tests).value;
    var expected := JObj(map["version" := JStr("0.2.0"),
                             "configurations" := JArr((if mainPy.Some? then [MainConfig(mainPy.value)] else []) + tests)]);
    assert r.fields.Keys == expected.fields.Keys;
    assert r.fields["configurations"] == expected.fields["configurations"];
    assert r.fields == expected.fields;
  }

  /** Nothing is deduplicated: a second update over the written file puts a
      second main entry in front and a second copy of the test entries at
      the end, keeping everything written the first time in between. */
  lemma UpdatedLaunchTwice(loaded: Option<Json>, mainPy: Option<string>, tests: seq<Json>)
    requires UpdatedLaunch(loaded, mainPy, tests).Ok?
    ensures var once := UpdatedLaunch(loaded, mainPy, tests).value;
      && UpdatedLaunch(Some(once), mainPy, tests).Ok?
      && var twice := UpdatedLaunch(Some(once), mainPy, tests).value;
         var main := if mainPy.Some? then [MainConfig(mainPy.value)] else [];
         (&& twice.fields["configurations"].items == main + once.fields["configurations"].items + tests
          && |twice.fields["configurations"].items| == |once.fields["configurations"].items| + |main| + |tests|)
  {
    var once := UpdatedLaunch(loaded, mainPy, tests).value;
    assert Truthy(once) by {
      assert "configurations" in once.fields;
    }
  }

  // ---------------------------------------------------- settings.json

  const WorkspaceFolder := "${workspaceFolder}"
  const AnalysisPaths := "python.analysis.extraPaths"
  const AutoCompletePaths := "python.autoComplete.extraPaths"
  const TypeCheckingMode := "python.analysis.typeCheckingMode"
  const AutoImportCompletions := "python.analysis.autoImportCompletions"

  /** `find_editable_packages_paths`: the lookup is not written yet, so the
      list is always empty. */
  function EditablePackagesPaths(): seq<string> {
    []
  }

  /** `settings.get(key, [])` followed by `append`: a path list that can grow. */
  predicate ListOrAbsent(fields: map<string, Json>, key: string) {
    key !in fields || fields[key].JArr?
  }

  function PathItems(fields: map<string, Json>, key: string): seq<Json>
    requires ListOrAbsent(fields, key)
  {
    if key in fields then fields[key].items else []
  }

  /** What `update_settings_json` saves, or the exception it raises before
      saving: `get` needs an object, `append` a list under each path key. */
  function UpdatedSettings(loaded: Option<Json>, editable: seq<string>): (r: Result<Json, Exc>)
    ensures var doc := LoadedOr(loaded, JObj(map[]));
      r.Ok? <==> doc.JObj? && ListOrAbsent(doc.fields, AnalysisPaths) && ListOrAbsent(doc.fields, AutoCompletePaths)
    ensures var doc := LoadedOr(loaded, JObj(map[]));
      r.Ok? ==>
        && r.value.JObj?
        && r.value.fields.Keys == doc.fields.Keys + {AnalysisPaths, AutoCompletePaths, TypeCheckingMode, AutoImportCompletions}
        && (forall k :: k in doc.fields && k !in {AnalysisPaths, AutoCompletePaths, TypeCheckingMode, AutoImportCompletions}
              ==> r.value.fields[k] == doc.fields[k])
        && r.value.fields[TypeCheckingMode] == JStr("strict")
        && r.value.fields[AutoImportCompletions] == JBool(true)
        && r.value.fields[AnalysisPaths] == JArr(PathItems(doc.fields, AnalysisPaths) + Strings([WorkspaceFolder] + editable))
        && r.value.fields[AutoCompletePaths] == JArr(PathItems(doc.fields, AutoCompletePaths) + Strings([WorkspaceFolder] + editable))
    ensures var doc := LoadedOr(loaded, JObj(map[]));
      && (!doc.JObj? ==> r == Err(AttributeError("get")))
      && (doc.JObj? && r.Err? ==> r == Err(AttributeError("append")))
  {
    var doc := LoadedOr(loaded, JObj(map[]));
    if !doc.JObj? then Err(AttributeError("get"))
    else if !ListOrAbsent(doc.fields, AnalysisPaths) || !ListOrAbsent(doc.fields, AutoCompletePaths) then
      Err(AttributeError("append"))
    else
      var added := Strings([WorkspaceFolder] + editable);
      var analysis := PathItems(doc.fields, AnalysisPaths) + added;
      var autoComplete := PathItems(doc.fields, AutoCompletePaths) + added;
      Ok(JObj(doc.fields[TypeCheckingMode := JStr("strict")]
                        [AutoCompletePaths := JArr(autoComplete)]
                        [AnalysisPaths := JArr(analysis)]
                        [AutoImportCompletions := JBool(true)]))
  }

  /** Every update appends the workspace folder again: after two updates
      both path lists end with it twice and keep what they held before. */
  lemma UpdatedSettingsTwice(loaded: Option<Json>)
    requires UpdatedSettings(loaded, EditablePackagesPaths()).Ok?
    ensures var once := UpdatedSettings(loaded, EditablePackagesPaths()).value;
      && UpdatedSettings(Some(once), EditablePackagesPaths()).Ok?
      && var twice := UpdatedSettings(Some(once), EditablePackagesPaths()).value;
         var doc := LoadedOr(loaded, JObj(map[]));
         && twice.fields[AnalysisPaths].items ==
              PathItems(doc.fields, AnalysisPaths) + [JStr(WorkspaceFolder), JStr(WorkspaceFolder)]
         && twice.fields[AutoCompletePaths].items ==
              PathItems(doc.fields, AutoCompletePaths) + [JStr(WorkspaceFolder), JStr(WorkspaceFolder)]
  {
    var once := UpdatedSettings(loaded, EditablePackagesPaths()).value;
    assert Truthy(once) by {
      assert TypeCheckingMode in once.fields;
    }
    var added := Strings([WorkspaceFolder] + EditablePackagesPaths());
    assert added == [JStr(WorkspaceFolder)];
  }

  // ------------------------------------------------- extension installs

  /** The extensions installed when none are named. */
  const DefaultExtensions: seq<string> := [
    "ms-python.python",
    "ms-python.vscode-pylance",
    "ms-python.debugpy",
    "donjayamanne.python-environment-manager",
    "njpwerner.autodocstring"]

  function ExtensionList(extensions: Option<seq<string>>): (r: seq<string>)
    ensures extensions.None? ==> |r| == 5
  {
    if extensions.None? then DefaultExtensions else extensions.value
  }

  /** The commands `install_extensions_and_update_vscode` issues, in order:
      one install per extension, then the update exactly when asked for. */
  function InstallCommands(extensions: Option<seq<string>>, updateVscode: bool): (r: seq<string>)
    ensures |r| == |ExtensionList(extensions)| + (if updateVscode then 1 else 0)
    ensures forall i :: 0 <= i < |ExtensionList(extensions)| ==>
      StartsWith(r[i], "code --install-extension ") && r[i][25..] == ExtensionList(extensions)[i]
    ensures updateVscode <==> r != [] && r[|r| - 1] == "code --install-update"
  {
    var list := ExtensionList(extensions);
    seq(|list|, i requires 0 <= i < |list| => "code --install-extension " + list[i])
      + (if updateVscode then ["code --install-update"] else [])
  }

  /** What is logged for one command: success, the failed command's stderr,
      or the exception `run` raised. */
  datatype Report =
    | Succeeded(command: string)
    | Failed(command: string, stderr: string)
    | Raised(command: string, error: Exc)

  /** The report for one command given what `run` returned or raised. */
  function ReportFor(command: string, ran: Result<Context.Ran, Exc>): Report {
    match ran
    case Err(e) => Raised(command, e)
    case Ok(run) =>
      if run.result.returnCode == 0 then Succeeded(command) else Failed(command, run.result.stderr)
  }

  class VscodeManager {
    const sectionName: string
    const defaultSection: string
    const projectRoot: string
    /** The shared parser of the `Config` singleton. */
    const store: ConfigStore
    /** The shell context of the `Context` singleton. */
    const ctx: Context.ShellContext
    /** `.vscode/launch.json`, decoded; None while the file does not exist. */
    var launch: Option<Json>
    /** `.vscode/settings.json`, decoded; None while the file does not exist. */
    var settings: Option<Json>

    constructor (projectRoot: string, store: ConfigStore, ctx: Context.ShellContext,
                 launch: Option<Json>, settings: Option<Json>)
      ensures sectionName == "vscode" && defaultSection == "default_vscode"
      ensures this.projectRoot == projectRoot && this.store == store && this.ctx == ctx
      ensures this.launch == launch && this.settings == settings
    {
      sectionName := "vscode";
      defaultSection := "default_vscode";
      this.projectRoot := projectRoot;
      this.store := store;
      this.ctx := ctx;
      this.launch := launch;
      this.settings := settings;
    }

    /** `update_launch_json`: the main entry goes in front of the existing
        ones, the test entries after them, and the document is saved; an
        exception leaves the file as it was. */
    method UpdateLaunchJson(projectWalk: seq<WalkEntry>, testsWalk: seq<WalkEntry>) returns (r: Outcome)
      modifies this
      ensures var u := UpdatedLaunch(old(launch), MainPyPath(projectWalk), TestConfigs(testsWalk));
        && (u.Ok? ==> r.Pass? && launch == Some(u.value))
        && (u.Err? ==> r == Fail(u.error) && launch == old(launch))
      ensures settings == old(settings)
    {
      var doc := LoadedOr(launch, DefaultLaunch());
      var mainPy := FindMainPy(projectWalk);
      if !doc.JObj? {
        return Fail(TypeError("indices must be integers"));
      }
      if "configurations" !in doc.fields {
        return Fail(KeyError("configurations"));
      }
      var configurations := doc.fields["configurations"];
      if !configurations.JArr? {
        return Fail(AttributeError(if mainPy.Some? then "insert" else "extend"));
      }
      var items := configurations.items;
      if mainPy.Some? {
        items := [MainConfig(mainPy.value)] + items;
      } else {
        assert items == [] + items;
      }
      var tests := CreateTestConfigs(testsWalk);
      items := items + tests;
      launch := Some(JObj(doc.fields["configurations" := JArr(items)]));
      return Pass;
    }

    /** `update_settings_json`: both path lists grow by the workspace folder
        and the editable paths, the two analysis options are set, every
        other key stays, and the document is saved; an exception leaves the
        file as it was. */
    method UpdateSettingsJson() returns (r: Outcome)
      modifies this
      ensures var u := UpdatedSettings(old(settings), EditablePackagesPaths());
        && (u.Ok? ==> r.Pass? && settings == Some(u.value))
        && (u.Err? ==> r == Fail(u.error) && settings == old(settings))
      ensures launch == old(launch)
    {
      var doc := LoadedOr(settings, JObj(map[]));
      if !doc.JObj? {
        return Fail(AttributeError("get"));
      }
      var fields := doc.fields;
      if !ListOrAbsent(fields, AnalysisPaths) || !ListOrAbsent(fields, AutoCompletePaths) {
        return Fail(AttributeError("append"));
      }
      var extraPaths := PathItems(fields, AnalysisPaths);
      var autoCompletePaths := PathItems(fields, AutoCompletePaths);
      extraPaths := extraPaths + [JStr(WorkspaceFolder)];
      autoCompletePaths := autoCompletePaths + [JStr(WorkspaceFolder)];
      var editable := EditablePackagesPaths();
      extraPaths := extraPaths + Strings(editable);
      autoCompletePaths := autoCompletePaths + Strings(editable);
      assert Strings([WorkspaceFolder] + editable) == [JStr(WorkspaceFolder)] + Strings(editable);
      assert extraPaths == PathItems(fields, AnalysisPaths) + Strings([WorkspaceFolder] + editable);
      assert autoCompletePaths == PathItems(fields, AutoCompletePaths) + Strings([WorkspaceFolder] + editable);
      fields := fields[TypeCheckingMode := JStr("strict")];
      fields := fields[AutoCompletePaths := JArr(autoCompletePaths)];
      fields := fields[AnalysisPaths := JArr(extraPaths)];
      fields := fields[AutoImportCompletions := JBool(true)];
      settings := Some(JObj(fields));
      return Pass;
    }

    /** `update`: launch.json first; an exception there propagates before
        settings.json is touched. */
    method Update(projectWalk: seq<WalkEntry>, testsWalk: seq<WalkEntry>) returns (r: Outcome)
      modifies this
      ensures var u := UpdatedLaunch(old(launch), MainPyPath(projectWalk), TestConfigs(testsWalk));
        var v := UpdatedSettings(old(settings), EditablePackagesPaths());
        && (u.Err? ==> r == Fail(u.error) && launch == old(launch) && settings == old(settings))
        && (u.Ok? ==> launch == Some(u.value)
                      && (v.Ok? ==> r.Pass? && settings == Some(v.value))
                      && (v.Err? ==> r == Fail(v.error) && settings == old(settings)))
    {
      r := UpdateLaunchJson(projectWalk, testsWalk);
      if r.Fail? {
        return;
      }
      r := UpdateSettingsJson();
    }

    /** `init`: when the `vscode` section is missing it is added and
        `self.save_config()` is called, which no class of the manager
        hierarchy defines: AttributeError, and neither file is updated.
        With the section present, both files are updated. */
    method Init(projectWalk: seq<WalkEntry>, testsWalk: seq<WalkEntry>) returns (r: Outcome)
      modifies this, store
      ensures store.saved == old(store.saved)
      ensures sectionName !in old(store.sections) ==>
        && store.sections == old(store.sections)[sectionName := map[]]
        && r == Fail(AttributeError("save_config"))
        && launch == old(launch) && settings == old(settings)
      ensures sectionName in old(store.sections) ==>
        var u := UpdatedLaunch(old(launch), MainPyPath(projectWalk), TestConfigs(testsWalk));
        var v := UpdatedSettings(old(settings), EditablePackagesPaths());
        && store.sections == old(store.sections)
        && (u.Err? ==> r == Fail(u.error) && launch == old(launch) && settings == old(settings))
        && (u.Ok? ==> launch == Some(u.value)
                      && (v.Ok? ==> r.Pass? && settings == Some(v.value))
                      && (v.Err? ==> r == Fail(v.error) && settings == old(settings)))
    {
      if sectionName !in store.sections {
        store.sections := store.sections[sectionName := map[]];
        return Fail(AttributeError("save_config"));
      }
      r := Update(projectWalk, testsWalk);
    }

    /** `install_extensions_and_update_vscode`: one `code` command per
        extension (the five defaults when none are named), then the update
        when asked; each command is attempted whatever happened to the
        previous ones, and nothing is raised. `execs` is what each command
        did, in order. */
    method InstallExtensions(extensions: Option<seq<string>>, updateVscode: bool, execs: seq<Context.Exec>)
      returns (reports: seq<Report>)
      requires |execs| == |InstallCommands(extensions, updateVscode)|
      ensures |reports| == |InstallCommands(extensions, updateVscode)|
      ensures forall i :: 0 <= i < |reports| ==>
        reports[i] == ReportFor(InstallCommands(extensions, updateVscode)[i], ctx.Run(execs[i]))
    {
      var list := if extensions.None? then DefaultExtensions else extensions.value;
      ghost var commands := InstallCommands(extensions, updateVscode);
      reports := [];
      for i := 0 to |list|
        invariant |reports| == i
        invariant forall k :: 0 <= k < i ==> reports[k] == ReportFor(commands[k], ctx.Run(execs[k]))
      {
        var command := "code --install-extension " + list[i];
        var ran := ctx.Run(execs[i]);
        reports := reports + [ReportFor(command, ran)];
      }
      if updateVscode {
        var ran := ctx.Run(execs[|list|]);
        reports := reports + [ReportFor("code --install-update", ran)];
      }
    }
  }
}
