/** The `pyproject.toml` side of `PyprojectManager` (pilot/src/pyproject.py):
    keeping only the stable pinned requirements, and writing them as the
    project's dependencies. The TOML document is held decoded, as the
    nested dicts `tomllib` returns; the files read are inputs. */
module Pyproject {
  import opened Wrappers
  import opened PyStr
  import opened Json

  // ---------------------------------------------------- stable versions

  /** `dep.split('==')` unpacks into exactly a name and a version. */
  predicate Pinned(dep: string) {
    |Split(dep, "==")| == 2
  }

  /** A pinned requirement whose version mentions neither `dirty` nor `post`. */
  predicate IsStable(dep: string) {
    && Pinned(dep)
    && !Contains(Split(dep, "==")[1], "dirty")
    && !Contains(Split(dep, "==")[1], "post")
  }

  /** The ValueError of `name, version = dep.split('==')`. */
  function UnpackError(dep: string): Exc {
    if |Split(dep, "==")| < 2 then ValueError("not enough values to unpack (expected 2, got 1)")
    else ValueError("too many values to unpack (expected 2)")
  }

  /** What `_filter_stable_versions` returns, or the exception of the first
      requirement that does not unpack. */
  function StableVersions(deps: seq<string>): Result<seq<string>, Exc>
  {
    if deps == [] then Ok([])
    else
      var kept := StableVersions(deps[..|deps| - 1]);
      var dep := deps[|deps| - 1];
      if kept.Err? then kept
      else if !Pinned(dep) then Err(UnpackError(dep))
      else Ok(kept.value + (if IsStable(dep) then [dep] else []))
  }

  /** `_filter_stable_versions`: the loop appending each stable requirement. */
  method FilterStableVersions(deps: seq<string>) returns (r: Result<seq<string>, Exc>)
    ensures r == StableVersions(deps)
  {
    var stable := [];
    for i := 0 to |deps|
      invariant StableVersions(deps[..i]) == Ok(stable)
    {
      var dep := deps[i];
      ghost var prefix := deps[..i + 1];
      assert prefix[..|prefix| - 1] == deps[..i] && prefix[|prefix| - 1] == dep;
      var parts := Split(dep, "==");
      if |parts| != 2 {
        FirstUnpackError(deps, i);
        return Err(UnpackError(dep));
      }
      var version := parts[1];
      assert StableVersions(prefix[..|prefix| - 1]) == Ok(stable);
      if !Contains(version, "dirty") && !Contains(version, "post") {
        stable := stable + [dep];
      } else {
        assert stable + [] == stable;
      }
    }
    assert deps[..|deps|] == deps;
    return Ok(stable);
  }

  /** A requirement that does not unpack ends the filter with its error,
      whatever follows it. */
  lemma {:induction false} FirstUnpackError(deps: seq<string>, i: nat)
    requires i < |deps| && !Pinned(deps[i]) && StableVersions(deps[..i]).Ok?
    ensures StableVersions(deps) == Err(UnpackError(deps[i]))
    decreases |deps|
  {
    if |deps| - 1 == i {
      assert deps[..|deps| - 1] == deps[..i];
    } else {
      var init := deps[..|deps| - 1];
      assert init[..i] == deps[..i] && init[i] == deps[i];
      FirstUnpackError(init, i);
    }
  }

  /** The filter succeeds exactly when every requirement unpacks into a
      name and a version, and fails only with ValueError. */
  lemma {:induction false} StableVersionsOk(deps: seq<string>)
    ensures StableVersions(deps).Ok? <==> forall i :: 0 <= i < |deps| ==> Pinned(deps[i])
    ensures StableVersions(deps).Err? ==> StableVersions(deps).error.ValueError?
  {
    if deps != [] {
      var init := deps[..|deps| - 1];
      StableVersionsOk(init);
      assert forall i :: 0 <= i < |init| ==> init[i] == deps[i];
    }
  }

  /** A requirement is kept exactly when it is in the input and stable. */
  lemma {:induction false} StableVersionsMembers(deps: seq<string>, dep: string)
    requires StableVersions(deps).Ok?
    ensures dep in StableVersions(deps).value <==> dep in deps && IsStable(dep)
  {
    if deps != [] {
      var init := deps[..|deps| - 1];
      StableVersionsMembers(init, dep);
      assert deps == init + [deps[|deps| - 1]];
    }
  }

  /** `a` is `b` with some elements left out, the rest in their order. */
  predicate IsSubsequence(a: seq<string>, b: seq<string>)
    decreases |b|
  {
    if a == [] then true
    else if b == [] then false
    else (a[|a| - 1] == b[|b| - 1] && IsSubsequence(a[..|a| - 1], b[..|b| - 1]))
         || IsSubsequence(a, b[..|b| - 1])
  }

  /** The requirements kept keep their relative order. */
  lemma {:induction false} StableVersionsSubsequence(deps: seq<string>)
    requires StableVersions(deps).Ok?
    ensures IsSubsequence(StableVersions(deps).value, deps)
  {
    if deps != [] {
      var init := deps[..|deps| - 1];
      var kept := StableVersions(init).value;
      StableVersionsSubsequence(init);
      var r := StableVersions(deps).value;
      if IsStable(deps[|deps| - 1]) {
        assert r == kept + [deps[|deps| - 1]];
        assert r[..|r| - 1] == kept;
      } else {
        assert r == kept;
        assert kept != [] ==> IsSubsequence(kept, deps[..|deps| - 1]);
      }
    }
  }

  /** Filtering what the filter kept keeps all of it. */
  lemma {:induction false} StableVersionsIdempotent(deps: seq<string>)
    requires StableVersions(deps).Ok?
    ensures StableVersions(StableVersions(deps).value) == StableVersions(deps)
  {
    if deps != [] {
      var init := deps[..|deps| - 1];
      var kept := StableVersions(init).value;
      StableVersionsIdempotent(init);
      var dep := deps[|deps| - 1];
      if IsStable(dep) {
        assert StableVersions(deps).value == kept + [dep];
        assert (kept + [dep])[..|kept|] == kept;
      } else {
        assert StableVersions(deps).value == kept;
      }
    }
  }

  // ----------------------------------------------------------- documents

  /** What `tomllib.load` made of `pyproject.toml`, or why it failed. */
  datatype TomlRead =
    | Parsed(doc: Json)
    | DecodeError
    | NotFound
    | Unreadable

  /** `_load_pyproject`: the decoded document, and an empty one after any
      failure to read or decode it. */
  function LoadPyproject(read: TomlRead): (config: Json)
    ensures read.Parsed? ==> config == read.doc
    ensures !read.Parsed? ==> config == JObj(map[]) && !Truthy(config)
  {
    if read.Parsed? then read.doc else JObj(map[])
  }

  /** `config['project']['dependencies'] = deps`: the project table must
      exist and be a table; everything else in the document stays. */
  function WithDependencies(config: Json, deps: seq<string>): (r: Result<Json, Exc>)
    ensures r.Ok? <==> config.JObj? && "project" in config.fields && config.fields["project"].JObj?
    ensures config.JObj? && "project" !in config.fields ==> r == Err(KeyError("project"))
    ensures r.Ok? ==>
      && r.value.JObj? && r.value.fields.Keys == config.fields.Keys
      && (forall k :: k in config.fields && k != "project" ==> r.value.fields[k] == config.fields[k])
      && var project := config.fields["project"].fields;
         && r.value.fields["project"].JObj?
         && r.value.fields["project"].fields.Keys == project.Keys + {"dependencies"}
         && (forall k :: k in project && k != "dependencies" ==> r.value.fields["project"].fields[k] == project[k])
         && r.value.fields["project"].fields["dependencies"] == JArr(Strings(deps))
  {
    if !config.JObj? then Err(TypeError("indices must be integers"))
    else if "project" !in config.fields then Err(KeyError("project"))
    else if !config.fields["project"].JObj? then Err(TypeError("object does not support item assignment"))
    else
      var project := config.fields["project"].fields;
      Ok(JObj(config.fields["project" := JObj(project["dependencies" := JArr(Strings(deps))])]))
  }

  /** Writing the same dependencies again changes nothing more. */
  lemma WithDependenciesIdempotent(config: Json, deps: seq<string>)
    requires WithDependencies(config, deps).Ok?
    ensures WithDependencies(WithDependencies(config, deps).value, deps) == WithDependencies(config, deps)
  {
    var once := WithDependencies(config, deps).value;
    var project := once.fields["project"].fields;
    assert project["dependencies" := JArr(Strings(deps))] == project;
    assert once.fields["project" := JObj(project)] == once.fields;
  }

  class PyprojectManager {
    const projectRoot: string
    const pyprojectFile: string
    /** `self.config`: the decoded document. */
    var config: Json
    /** Every document written to `pyproject.toml`, oldest first. */
    var written: seq<Json>

    /** The state `__init__` sets up: the file's path and its loaded document. */
    constructor (projectRoot: string, read: TomlRead)
      ensures this.projectRoot == projectRoot && pyprojectFile == JoinPath(projectRoot, "pyproject.toml")
      ensures config == LoadPyproject(read) && written == []
    {
      this.projectRoot := projectRoot;
      pyprojectFile := JoinPath(projectRoot, "pyproject.toml");
      config := LoadPyproject(read);
      written := [];
    }

    /** `init`: loads the document again. */
    method Init(read: TomlRead)
      modifies this
      ensures config == LoadPyproject(read) && written == old(written)
    {
      config := LoadPyproject(read);
    }

    /** `_update_dependencies`: reads the requirement lines (`requirements`
        is None when the file is missing), keeps the stable ones, sets them
        as the project's dependencies and writes the document. Any exception
        is logged and not raised (`r` is what was logged); before the
        assignment nothing has changed and nothing is written. */
    method UpdateDependencies(requirementsPath: string, requirements: Option<string>) returns (r: Outcome)
      modifies this
      ensures requirements.None? ==>
        r == Fail(FileNotFoundError(requirementsPath)) && config == old(config) && written == old(written)
      ensures requirements.Some? ==>
        var kept := StableVersions(SplitLines(requirements.value));
        && (kept.Err? ==> r == Fail(kept.error) && config == old(config) && written == old(written))
        && (kept.Ok? ==>
              var u := WithDependencies(old(config), kept.value);
              && (u.Err? ==> r == Fail(u.error) && config == old(config) && written == old(written))
              && (u.Ok? ==> r.Pass? && config == u.value && written == old(written) + [u.value]))
    {
      if requirements.None? {
        return Fail(FileNotFoundError(requirementsPath));
      }
      var dependencies := SplitLines(requirements.value);
      var stable := FilterStableVersions(dependencies);
      if stable.Err? {
        return Fail(stable.error);
      }
      var updated := WithDependencies(config, stable.value);
      if updated.Err? {
        return Fail(updated.error);
      }
      config := updated.value;
      written := written + [config];
      return Pass;
    }
  }
}
