/** Deploy pipelines (pilot/src/deploy.py): `DeployManager` picks a pipeline
    from the `deploy` section and runs it; `RemoteDockerDeployPipeline` runs a
    fixed sequence of steps inside one try block; `EcsDeployPipeline` only
    warns. The Docker and AWS calls the steps make are inputs (`DeployEnv`),
    except the choice of the latest package version, which is modelled in
    full. */
module Deploy {
  import opened Wrappers
  import opened PyStr
  import opened Config
  import Json
  import Aws
  import opened Context

  // ------------------------------------------------------ latest version

  /** Python's `<` on two lists of ints: the first differing element
      decides, and a proper prefix ranks lower. */
  predicate KeyLess(a: seq<int>, b: seq<int>)
    decreases |a|
  {
    if a == [] then b != []
    else b != [] && (a[0] < b[0] || (a[0] == b[0] && KeyLess(a[1..], b[1..])))
  }

  lemma {:induction false} KeyLessIrreflexive(a: seq<int>)
    ensures !KeyLess(a, a)
    decreases |a|
  {
    if a != [] {
      KeyLessIrreflexive(a[1..]);
    }
  }

  lemma {:induction false} KeyLessTransitive(a: seq<int>, b: seq<int>, c: seq<int>)
    requires KeyLess(a, b) && KeyLess(b, c)
    ensures KeyLess(a, c)
    decreases |a|
  {
    if a != [] && a[0] == b[0] && b[0] == c[0] {
      KeyLessTransitive(a[1..], b[1..], c[1..]);
    }
  }

  lemma {:induction false} KeyLessTotal(a: seq<int>, b: seq<int>)
    ensures a == b || KeyLess(a, b) || KeyLess(b, a)
    decreases |a|
  {
    if a != [] && b != [] && a[0] == b[0] {
      KeyLessTotal(a[1..], b[1..]);
      if a[1..] == b[1..] {
        assert a == [a[0]] + a[1..] && b == [b[0]] + b[1..];
      }
    }
  }

  /** `int` applied to each component, in order: the first component that
      is not an integer literal raises ValueError. */
  function ParseComponents(parts: seq<string>): (r: Result<seq<int>, Exc>)
    ensures r.Ok? <==> forall i :: 0 <= i < |parts| ==> ParseInt(parts[i]).Some?
    ensures r.Ok? ==> |r.value| == |parts|
    ensures r.Ok? ==> forall i :: 0 <= i < |parts| ==> r.value[i] == ParseInt(parts[i]).value
    ensures r.Err? ==> r.error.ValueError?
  {
    if parts == [] then Ok([])
    else
      var first := ParseInt(parts[0]);
      var rest := ParseComponents(parts[1..]);
      assert forall i :: 0 < i < |parts| ==> parts[1..][i - 1] == parts[i];
      if first.None? then Err(ValueError("invalid literal for int() with base 10: " + parts[0]))
      else if rest.Err? then rest
      else Ok([first.value] + rest.value)
  }

  /** The `max` key `list(map(int, v['version'].split('.')))` for one item
      of the listing: KeyError without a `version`, AttributeError when the
      version has no `split`, TypeError when the item cannot be indexed by
      a string. */
  function VersionKey(item: Json.Json): (r: Result<seq<int>, Exc>)
    ensures r.Ok? <==> item.JObj? && "version" in item.fields && item.fields["version"].JStr?
                       && ParseComponents(Split(item.fields["version"].s, ".")).Ok?
    ensures item.JObj? && "version" !in item.fields ==> r == Err(KeyError("version"))
    ensures !item.JObj? ==> r.Err? && r.error.TypeError?
  {
    match item
    case JObj(fields) =>
      if "version" !in fields then Err(KeyError("version"))
      else if !fields["version"].JStr? then Err(AttributeError("split"))
      else ParseComponents(Split(fields["version"].s, "."))
    case _ => Err(TypeError("string indices must be integers"))
  }

  /** Item `i` is the first one whose key cannot be computed. */
  predicate FirstKeyError(items: seq<Json.Json>, i: int) {
    && 0 <= i < |items| && VersionKey(items[i]).Err?
    && forall j :: 0 <= j < i ==> VersionKey(items[j]).Ok?
  }

  lemma FirstKeyErrorCons(items: seq<Json.Json>, i: int)
    requires items != [] && VersionKey(items[0]).Ok? && FirstKeyError(items[1..], i)
    ensures FirstKeyError(items, i + 1) && VersionKey(items[i + 1]) == VersionKey(items[1..][i])
  {
    forall j | 0 < j < i + 1
      ensures VersionKey(items[j]).Ok?
    {
      assert items[j] == items[1..][j - 1];
    }
  }

  /** `item['version']` once the key of the item could be computed. */
  function VersionOf(item: Json.Json): (version: string)
    ensures VersionKey(item).Ok? ==> Json.JStr(version) == item.fields["version"]
  {
    if item.JObj? && "version" in item.fields && item.fields["version"].JStr? then item.fields["version"].s
    else ""
  }

  /** `max` computes the keys one item at a time, in order, comparing each
      with the running maximum; comparing integer lists never raises, so the
      first item whose key fails decides the error. */
  function VersionKeys(items: seq<Json.Json>): (r: Result<seq<seq<int>>, Exc>)
    ensures r.Ok? ==> |r.value| == |items|
  {
    if items == [] then Ok([])
    else
      var first := VersionKey(items[0]);
      var rest := VersionKeys(items[1..]);
      if first.Err? then Err(first.error)
      else if rest.Err? then Err(rest.error)
      else Ok([first.value] + rest.value)
  }

  /** The keys are computed exactly when every item has one, each in its
      place; otherwise the error is the one of the first item without a key. */
  lemma {:induction false} VersionKeysEach(items: seq<Json.Json>)
    ensures VersionKeys(items).Ok? <==> forall i :: 0 <= i < |items| ==> VersionKey(items[i]).Ok?
    ensures VersionKeys(items).Ok? ==>
      forall i :: 0 <= i < |items| ==> VersionKeys(items).value[i] == VersionKey(items[i]).value
    ensures VersionKeys(items).Err? ==>
      exists i :: FirstKeyError(items, i) && VersionKey(items[i]) == Err(VersionKeys(items).error)
  {
    if items != [] {
      VersionKeysEach(items[1..]);
      assert forall i :: 0 < i < |items| ==> items[1..][i - 1] == items[i];
      if VersionKey(items[0]).Err? {
        assert FirstKeyError(items, 0);
      } else if VersionKeys(items[1..]).Err? {
        var i :| FirstKeyError(items[1..], i) && VersionKey(items[1..][i]) == Err(VersionKeys(items[1..]).error);
        FirstKeyErrorCons(items, i);
      }
    }
  }

  /** Index `i` is where `max` stops: no key is greater than its key, and
      every earlier key is smaller (the first maximal item wins ties). */
  predicate IsFirstMax(keys: seq<seq<int>>, i: int) {
    && 0 <= i < |keys|
    && (forall j :: 0 <= j < |keys| ==> !KeyLess(keys[i], keys[j]))
    && (forall j :: 0 <= j < i ==> KeyLess(keys[j], keys[i]))
  }

  /** The scan `max` performs: keep the current best, replace it only by a
      strictly greater key. */
  function ArgMax(keys: seq<seq<int>>): (i: nat)
    requires keys != []
    ensures i < |keys|
  {
    if |keys| == 1 then 0
    else
      var best := ArgMax(keys[..|keys| - 1]);
      if KeyLess(keys[best], keys[|keys| - 1]) then |keys| - 1 else best
  }

  lemma {:induction false} ArgMaxIsFirstMax(keys: seq<seq<int>>)
    requires keys != []
    ensures IsFirstMax(keys, ArgMax(keys))
    decreases |keys|
  {
    if |keys| == 1 {
      KeyLessIrreflexive(keys[0]);
    } else {
      var n := |keys| - 1;
      var init := keys[..n];
      var best := ArgMax(init);
      ArgMaxIsFirstMax(init);
      assert keys[best] == init[best];
      if KeyLess(keys[best], keys[n]) {
        forall j | 0 <= j < n
          ensures KeyLess(keys[j], keys[n])
        {
          assert keys[j] == init[j];
          KeyLessTotal(keys[j], keys[best]);
          if keys[j] != keys[best] {
            KeyLessTransitive(keys[j], keys[best], keys[n]);
          }
        }
        forall j | 0 <= j < |keys|
          ensures !KeyLess(keys[n], keys[j])
        {
          KeyLessIrreflexive(keys[n]);
          if j < n && KeyLess(keys[n], keys[j]) {
            KeyLessTransitive(keys[j], keys[n], keys[j]);
            KeyLessIrreflexive(keys[j]);
          }
        }
      } else {
        forall j | 0 <= j < |keys|
          ensures !KeyLess(keys[best], keys[j])
        {
          if j < n {
            assert keys[j] == init[j];
          }
        }
        forall j | 0 <= j < best
          ensures KeyLess(keys[j], keys[best])
        {
          assert keys[j] == init[j];
        }
      }
    }
  }

  /** `max(package_info, key=...)['version']`: TypeError when there is no
      listing (None, or a value that is not a list of objects), ValueError
      for an empty listing, the first key error otherwise, and else the
      version of the first item with the greatest key. */
  function LatestVersion(info: Option<Json.Json>): (r: Result<string, Exc>)
    ensures r.Ok? <==> info.Some? && info.value.JArr? && info.value.items != []
                       && VersionKeys(info.value.items).Ok?
    ensures info.None? ==> r.Err? && r.error.TypeError?
    ensures info.Some? && info.value.JArr? && info.value.items == [] ==> r.Err? && r.error.ValueError?
    ensures info.Some? && info.value.JArr? && VersionKeys(info.value.items).Err? ==>
      r == Err(VersionKeys(info.value.items).error)
  {
    match info
    case None => Err(TypeError("'NoneType' object is not iterable"))
    case Some(JArr(items)) =>
      if items == [] then Err(ValueError("max() arg is an empty sequence"))
      else
        (match VersionKeys(items)
         case Err(e) => Err(e)
         case Ok(keys) => Ok(VersionOf(items[ArgMax(keys)])))
    // iterating a dict yields its keys and a string its characters, which
    // cannot be indexed by 'version'; a number, boolean or null is not iterable
    case Some(JObj(fields)) =>
      if fields == map[] then Err(ValueError("max() arg is an empty sequence"))
      else Err(TypeError("string indices must be integers"))
    case Some(JStr(text)) =>
      if text == "" then Err(ValueError("max() arg is an empty sequence"))
      else Err(TypeError("string indices must be integers"))
    case Some(_) => Err(TypeError("object is not iterable"))
  }

  /** The chosen version is the `version` of the first item whose key no
      other key exceeds, and every item has a key. */
  lemma LatestVersionIsFirstMax(info: Option<Json.Json>)
    requires LatestVersion(info).Ok?
    ensures var items := info.value.items;
      && (forall i :: 0 <= i < |items| ==> VersionKey(items[i]).Ok?)
      && exists i :: IsFirstMax(VersionKeys(items).value, i)
                     && Json.JStr(LatestVersion(info).value) == items[i].fields["version"]
  {
    var items := info.value.items;
    VersionKeysEach(items);
    ArgMaxIsFirstMax(VersionKeys(items).value);
  }

  // ------------------------------------------------ remote Docker pipeline

  /** The steps of `RemoteDockerDeployPipeline.execute`, in source order. */
  datatype Step =
    | SwitchContext    // read docker/docker_context, switch the Docker context
    | CodeArtifactUrl  // build the CodeArtifact index URL
    | PackageInfo      // read publish/package_name, list the package's versions
    | ChooseVersion    // pick the latest version
    | CheckImage       // does the image already exist?
    | RemoveImage      // remove it, when it does
    | BuildImage       // docker build
    | TagLatest        // tag the image `latest`

  /** What the calls the pipeline makes do on one run. */
  datatype DeployEnv = DeployEnv(
    sections: Sections,                 // the shared configuration
    switchContext: Outcome,             // the Docker manager's context switch
    listVersions: Result<Ran, Exc>,     // what `Context.run` gave for the versions listing
    parsedVersions: Option<Json.Json>,  // the versions listing, None when it is not JSON
    imageCheck: Result<bool, Exc>,      // the image-existence check
    remove: Outcome,                    // removing the existing image
    build: Outcome,                     // building the image
    tag: Outcome)                       // tagging it `latest`

  /** The steps up to the choice of the version to deploy. */
  function ReleasePlan(): seq<Step> {
    [SwitchContext, CodeArtifactUrl, PackageInfo, ChooseVersion]
  }

  /** The image steps: the old image is removed only when the check found it. */
  function ImagePlan(env: DeployEnv): seq<Step> {
    if env.imageCheck == Ok(true) then [CheckImage, RemoveImage, BuildImage, TagLatest]
    else [CheckImage, BuildImage, TagLatest]
  }

  /** Every step the pipeline reaches when nothing fails. */
  function Plan(env: DeployEnv): seq<Step> {
    ReleasePlan() + ImagePlan(env)
  }

  /** Whether one step raises. The URL step never does: `get_codeartifact_url`
      catches its own errors and returns None; `get_package_info` likewise,
      so only the configuration read of the package step can raise. */
  function Attempt(env: DeployEnv, step: Step): Outcome {
    match step
    case SwitchContext =>
      var context := Lookup(env.sections, "docker", "docker_context");
      if context.Err? then Fail(context.error) else env.switchContext
    case CodeArtifactUrl => Pass
    case PackageInfo =>
      var name := Lookup(env.sections, "publish", "package_name");
      if name.Err? then Fail(name.error) else Pass
    case ChooseVersion =>
      var latest := LatestVersion(Aws.PackageInfo(env.sections, env.listVersions, env.parsedVersions));
      if latest.Err? then Fail(latest.error) else Pass
    case CheckImage => if env.imageCheck.Err? then Fail(env.imageCheck.error) else Pass
    case RemoveImage => env.remove
    case BuildImage => env.build
    case TagLatest => env.tag
  }

  /** Running `plan` inside a try block: the steps run in order, every step
      before the failing one passed, and the failing step is the last one
      reached; its exception is the one logged. */
  predicate StopsWithin(env: DeployEnv, plan: seq<Step>, passed: seq<Step>, failure: Option<(Step, Exc)>) {
    && (forall s :: s in passed ==> Attempt(env, s).Pass?)
    && (failure.None? ==> passed == plan)
    && (failure.Some? ==>
          passed + [failure.value.0] <= plan && Attempt(env, failure.value.0) == Fail(failure.value.1))
  }

  /** The whole pipeline is one such try block. */
  predicate StopsAtFirstFailure(env: DeployEnv, passed: seq<Step>, failure: Option<(Step, Exc)>) {
    StopsWithin(env, Plan(env), passed, failure)
  }

  /** A failure in the first part of a plan ends the run of the whole plan. */
  lemma StopsWithinExtend(env: DeployEnv, plan1: seq<Step>, plan2: seq<Step>, passed: seq<Step>, failure: (Step, Exc))
    requires StopsWithin(env, plan1, passed, Some(failure))
    ensures StopsWithin(env, plan1 + plan2, passed, Some(failure))
  {
    assert (passed + [failure.0]) <= plan1 + plan2 by {
      var n := |passed| + 1;
      assert (plan1 + plan2)[..n] == plan1[..n];
    }
  }

  /** When the first part of a plan runs through, the run of the whole plan
      is the first part followed by the run of the second. */
  lemma StopsWithinConcat(env: DeployEnv, plan1: seq<Step>, plan2: seq<Step>,
                          passed1: seq<Step>, passed2: seq<Step>, failure: Option<(Step, Exc)>)
    requires StopsWithin(env, plan1, passed1, None) && StopsWithin(env, plan2, passed2, failure)
    ensures StopsWithin(env, plan1 + plan2, passed1 + passed2, failure)
  {
    forall s | s in passed1 + passed2
      ensures Attempt(env, s).Pass?
    {
      assert s in passed1 || s in passed2;
    }
    if failure.Some? {
      var n := |passed2| + 1;
      assert passed1 + passed2 + [failure.value.0] == plan1 + (passed2 + [failure.value.0]);
      assert (plan1 + plan2)[..|plan1| + n] == plan1 + plan2[..n];
    }
  }

  /** The steps that passed are the plan's first steps. */
  lemma PassedPrefix(env: DeployEnv, passed: seq<Step>, failure: Option<(Step, Exc)>)
    requires StopsAtFirstFailure(env, passed, failure)
    ensures passed <= Plan(env)
    ensures failure.Some? ==> |passed| < |Plan(env)| && Plan(env)[|passed|] == failure.value.0
  {
    if failure.Some? {
      assert (passed + [failure.value.0])[|passed|] == failure.value.0;
    }
  }

  /** The run is determined by the environment: the abort rule leaves one
      possible sequence of steps and one possible error. */
  lemma StopsAtFirstFailureUnique(env: DeployEnv, passed1: seq<Step>, failure1: Option<(Step, Exc)>,
                                  passed2: seq<Step>, failure2: Option<(Step, Exc)>)
    requires StopsAtFirstFailure(env, passed1, failure1) && StopsAtFirstFailure(env, passed2, failure2)
    ensures passed1 == passed2 && failure1 == failure2
  {
    var plan := Plan(env);
    PassedPrefix(env, passed1, failure1);
    PassedPrefix(env, passed2, failure2);
    if |passed1| == |passed2| {
      assert passed1 == plan[..|passed1|] == passed2;
    }
  }

  /** The image is built only after every earlier step passed, and the old
      image is removed before the build exactly when the check found it. */
  lemma BuildAfterChecks(env: DeployEnv, passed: seq<Step>, failure: Option<(Step, Exc)>)
    requires StopsAtFirstFailure(env, passed, failure)
    ensures (BuildImage in passed || (failure.Some? && failure.value.0 == BuildImage)) ==>
      && (forall s :: s in Plan(env) && s != BuildImage && s != TagLatest ==> s in passed)
      && (RemoveImage in passed <==> env.imageCheck == Ok(true))
  {
    PassedPrefix(env, passed, failure);
    ReachedBuild(env, passed, failure);
  }

  /** The same, for any run that follows the plan, up to a failure. */
  lemma ReachedBuild(env: DeployEnv, passed: seq<Step>, failure: Option<(Step, Exc)>)
    requires passed <= Plan(env)
    requires failure.Some? ==> |passed| < |Plan(env)| && Plan(env)[|passed|] == failure.value.0
    ensures (BuildImage in passed || (failure.Some? && failure.value.0 == BuildImage)) ==>
      && (forall s :: s in Plan(env) && s != BuildImage && s != TagLatest ==> s in passed)
      && (RemoveImage in passed <==> env.imageCheck == Ok(true))
  {
    var plan := Plan(env);
    var reached := if failure.Some? then passed + [failure.value.0] else passed;
    assert reached <= plan;
    if BuildImage in passed || (failure.Some? && failure.value.0 == BuildImage) {
      assert BuildImage in reached;
      var b :| 0 <= b < |reached| && reached[b] == BuildImage;
      assert b == |plan| - 2;
      forall s | s in plan && s != BuildImage && s != TagLatest
        ensures s in passed
      {
        var k :| 0 <= k < |plan| && plan[k] == s;
        assert k < b;
        assert passed[k] == s;
      }
      if env.imageCheck == Ok(true) {
        assert plan[|plan| - 3] == RemoveImage;
      } else {
        assert plan == ReleasePlan() + [CheckImage, BuildImage, TagLatest];
        assert RemoveImage !in plan;
        assert forall k :: 0 <= k < |passed| ==> passed[k] == plan[k];
      }
    }
  }

  /** The first steps of `RemoteDockerDeployPipeline.execute`: switch the
      Docker context, build the index URL, list the package's versions and
      pick the latest. */
  method ReleaseSteps(env: DeployEnv) returns (passed: seq<Step>, failure: Option<(Step, Exc)>)
    ensures StopsWithin(env, ReleasePlan(), passed, failure)
  {
    var plan := ReleasePlan();
    var context := Lookup(env.sections, "docker", "docker_context");
    if context.Err? || env.switchContext.Fail? {
      var e := if context.Err? then context.error else env.switchContext.error;
      assert plan[..1] == [SwitchContext];
      return [], Some((SwitchContext, e));
    }
    assert Attempt(env, SwitchContext).Pass? && Attempt(env, CodeArtifactUrl).Pass?;
    var name := Lookup(env.sections, "publish", "package_name");
    if name.Err? {
      assert plan[..3] == [SwitchContext, CodeArtifactUrl, PackageInfo];
      return [SwitchContext, CodeArtifactUrl], Some((PackageInfo, name.error));
    }
    assert Attempt(env, PackageInfo).Pass?;
    var info := Aws.PackageInfo(env.sections, env.listVersions, env.parsedVersions);
    var latest := LatestVersion(info);
    if latest.Err? {
      assert Attempt(env, ChooseVersion) == Fail(latest.error);
      return [SwitchContext, CodeArtifactUrl, PackageInfo], Some((ChooseVersion, latest.error));
    }
    assert Attempt(env, ChooseVersion).Pass?;
    return plan, None;
  }

  /** The image steps of `RemoteDockerDeployPipeline.execute`. */
  method ImageSteps(env: DeployEnv) returns (passed: seq<Step>, failure: Option<(Step, Exc)>)
    ensures StopsWithin(env, ImagePlan(env), passed, failure)
  {
    passed := [];
    if env.imageCheck.Err? {
      return passed, Some((CheckImage, env.imageCheck.error));
    }
    passed := [CheckImage];
    if env.imageCheck.value {
      if env.remove.Fail? {
        return passed, Some((RemoveImage, env.remove.error));
      }
      passed := passed + [RemoveImage];
    }
    if env.build.Fail? {
      return passed, Some((BuildImage, env.build.error));
    }
    passed := passed + [BuildImage];
    if env.tag.Fail? {
      return passed, Some((TagLatest, env.tag.error));
    }
    passed := passed + [TagLatest];
    return passed, None;
  }

  /** `RemoteDockerDeployPipeline.execute`: each step in turn, leaving the
      try block at the first exception, which is logged and not raised.
      `passed` lists the steps that completed, `failure` the step that
      raised and its exception. */
  method RemoteDockerExecute(env: DeployEnv) returns (passed: seq<Step>, failure: Option<(Step, Exc)>)
    ensures StopsAtFirstFailure(env, passed, failure)
  {
    passed, failure := ReleaseSteps(env);
    if failure.Some? {
      StopsWithinExtend(env, ReleasePlan(), ImagePlan(env), passed, failure.value);
      return;
    }
    var imagePassed, imageFailure := ImageSteps(env);
    StopsWithinConcat(env, ReleasePlan(), ImagePlan(env), passed, imagePassed, imageFailure);
    passed, failure := passed + imagePassed, imageFailure;
  }

  // ------------------------------------------------------ pipeline choice

  datatype PipelineKind = RemoteDocker | Ecs

  /** The pipeline a `pipeline_type` value names, if any. */
  function KindOf(pipelineType: string): (k: Option<PipelineKind>)
    ensures k == Some(RemoteDocker) <==> pipelineType == "remote_docker"
    ensures k == Some(Ecs) <==> pipelineType == "ecs"
  {
    if pipelineType == "remote_docker" then Some(RemoteDocker)
    else if pipelineType == "ecs" then Some(Ecs)
    else None
  }

  class DeployManager {
    const sectionName: string
    const defaultSection: string
    /** The shared parser of the `Config` singleton. */
    const store: ConfigStore
    /** `self.pipeline`: None until a pipeline has been selected. */
    var pipeline: Option<PipelineKind>

    constructor (store: ConfigStore)
      ensures this.store == store && sectionName == "deploy" && defaultSection == "default_deploy"
      ensures pipeline.None?
    {
      sectionName := "deploy";
      defaultSection := "default_deploy";
      this.store := store;
      pipeline := None;
    }

    /** `select_pipeline`: reading `deploy/pipeline_type` raises KeyError
        when it is missing; a known type constructs its pipeline
        (`construct` is what that constructor does) and stores it; any other
        value is only logged, and the field keeps what it held. */
    method SelectPipeline(construct: Outcome) returns (r: Outcome)
      modifies this
      ensures var t := Lookup(store.sections, sectionName, "pipeline_type");
        && (t.Err? ==> r == Fail(t.error) && pipeline == old(pipeline))
        && (t.Ok? && KindOf(t.value).Some? ==>
              r == construct && pipeline == (if construct.Pass? then KindOf(t.value) else old(pipeline)))
        && (t.Ok? && KindOf(t.value).None? ==> r.Pass? && pipeline == old(pipeline))
    {
      var pipelineType := Lookup(store.sections, sectionName, "pipeline_type");
      if pipelineType.Err? {
        return Fail(pipelineType.error);
      }
      var kind := KindOf(pipelineType.value);
      if kind.Some? {
        if construct.Fail? {
          return construct;
        }
        pipeline := kind;
      }
      return Pass;
    }

    /** `execute_deploy`: selection errors propagate; otherwise the pipeline
        held after selection runs, whichever call stored it, and without one
        only an error is logged. The remote pipeline never raises; the ECS
        pipeline only warns and runs no step. */
    method ExecuteDeploy(construct: Outcome, env: DeployEnv)
      returns (r: Outcome, ran: Option<PipelineKind>, passed: seq<Step>, failure: Option<(Step, Exc)>)
      modifies this
      ensures var t := Lookup(store.sections, sectionName, "pipeline_type");
        && (t.Err? ==> r == Fail(t.error) && pipeline == old(pipeline))
        && (t.Ok? && KindOf(t.value).Some? ==>
              r == construct && pipeline == (if construct.Pass? then KindOf(t.value) else old(pipeline)))
        && (t.Ok? && KindOf(t.value).None? ==> r.Pass? && pipeline == old(pipeline))
      ensures r.Fail? ==> ran.None? && passed == [] && failure.None?
      ensures r.Pass? ==> ran == pipeline
      ensures ran == Some(RemoteDocker) ==> StopsAtFirstFailure(env, passed, failure)
      ensures ran != Some(RemoteDocker) ==> passed == [] && failure.None?
    {
      r := SelectPipeline(construct);
      ran, passed, failure := None, [], None;
      if r.Fail? {
        return;
      }
      ran := pipeline;
      if pipeline == Some(RemoteDocker) {
        passed, failure := RemoteDockerExecute(env);
      }
    }
  }
}
