/** The shell execution context (`Context`, pilot/src/context.py): runs a
    command through invoke with a verbosity-dependent hide/warn policy and
    turns failures into a `CustomResult` instead of raising. The process
    itself is an input: `Exec` says what the spawned command did. */
module Context {
  import opened Wrappers
  import opened Config

  /** What running the command produced: an exit with captured output, or
      an exception before any exit status existed (tool missing, ...). */
  datatype Exec =
    | Exited(stdout: string, stderr: string, code: int)
    | SpawnFailed(message: string)

  /** What `run` hands back: invoke's own Result, or pilot's CustomResult. */
  datatype RunResult =
    | InvokeResult(stdout: string, stderr: string, returnCode: int)
    | CustomResult(stdout: string, stderr: string, returnCode: int)

  /** The `CustomResult` constructor with its default arguments. */
  function NewCustomResult(stdout: string := "", stderr: string := "", returnCode: int := -1): RunResult
  {
    CustomResult(stdout, stderr, returnCode)
  }

  /** Truth value in `if result:`. invoke's Result is true iff its exit code
      is 0; CustomResult defines no `__bool__`, so it is always true. */
  predicate Truthy(r: RunResult) {
    r.CustomResult? || r.returnCode == 0
  }

  /** The `hide` and `warn` keywords passed to invoke. */
  datatype RunOptions = RunOptions(hide: bool, warn: bool)

  function OptionsFor(verbosity: string): RunOptions
  {
    if verbosity == "vvv" then RunOptions(false, true)
    else if verbosity == "vv" then RunOptions(true, true)
    else RunOptions(true, false)
  }

  /** One call of `run`: the options it chose and the result it returned. */
  datatype Ran = Ran(options: RunOptions, result: RunResult)

  class ShellContext {
    const sectionName: string
    const defaultSection: string
    /** The shared parser of the `Config` singleton. */
    const store: ConfigStore
    /** The click context's parameters, once one has been set. */
    var clickParams: Option<map<string, string>>

    /** `_initialize`: fixes the section names, runs `init` and clears the
        click context. */
    constructor (store: ConfigStore, contextDefaults: seq<(string, string)>)
      requires DistinctKeys(contextDefaults)
      modifies store
      ensures this.store == store && sectionName == "context" && defaultSection == "context_git"
      ensures clickParams.None?
      ensures "context" in old(store.sections) ==>
        store.sections == old(store.sections) && store.saved == old(store.saved)
      ensures "context" !in old(store.sections) ==>
        && store.sections == old(store.sections)["context" := PairsToMap(contextDefaults)]
        && store.saved == old(store.saved) + [store.sections]
    {
      sectionName := "context";
      defaultSection := "context_git";
      this.store := store;
      clickParams := None;
      new;
      Init(contextDefaults);
    }

    /** `init`: only when the section is absent, adds it with every default
        and saves; an existing section is left as it is and nothing is saved. */
    method Init(contextDefaults: seq<(string, string)>)
      requires DistinctKeys(contextDefaults)
      modifies store
      ensures sectionName in old(store.sections) ==>
        store.sections == old(store.sections) && store.saved == old(store.saved)
      ensures sectionName !in old(store.sections) ==>
        && store.sections == old(store.sections)[sectionName := PairsToMap(contextDefaults)]
        && store.saved == old(store.saved) + [store.sections]
    {
      if sectionName !in store.sections {
        ghost var before := store.sections;
        // add_section
        var section: Section := map[];
        store.sections := store.sections[sectionName := section];
        var i := 0;
        while i < |contextDefaults|
          invariant 0 <= i <= |contextDefaults|
          invariant section == PairsToMap(contextDefaults[..i])
          invariant store.sections == before[sectionName := section]
          invariant store.saved == old(store.saved)
        {
          var key, fallback := contextDefaults[i].0, contextDefaults[i].1;
          // config.get(section, key, fallback=default_value) on the section being filled
          var value := if key in section then section[key] else fallback;
          PairsToMapStep(contextDefaults, i);
          section := section[key := value];
          store.sections := store.sections[sectionName := section];
          i := i + 1;
        }
        assert contextDefaults[..i] == contextDefaults;
        store.SaveConfig();
      }
    }

    /** `run`: reads the verbosity outside the try block (a missing section
        or key raises KeyError), then never raises. An exit is reported with
        its own output and code; a non-zero exit without `warn` becomes a
        CustomResult carrying them; any other exception becomes
        `CustomResult(stderr=str(e))` with code -1. */
    function Run(exec: Exec): (r: Result<Ran, Exc>)
      reads this, store
      ensures r.Err? <==> !("context" in store.sections && "verbosity" in store.sections["context"])
      ensures r.Ok? ==> var v := store.sections["context"]["verbosity"];
        && r.value.options.warn == (v == "vv" || v == "vvv")
        && r.value.options.hide == (v != "vvv")
      ensures r.Ok? && exec.Exited? ==>
        && r.value.result.stdout == exec.stdout
        && r.value.result.stderr == exec.stderr
        && r.value.result.returnCode == exec.code
        && (r.value.result.InvokeResult? <==> exec.code == 0 || r.value.options.warn)
      ensures r.Ok? && exec.SpawnFailed? ==> r.value.result == NewCustomResult(stderr := exec.message)
    {
      match Lookup(store.sections, "context", "verbosity")
      case Err(e) => Err(e)
      case Ok(verbosity) =>
        var options := OptionsFor(verbosity);
        match exec
        case Exited(out, err, code) =>
          if code == 0 || options.warn then Ok(Ran(options, InvokeResult(out, err, code)))
          else Ok(Ran(options, NewCustomResult(out, err, code)))   // UnexpectedExit
        case SpawnFailed(message) => Ok(Ran(options, NewCustomResult(stderr := message)))
    }

    /** With the default verbosity every result `run` returns is true in an
        `if`, even one reporting a failed command. */
    lemma DefaultVerbosityAlwaysTruthy(exec: Exec)
      requires "context" in store.sections && "verbosity" in store.sections["context"]
      requires store.sections["context"]["verbosity"] !in {"vv", "vvv"}
      ensures Run(exec).Ok? && Truthy(Run(exec).value.result)
    {
    }

    /** With `vv` or `vvv`, a command that exited is true in an `if` exactly
        when its exit code is 0. */
    lemma WarnTruthyIffExitZero(exec: Exec)
      requires "context" in store.sections && "verbosity" in store.sections["context"]
      requires store.sections["context"]["verbosity"] in {"vv", "vvv"}
      requires exec.Exited?
      ensures Run(exec).Ok? && (Truthy(Run(exec).value.result) <==> exec.code == 0)
    {
    }

    method SetClickContext(params: map<string, string>)
      modifies this
      ensures clickParams == Some(params)
    {
      clickParams := Some(params);
    }

    /** `get_click_option`: None until a click context is set, then the
        parameter's value when it has one. */
    function GetClickOption(name: string): (r: Option<string>)
      reads this
      ensures clickParams.None? ==> r.None?
      ensures clickParams.Some? ==> (r.Some? <==> name in clickParams.value)
      ensures r.Some? ==> r.value == clickParams.value[name]
    {
      match clickParams
      case None => None
      case Some(params) => if name in params then Some(params[name]) else None
    }
  }
}
