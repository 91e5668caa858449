# Pilot workflow core, modelled in Dafny

Pilot is a developer-workflow command line tool. It keeps per-tool sections
in a `.conf` file (`Config`) and runs shell commands through an `invoke`
context (`Context`). Managers built on `BaseManager` drive Git, AWS
CodeArtifact, Docker, VS Code and `pyproject.toml` from that configuration.
This project models the logic under the shell calls:

- **Git.** Finding the repository, the change check, the severity menu,
  semantic tag parsing, bumping and formatting, and the commit sequence of
  `execute_commit`.
- **Deploy.** Pipeline selection in `DeployManager`, and the
  abort-on-first-failure steps of the remote Docker pipeline with their
  numeric "latest version" choice.
- **Config and Context.** Section lookup with a default-section fallback in
  `Config.get`, and loading of the configuration file. Context adds the
  ensure-section initialisers and the result normalisation of `Context.run`.
- **AWS.** The CodeArtifact token, URL and `pip.conf` text, plus the
  `aws configure` decision.
- **Docker.** The context and image checks, and the checked configuration
  lookup.
- **VS Code.** The `launch.json` and `settings.json` merges, and the
  extension installs.
- **pyproject.** The stable-dependency filter and the dependency update.
- **Base classes.** The singleton registry and the required-attribute
  check of `BaseManager`.

One module per source file:

| module | file |
|---|---|
| `Wrappers` | `Option`, `Result`, the Python exceptions raised (`Exc`), and `Outcome` (a step that passes or raises) |
| `PyStr` | the Python `str` operations the code relies on: `strip`, `lstrip`, `split`, `splitlines`, `in`, `int()`, `str(int)`, `os.path.join` |
| `Json` | decoded JSON/TOML documents |
| `Config`, `Context`, `Manager`, `Singleton` | `config.py`, `context.py`, `base/manager.py`, `singleton.py` |
| `Git`, `Deploy`, `Aws`, `Docker`, `Vscode`, `Pyproject` | the files of the same name |

Inputs to the model:

- **Shell commands.** What a command did is an input. `Context.Exec` says
  whether the process exited, with which output, or failed to start.
  Where a manager calls `Context.run` itself, the model takes what
  `ShellContext.Run` gives: the result, or the KeyError raised when the
  `verbosity` option is missing.
- **Files.** A file read is an input: the parsed configuration sections,
  the decoded document, or the requirements text.
- **Written files.** Each written document or configuration is appended to
  a `written`/`saved` sequence.
- **Prompts.** Answers to `input()` come as a sequence.
- **Directory walks.** An `os.walk` listing is a sequence of directory
  entries.

Truth values follow the source. An `invoke` result is true exactly when its
exit code is 0. Pilot's `CustomResult` defines no truth value, so it is
always true.

## Model

| member | source | states |
|---|---|---|
| PyStr.StripEnds | pilot/src/git.py:64-66 | `strip()` gives the empty string exactly when the input is all whitespace; otherwise neither end of the result is whitespace |
| PyStr.StripIdempotent | pilot/src/docker.py:25 | stripping a stripped string changes nothing |
| PyStr.StripPadded | pilot/src/docker.py:24-26 | stripping a clean text surrounded by any whitespace gives back exactly that text |
| PyStr.StripNoLineBreak | pilot/src/aws.py:145 | stripping never introduces a line boundary |
| PyStr.LStripChar | pilot/src/git.py:98 | `lstrip('v')` removes exactly the leading run of `v`: the removed prefix is all `v` and the rest does not start with one |
| PyStr.ContainsAt | pilot/src/aws.py:34 | `sub in s` holds exactly when `sub` occurs at some index of `s` |
| PyStr.JoinSplit | pilot/src/pyproject.py:43 | `split(sep)` loses nothing: joining the pieces with `sep` gives back the input |
| PyStr.SplitCharAbsent | pilot/src/git.py:98 | splitting on a character the text lacks gives the text as the only piece |
| PyStr.SplitCharFirst | pilot/src/git.py:98 | splitting on a character ends the first piece at the first occurrence and splits the rest alike |
| PyStr.FirstBreak | pilot/src/git.py:95-96 | the first line of a text ends at its first line boundary |
| PyStr.SplitLines | pilot/src/git.py:70 | `splitlines()` returns no lines exactly for the empty text, and no line holds a line boundary |
| PyStr.LineCount | pilot/src/git.py:70 | a non-empty text not ending in a boundary has one line more than it has boundaries |
| PyStr.SplitLinesConcat | pilot/src/aws.py:116-125 | `splitlines()` gives back the lines that were joined with newlines, when none holds a boundary |
| PyStr.ParseIntPadded | pilot/src/git.py:98 | `int()` ignores any padding of the whitespace it skips (ASCII `\t` to `\r` and space, and non-ASCII whitespace) around a number |
| PyStr.ParseIntSeparators | pilot/src/git.py:98 | U+001C and U+001F are `isspace()` whitespace, yet a number next to one is refused; ordinary spaces and newlines are skipped |
| PyStr.FormatInt | pilot/src/git.py:111 | `str(i)` is non-empty, starts with a sign or digit, ends with a digit, and holds no dot |
| PyStr.ParseFormatInt | pilot/src/git.py:98-111 | `int(str(i)) == i` for every integer |
| PyStr.JoinPath | pilot/src/docker.py:15 | `os.path.join(root, name)`: an absolute name replaces the root; otherwise the result starts with the root and ends with the name, with at most one character between, and a `/` right before the name unless the root is empty |
| Config.Lookup | pilot/src/context.py:46 | indexing `config[section][key]` gives the stored value exactly when both exist; KeyError naming the section when it is missing, else naming the key |
| Config.PairsToMapKeys | pilot/src/context.py:36-37 | a section filled from default pairs has exactly their keys |
| Config.PairsToMapAt | pilot/src/context.py:36-37 | with distinct keys, each key of the section holds its own default |
| Config.Merge | pilot/src/config.py:25 | `read` adds the file's sections, overrides the options it names, and keeps every other section and option |
| Config.MergeIntoEmpty | pilot/src/docker.py:19-20 | reading into a fresh parser gives exactly the file's sections |
| Config.ConfigStore.constructor | pilot/src/config.py:11-14 | the configuration file is `<root>/.conf` and nothing is loaded yet |
| Config.ConfigStore.ConfigPath | pilot/src/config.py:20 | the default file when no specific file is given (None or empty), else the file given joined to the project root |
| Config.ConfigStore.LoadConfig | pilot/src/config.py:18-25 | FileNotFoundError naming the path exactly when it is missing, with nothing changed; otherwise the file is merged into the sections |
| Config.ConfigStore.SaveConfig | pilot/src/config.py:27-30 | the sections are written unchanged |
| Config.ConfigStore.Get | pilot/src/config.py:36-50 | the caller's own section's value when it is non-empty; the default section's non-empty value exactly when the own section is unset or its value is empty; None when there is no caller, when the own lookup misses, or when neither gives a non-empty value |
| Config.ConfigStore.DefaultValue | pilot/src/config.py:46-47 | the default section's value exactly when the default section is set and holds a non-empty value for the key |
| Context.ShellContext.constructor | pilot/src/context.py:20-30 | sections `context`/`context_git`, no click context, and the context section ensured as by `init` |
| Context.ShellContext.Init | pilot/src/context.py:32-38 | an absent `context` section is added with exactly the defaults and saved; an existing one is left untouched and nothing is saved |
| Context.ShellContext.Run | pilot/src/context.py:44-63 | raises exactly when the verbosity key is missing; `vvv` and `vv` warn, only `vvv` shows output; the output and exit code are carried over, and a failed exit becomes a `CustomResult` unless warn is set; a process that cannot start gives `CustomResult` with the error as stderr and code -1 |
| Context.ShellContext.DefaultVerbosityAlwaysTruthy | pilot/src/context.py:54-63 | without `vv`/`vvv`, every result of `run` is true in an `if`, failed commands included |
| Context.ShellContext.WarnTruthyIffExitZero | pilot/src/context.py:50-53 | with `vv`/`vvv`, a result is true in an `if` exactly when the command exited with 0 |
| Context.ShellContext.SetClickContext | pilot/src/context.py:40-42 | the click parameters are the ones given |
| Context.ShellContext.GetClickOption | pilot/src/context.py:65-69 | None without a click context; otherwise the parameter's value exactly when it is present |
| Manager.Initial | pilot/base/manager.py:15-16 | a new manager has neither `section_name` nor `default_section` |
| Manager.CheckRequiredAttributes | pilot/base/manager.py:18-23 | passes exactly when both names are non-empty; otherwise AttributeError for `section_name` first, then for `default_section` |
| Manager.InitialFailsCheck | pilot/base/manager.py:15-23 | a manager whose subclass sets neither name fails on `section_name` |
| Manager.EmptyNameFailsCheck | pilot/base/manager.py:20-21 | an empty section name counts as unset |
| Singleton.Instance.constructor | pilot/singleton.py:6 | a new instance of the class, not yet initialised |
| Singleton.Registry.constructor | pilot/singleton.py:2 | the registry starts empty |
| Singleton.Registry.New | pilot/singleton.py:4-9 | the first construction of a class registers a fresh instance and initialises it once with the arguments; later constructions return the stored instance without initialising; entries are never replaced; distinct classes get distinct instances; an initialiser that raises leaves the instance registered |
| Git.Parent | pilot/src/git.py:39-42 | the parent drops the last path component; the root is its own parent |
| Git.FindRepo | pilot/src/git.py:36-43 | the nearest ancestor of the start path, the start included and the root excluded, that holds `.git`; None exactly when there is none |
| Git.CheckChanges | pilot/src/git.py:59-76 | changes exactly when the status output is not all whitespace; a warning exactly when the stripped output has more than ten lines |
| Git.SeverityFor | pilot/src/git.py:82-83 | `1` maps to major, `2` to feature, `3` to bugfix, and nothing else maps to a severity |
| Git.FirstValid | pilot/src/git.py:80-88 | the index of the first valid answer, every earlier one being invalid |
| Git.AskSeverity | pilot/src/git.py:78-88 | the severity of the first valid answer, having consumed exactly the answers up to it; EOFError when the answers run out |
| Git.LastTag | pilot/src/git.py:94-96 | `v0.0.0` when the tag listing is blank; otherwise its first line |
| Git.FirstLine | pilot/src/git.py:95-96 | the first line of `splitlines()` is the text up to the first boundary |
| Git.BumpIncreases | pilot/src/git.py:100-109 | major, feature and bugfix each give a strictly greater version and reset the lower parts; any other severity changes nothing |
| Git.LStripV | pilot/src/git.py:98 | one leading `v` is removed, and a body without one is kept |
| Git.SplitThree | pilot/src/git.py:98 | three dot-free parts joined with dots split back into those three |
| Git.ParseFormatTag | pilot/src/git.py:98-111 | the tag formatted as `v{M}.{m}.{p}` parses back to the same version |
| Git.ParseTagTwoParts | pilot/src/git.py:98 | every tag `v<a>.<b>` with two integer components is rejected |
| Git.ParseTagLeadingV | pilot/src/git.py:98 | a leading `v` does not change what a tag parses to |
| Git.NextTag | pilot/src/git.py:94-111 | a next tag exactly when the last tag parses, and it parses back to the last version bumped by the severity |
| Git.TagCommands | pilot/src/git.py:94-113 | the tag listing first, followed by the annotate and push commands exactly when there is a next tag |
| Git.CreateSemanticTag | pilot/src/git.py:90-116 | the tag listing is read first; a last tag that does not parse issues nothing more; otherwise the new tag is `v{M}.{m}.{p}` of the bumped version, parses back to it, and is annotated, then pushed |
| Git.CommitMessage | pilot/src/git.py:159 | the message starts with the impact under `[Impacto]`, has the modification under `[Modificações]` in the middle, and ends with the severity under `[Severidade]` |
| Git.NewCommit | pilot/src/git.py:163-183 | `git add .`, the commit only when the add exited with 0, then, exactly when the last result is true, the tag commands of the given severity |
| Git.AnswerAndCommit | pilot/src/git.py:152-183 | EOFError with no command when the impact, modification or a valid severity is missing; otherwise the commit steps with the message built from the answers and the tag commands of the first valid severity |
| Git.ExecuteCommit | pilot/src/git.py:20-183 | without a repository path, `init` raises AttributeError when the `git` section is missing or a repository is found above the working directory, and nothing runs otherwise; the KeyError of a missing verbosity escapes from the status command; only the status check without changes; amend runs add and, if it exited with 0, the amend; otherwise the answered commit and its tag commands |
| Docker.LoadConfig | pilot/src/docker.py:14-21 | FileNotFoundError naming `<root>/docker.conf` exactly when it does not exist; otherwise its sections |
| Docker.CheckContext | pilot/src/docker.py:23-27 | raises exactly when the stripped output differs from the expected context |
| Docker.CheckContextPadding | pilot/src/docker.py:23-27 | the context's name passes whatever whitespace surrounds it; an expected name with whitespace at an end never passes |
| Docker.ImageExists | pilot/src/docker.py:33-35 | true exactly when the output holds a character that is not whitespace |
| Docker.RemoveCommand | pilot/src/docker.py:29-31 | `docker rmi -f <image>:<version>` |
| Docker.GetConfigValue | pilot/src/docker.py:37-43 | the value exactly when the section and the option exist; otherwise KeyError naming both |
| Docker.GetConfigValueAgreesWithLookup | pilot/src/docker.py:41-43 | the checked lookup succeeds where plain indexing does, with the same value |
| Aws.ResolvedSection | pilot/src/aws.py:23-24 | the keys set are exactly those of the defaults; each holds the keyword argument when given, else its default |
| Aws.Init | pilot/src/aws.py:15-26 | the `aws` section is ensured and every default key set as above, other options kept; `save_config` then raises AttributeError |
| Aws.ConfigureCommands | pilot/src/aws.py:28-40 | `aws configure list` first; `aws configure` follows exactly when the listing ran, its result is true and its output contains `None`; a raised error is caught |
| Aws.AssumeRole | pilot/src/aws.py:42-60 | None whenever the command ran; the KeyError of a missing verbosity escapes |
| Aws.Values | pilot/src/aws.py:139-140 | the `aws` options in order exactly when all exist; KeyError otherwise |
| Aws.Settings | pilot/src/aws.py:119-124 | the four CodeArtifact settings exactly when all four exist |
| Aws.CodeArtifactToken | pilot/src/aws.py:135-145 | the stripped command output when the domain and account exist and the command ran; KeyError for a missing value, otherwise the error of the run |
| Aws.CodeArtifactUrl | pilot/src/aws.py:147-168 | the index URL from the stripped token and the four settings when all exist and the command ran; None otherwise |
| Aws.PipConf | pilot/src/aws.py:110-133 | the file is written exactly when the four settings exist and the token command ran |
| Aws.PipConfLayout | pilot/src/aws.py:116-125 | the file's lines are the fixed layout; the extra index is the CodeArtifact URL, and the last trusted host is that URL's host |
| Aws.PipConfLinesRoundTrip | pilot/src/aws.py:116-125 | reading the text back by lines gives the layout's lines |
| Aws.PackageInfo | pilot/src/aws.py:170-189 | the parsed output when the settings exist, the command ran and the output parses; None otherwise |
| Aws.Update | pilot/src/aws.py:191-192 | always NotImplementedError |
| Deploy.KeyLessIrreflexive | pilot/src/deploy.py:67 | no version key is below itself |
| Deploy.KeyLessTransitive | pilot/src/deploy.py:67 | the list comparison of version keys is transitive |
| Deploy.KeyLessTotal | pilot/src/deploy.py:67 | any two distinct keys are ordered, a proper prefix ranking lower |
| Deploy.ParseComponents | pilot/src/deploy.py:67 | `list(map(int, …))` succeeds exactly when every component parses, giving their values; ValueError otherwise |
| Deploy.VersionKey | pilot/src/deploy.py:67 | a key exactly for an object with a string `version` whose components parse; KeyError for a missing version, TypeError for a non-object |
| Deploy.VersionOf | pilot/src/deploy.py:68 | the element's `version` string |
| Deploy.VersionKeysEach | pilot/src/deploy.py:67 | the keys of all elements exactly when each has one, in order; otherwise the error of the first element without one |
| Deploy.ArgMaxIsFirstMax | pilot/src/deploy.py:67 | the chosen index holds a maximal key, and every earlier key is strictly lower |
| Deploy.LatestVersion | pilot/src/deploy.py:64-68 | a version exactly for a non-empty list whose elements all have keys; TypeError for no package info, ValueError for an empty list, the first key error otherwise |
| Deploy.LatestVersionIsFirstMax | pilot/src/deploy.py:67-68 | the version returned is that of the first element with the largest key |
| Deploy.PassedPrefix | pilot/src/deploy.py:56-87 | the steps done are a prefix of the plan, and a failure is the next step of the plan |
| Deploy.StopsAtFirstFailureUnique | pilot/src/deploy.py:56-87 | the run of the pipeline is determined by the step outcomes |
| Deploy.BuildAfterChecks | pilot/src/deploy.py:74-79 | the build is reached only after every earlier step passed, and the image was removed exactly when it existed |
| Deploy.ReleaseSteps | pilot/src/deploy.py:58-68 | context switch, URL, package info and version choice, stopping at the first failure |
| Deploy.ImageSteps | pilot/src/deploy.py:74-82 | existence check, removal only when the image exists, build and `latest` tag, stopping at the first failure |
| Deploy.RemoteDockerExecute | pilot/src/deploy.py:54-87 | runs the plan in order up to and including the first failing step and no further |
| Deploy.KindOf | pilot/src/deploy.py:32-35 | `remote_docker` and `ecs` select their pipelines; nothing else selects one |
| Deploy.DeployManager.constructor | pilot/src/deploy.py:13-17 | sections `deploy`/`default_deploy` and no pipeline |
| Deploy.DeployManager.SelectPipeline | pilot/src/deploy.py:28-37 | a missing `pipeline_type` raises with nothing changed; a known type sets the pipeline when it could be built; an unknown type keeps the previous pipeline |
| Deploy.DeployManager.ExecuteDeploy | pilot/src/deploy.py:39-44 | after selection, the pipeline set (possibly an earlier one) runs; the remote Docker pipeline stops at its first failure, and Ecs runs no step |
| Vscode.DirTestFilesExactly | pilot/src/vscode.py:104-105 | a directory yields exactly its `test_*.py` files |
| Vscode.TestFilesExactly | pilot/src/vscode.py:103-105 | the walk yields exactly the `test_*.py` files of its directories |
| Vscode.ConfigsAppend | pilot/src/vscode.py:106-114 | one more test file adds its configuration at the end |
| Vscode.CreateTestConfigs | pilot/src/vscode.py:99-115 | one configuration per test file, in walk order |
| Vscode.MainPyIndex | pilot/src/vscode.py:92-97 | the index of the first directory of the walk holding `__main__.py`, every earlier one holding none; the walk's length when none does |
| Vscode.MainPyPathFirst | pilot/src/vscode.py:92-97 | a path exactly when some directory holds `__main__.py`, and then it is the first such directory's |
| Vscode.FindMainPy | pilot/src/vscode.py:92-97 | the loop finds the first `__main__.py` of the walk |
| Vscode.LoadedOr | pilot/src/vscode.py:43-46 | the loaded document when it is true in Python, else the default |
| Vscode.UpdatedLaunch | pilot/src/vscode.py:40-65 | fails exactly when the document has no configuration list; otherwise only that list changes: the main entry first when found, then the existing entries, then the tests |
| Vscode.UpdatedLaunchFresh | pilot/src/vscode.py:43-63 | without a `launch.json`, version 0.2.0 and only the new entries |
| Vscode.UpdatedLaunchTwice | pilot/src/vscode.py:59-63 | a second update adds the main entry and the tests again |
| Vscode.UpdatedSettings | pilot/src/vscode.py:67-90 | both path lists keep their entries and gain the workspace folder and editable paths; strict type checking and auto-import are set; other keys are kept; a non-list path entry fails |
| Vscode.UpdatedSettingsTwice | pilot/src/vscode.py:72-88 | a second update appends the workspace folder again |
| Vscode.InstallCommands | pilot/src/vscode.py:130-155 | one install per extension, in order (the five defaults when none are named); the update command last exactly when asked for |
| Vscode.VscodeManager.constructor | pilot/src/vscode.py:8-16 | sections `vscode`/`default_vscode` and the documents as found |
| Vscode.VscodeManager.UpdateLaunchJson | pilot/src/vscode.py:40-65 | `launch.json` becomes the updated document, or is unchanged with the error |
| Vscode.VscodeManager.UpdateSettingsJson | pilot/src/vscode.py:67-90 | `settings.json` becomes the updated document, or is unchanged with the error |
| Vscode.VscodeManager.Update | pilot/src/vscode.py:35-38 | launch first; a launch failure leaves the settings untouched |
| Vscode.VscodeManager.Init | pilot/src/vscode.py:18-28 | a missing `vscode` section is added, and `save_config` then raises before any update; otherwise `update` |
| Vscode.VscodeManager.InstallExtensions | pilot/src/vscode.py:123-161 | every command is attempted whatever happened to the others, each reported by its own result |
| Pyproject.FilterStableVersions | pilot/src/pyproject.py:34-46 | the loop computes the filter of the requirement lines |
| Pyproject.FirstUnpackError | pilot/src/pyproject.py:42-43 | the first line that does not unpack ends the filter with its ValueError |
| Pyproject.StableVersionsOk | pilot/src/pyproject.py:42-43 | the filter succeeds exactly when every line splits on `==` into two parts; it only raises ValueError |
| Pyproject.StableVersionsMembers | pilot/src/pyproject.py:42-45 | a line is kept exactly when its version has neither `dirty` nor `post` |
| Pyproject.StableVersionsSubsequence | pilot/src/pyproject.py:41-46 | the lines kept stay in their order |
| Pyproject.StableVersionsIdempotent | pilot/src/pyproject.py:34-46 | filtering the kept lines keeps all of them |
| Pyproject.LoadPyproject | pilot/src/pyproject.py:48-62 | the decoded document, or `{}` on any failure |
| Pyproject.WithDependencies | pilot/src/pyproject.py:82 | only `project.dependencies` changes; KeyError without a `project` table |
| Pyproject.WithDependenciesIdempotent | pilot/src/pyproject.py:82 | setting the same dependencies again changes nothing |
| Pyproject.PyprojectManager.constructor | pilot/src/pyproject.py:12-19 | the file is `<root>/pyproject.toml`, and the document is loaded as above |
| Pyproject.PyprojectManager.Init | pilot/src/pyproject.py:21-28 | the document is loaded again |
| Pyproject.PyprojectManager.UpdateDependencies | pilot/src/pyproject.py:72-89 | a missing requirements file, a line that does not unpack, or a missing project table leaves the document unchanged and writes nothing; otherwise the stable lines become the dependencies and the document is written once |

## Left out

- Processes, files and consoles are left out: running shell commands, reading and writing files, logging, colours and `input()`. What they return or read is a parameter. What they write is recorded in a sequence.
- pilot/src/log.py defines `Logger`, while pilot/src/config.py, pilot/src/docker.py and pilot/base/manager.py import `LogManager` from it. The model assumes those imports succeed, and logging is left out.
- `Config._get_caller_class` inspects the call stack. It is replaced by the caller's `(section_name, default_section)` pair, passed explicitly. Config.ConfigStore.Get's `None` caller covers a caller without those attributes.
- Config.Merge does not model these ConfigParser features: the DEFAULT section, interpolation, lower-casing of option names and the file syntax.
- The contents of `AWS_DEFAULTS` and `CONTEXT_DEFAULTS` are not part of this model, so they are parameters.
- `DeployManager.init` is not modelled. Its `for key, in DEPLOY_DEFAULTS.items()` raises on any non-empty dict.
- Git.ExecuteCommit models `GitManager.init` only as far as its outcome: `save_config` raises AttributeError before `configura_repo` or `instala_hooks` can run. The section it adds and the `repo_path` it sets before raising are not modelled.
- `instala_hooks` and `configura_repo` are left out. They copy files and change file modes, and `execute_commit` never reaches them.
- Git.NewCommit, Git.AnswerAndCommit and Git.CreateSemanticTag take what `Context.run` returned for their commands. Git.ExecuteCommit's status command is the first to read the verbosity option, so its KeyError is the one that escapes.
- Git.CheckChanges takes the output of the status command; the KeyError `Context.run` raises is handled by Git.ExecuteCommit.
- `authenticate_twine` and `authenticate_pip` only run commands and call `update_pip_conf`, so they are left out.
- Deploy.Attempt treats the pipeline's Docker steps as abstract outcomes. pilot/src/deploy.py builds `DockerManager()` without its required project root. It also calls `mudar_contexto_docker`, `build_docker_image` and `tag_image`, which pilot/src/docker.py does not define. Its calls of `verificar_existencia_imagem` and `remover_imagem` (pilot/src/deploy.py:74-75) pass two arguments, where pilot/src/docker.py:29,33 declare three besides `self`.
- The arguments of the Docker build (image name, Dockerfile path, URL) are not modelled.
- Deploy.DeployManager.SelectPipeline takes whether the pipeline's constructor raised as a parameter.
- The Ecs pipeline's only effect is a warning, so it runs no step.
- Docker.CheckContext raises a plain `Exception`, modelled as RuntimeError.
- Vscode.VscodeManager.Init takes `os.getcwd()`, `Path.resolve` and the creation of `.vscode` as given.
- Vscode.EditablePackagesPaths is `find_editable_packages_paths`, which always returns an empty list.
- The Vscode documents are JSON values. Key order, floating-point numbers and malformed files are left out; a file that does not load is `None`.
- Vscode.ExtensionList only states the number of default extensions. Their names are the constant DefaultExtensions.
- `PyprojectManager.__init__` reads `self.project_root` and `self.log` without calling `BaseManager.__init__` or setting them. Pyproject.PyprojectManager.constructor takes the root as a parameter and models the evident intent.
- `_get_version` and `update` of `PyprojectManager` are left out: one calls `setuptools_scm`, the other only raises NotImplementedError.
- TOML decoding and encoding (`tomllib`, `tomli_w`) are left out. The document is held decoded, and writing is assumed to succeed.
- Pyproject.UnpackError uses the ValueError messages of CPython 3.11 and 3.12. Later versions also print the count found.
- The `Config` singleton's `_initialize` load is left out. Its parts are modelled: Config.ConfigStore.constructor and Config.ConfigStore.LoadConfig.
- PyStr.ParseInt accepts ASCII digits only. Python's `int()` also accepts other Unicode decimal digits.
- Aws.CodeArtifactToken states the stripped output. What stripping guarantees is stated by PyStr.StripEnds.
- Aws.AssumeRole does not model the command line. The role and the session name only shape it.
- Git.ParseTag checks the number of parts before it parses them, where Python converts each part first. For a tag with the wrong count and a bad part, the ValueError message differs; the kind is the same, and the message is only logged.
