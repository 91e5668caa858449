/** The Git workflow of `GitManager` (pilot/src/git.py): finding the
    repository above the working directory, deciding whether there is
    anything to commit, asking for the severity of a change, building the
    commit, and creating the next semantic-version tag. Every shell command
    is an input (what it printed, or the result `Context.run` returned), and
    every answer typed at a prompt comes from a supplied list. */
module Git {
  import opened Wrappers
  import opened PyStr
  import opened Context

  // ------------------------------------------------------ repository walk

  /** An absolute path as its components below the filesystem root; the
      root itself is `[]`. */
  type Path = seq<string>

  /** `path.parent`; the root is its own parent. */
  function Parent(p: Path): (q: Path)
    ensures p == [] ==> q == []
    ensures p != [] ==> q == p[..|p| - 1]
  {
    if p == [] then [] else p[..|p| - 1]
  }

  /** `encontra_repo_git`: walks from `start` up through its parents while
      the path is not its own parent, and returns the first one that holds a
      `.git` entry. `gitDirs` is the set of directories that hold one. The
      walk stops before the root, which is therefore never examined. */
  method FindRepo(start: Path, gitDirs: set<Path>) returns (r: Option<Path>)
    ensures r.Some? ==>
      && 0 < |r.value| <= |start| && r.value == start[..|r.value|]
      && r.value in gitDirs
      && forall k :: |r.value| < k <= |start| ==> start[..k] !in gitDirs
    ensures r.None? ==> forall k :: 0 < k <= |start| ==> start[..k] !in gitDirs
  {
    var current := start;
    assert start[..|start|] == start;
    while current != Parent(current)
      invariant |current| <= |start| && current == start[..|current|]
      invariant forall k :: |current| < k <= |start| ==> start[..k] !in gitDirs
      decreases |current|
    {
      if current in gitDirs {
        return Some(current);
      }
      current := Parent(current);
    }
    return None;
  }

  // ------------------------------------------------------- change status

  /** The decision of `verifica_mudanca`: whether there is anything to
      commit, and whether the "consider smaller commits" warning is logged. */
  datatype ChangeCheck = ChangeCheck(hasChanges: bool, warned: bool)

  /** `verifica_mudanca` over the output of `git status --porcelain`: no
      changes exactly when the output is blank; the warning when the
      stripped output has more than ten lines, that is, ten or more line
      boundaries. */
  function CheckChanges(status: string): (r: ChangeCheck)
    ensures r.hasChanges <==> !AllSpace(status)
    ensures r.warned <==> r.hasChanges && BreakCount(Strip(status)) >= 10
  {
    StripEnds(status);
    var changed := Strip(status);
    if changed == [] then ChangeCheck(false, false)
    else
      LineCount(changed);
      ChangeCheck(true, |SplitLines(changed)| > 10)
  }

  // ------------------------------------------------------------ severity

  /** The menu of `pergunta_severidade_alteracao`. */
  function SeverityFor(answer: string): (r: Option<string>)
    ensures r.Some? <==> answer == "1" || answer == "2" || answer == "3"
    ensures r.Some? ==> r.value == "major" || r.value == "feature" || r.value == "bugfix"
    ensures answer == "1" ==> r == Some("major")
    ensures answer == "2" ==> r == Some("feature")
    ensures answer == "3" ==> r == Some("bugfix")
  {
    if answer == "1" then Some("major")
    else if answer == "2" then Some("feature")
    else if answer == "3" then Some("bugfix")
    else None
  }

  /** Where the first answer on the menu is, or `|answers|` when none is. */
  function FirstValid(answers: seq<string>): (k: nat)
    ensures k <= |answers|
    ensures forall j :: 0 <= j < k ==> SeverityFor(answers[j]).None?
    ensures k < |answers| ==> SeverityFor(answers[k]).Some?
  {
    if answers == [] || SeverityFor(answers[0]).Some? then 0
    else 1 + FirstValid(answers[1..])
  }

  /** The severity of the first answer on the menu, if any answer is. */
  function FirstSeverity(answers: seq<string>): Option<string>
  {
    var k := FirstValid(answers);
    if k < |answers| then SeverityFor(answers[k]) else None
  }

  /** `pergunta_severidade_alteracao`: prompts until an answer is on the
      menu. `used` is how many answers were read; when they run out, `input`
      raises EOFError. */
  method AskSeverity(answers: seq<string>) returns (r: Result<string, Exc>, used: nat)
    ensures r.Ok? <==> FirstValid(answers) < |answers|
    ensures r.Ok? ==> used == FirstValid(answers) + 1 && SeverityFor(answers[used - 1]) == Some(r.value)
    ensures r.Err? ==> r.error == EOFError && used == |answers|
  {
    used := 0;
    while used < |answers|
      invariant used <= FirstValid(answers)
    {
      var severity := SeverityFor(answers[used]);
      used := used + 1;
      if severity.Some? {
        return Ok(severity.value), used;
      }
    }
    return Err(EOFError), used;
  }

  // ------------------------------------------------------- semantic tags

  datatype Version = Version(major: int, minor: int, patch: int)

  /** Lexicographic order on (major, minor, patch). */
  predicate Less(a: Version, b: Version) {
    || a.major < b.major
    || (a.major == b.major && a.minor < b.minor)
    || (a.major == b.major && a.minor == b.minor && a.patch < b.patch)
  }

  /** The tag `cria_tag_semantica` starts from: the first line of the
      stripped `git tag --sort=-v:refname` output, or `v0.0.0` when there is
      none. */
  function LastTag(listing: string): (tag: string)
    ensures AllSpace(listing) ==> tag == "v0.0.0"
    ensures !AllSpace(listing) ==>
      && tag != [] && NoLineBreak(tag)
      && StartsWith(Strip(listing), tag)
      && (|tag| < |Strip(listing)| ==> IsLineBreak(Strip(listing)[|tag|]))
  {
    StripEnds(listing);
    var tags := SplitLines(Strip(listing));
    if tags == [] then "v0.0.0"
    else
      FirstLine(Strip(listing));
      tags[0]
  }

  /** The first line of a text is the text up to its first boundary. */
  lemma FirstLine(s: string)
    requires s != []
    ensures SplitLines(s)[0] == s[..FirstBreak(s)]
  {
  }

  /** `map(int, tag.lstrip('v').split('.'))` unpacked into three names:
      ValueError unless there are exactly three parts and each is an integer. */
  function ParseTag(tag: string): Result<Version, Exc>
  {
    var parts := Split(LStripChar(tag, 'v'), ".");
    if |parts| != 3 then Err(ValueError("expected 3 values to unpack"))
    else
      match (ParseInt(parts[0]), ParseInt(parts[1]), ParseInt(parts[2]))
      case (Some(major), Some(minor), Some(patch)) => Ok(Version(major, minor, patch))
      case _ => Err(ValueError("invalid literal for int()"))
  }

  /** `f"v{major}.{minor}.{patch}"`. */
  function FormatTag(v: Version): string
  {
    "v" + FormatInt(v.major) + "." + FormatInt(v.minor) + "." + FormatInt(v.patch)
  }

  /** The bump of `cria_tag_semantica`; any other severity leaves the
      version as it was. */
  function Bump(v: Version, severity: string): Version
  {
    if severity == "major" then Version(v.major + 1, 0, 0)
    else if severity == "feature" then Version(v.major, v.minor + 1, 0)
    else if severity == "bugfix" then Version(v.major, v.minor, v.patch + 1)
    else v
  }

  /** Each known severity moves the version strictly up, and only the
      component it names grows; an unknown one changes nothing. */
  lemma BumpIncreases(v: Version, severity: string)
    ensures severity in {"major", "feature", "bugfix"} ==> Less(v, Bump(v, severity))
    ensures severity !in {"major", "feature", "bugfix"} ==> Bump(v, severity) == v
    ensures severity == "major" ==> Bump(v, severity).minor == 0 && Bump(v, severity).patch == 0
    ensures severity == "feature" ==> Bump(v, severity).major == v.major && Bump(v, severity).patch == 0
    ensures severity == "bugfix" ==>
      Bump(v, severity).major == v.major && Bump(v, severity).minor == v.minor
  {
  }

  /** A text without `v` in front is left alone by `lstrip('v')`, and one
      more `v` in front of it is removed. */
  lemma LStripV(body: string)
    requires body != [] && body[0] != 'v'
    ensures LStripChar(body, 'v') == body
    ensures LStripChar("v" + body, 'v') == body
  {
    assert ("v" + body)[1..] == body;
  }

  /** Three parts free of dots, joined by dots, split back into themselves. */
  lemma SplitThree(a: string, b: string, c: string)
    requires '.' !in a && '.' !in b && '.' !in c
    ensures Split(a + "." + b + "." + c, ".") == [a, b, c]
  {
    SplitCharAbsent(c, '.');
    SplitCharFirst(b, '.', c);
    assert b + "." + c == b + ['.'] + c;
    SplitCharFirst(a, '.', b + "." + c);
    assert a + "." + b + "." + c == a + ['.'] + (b + "." + c);
  }

  /** Reading back a formatted tag gives the version it was made from. */
  lemma ParseFormatTag(v: Version)
    ensures ParseTag(FormatTag(v)) == Ok(v)
  {
    var a, b, c := FormatInt(v.major), FormatInt(v.minor), FormatInt(v.patch);
    var body := a + "." + b + "." + c;
    assert FormatTag(v) == "v" + body;
    LStripV(body);
    SplitThree(a, b, c);
    ParseFormatInt(v.major);
    ParseFormatInt(v.minor);
    ParseFormatInt(v.patch);
  }

  /** A tag with two integer components is refused. */
  lemma ParseTagTwoParts(a: int, b: int)
    ensures ParseTag("v" + FormatInt(a) + "." + FormatInt(b)).Err?
  {
    var x, y := FormatInt(a), FormatInt(b);
    var body := x + "." + y;
    assert "v" + x + "." + y == "v" + body;
    LStripV(body);
    SplitCharAbsent(y, '.');
    SplitCharFirst(x, '.', y);
    assert body == x + ['.'] + y;
  }

  /** Every leading `v` is stripped, not only the first: one more `v` in
      front of a tag never changes how it parses. */
  lemma ParseTagLeadingV(tag: string)
    ensures ParseTag("v" + tag) == ParseTag(tag)
  {
    assert ("v" + tag)[1..] == tag;
  }

  const ListTagsCommand := "git tag --sort=-v:refname"

  function AnnotateCommand(tag: string): string {
    "git tag -a \"" + tag + "\" -m \"Release version " + tag + "\""
  }

  function PushCommand(tag: string): string {
    "git push origin " + tag
  }

  /** The tag `cria_tag_semantica` creates: the last tag bumped by the
      severity, or None when the last tag does not parse. */
  function NextTag(listing: string, severity: string): (t: Option<string>)
    ensures t.Some? <==> ParseTag(LastTag(listing)).Ok?
    ensures t.Some? ==> ParseTag(t.value) == Ok(Bump(ParseTag(LastTag(listing)).value, severity))
  {
    var parsed := ParseTag(LastTag(listing));
    if parsed.Err? then None
    else
      ParseFormatTag(Bump(parsed.value, severity));
      Some(FormatTag(Bump(parsed.value, severity)))
  }

  /** Every command `cria_tag_semantica` issues: the listing, then the
      annotated tag and its push when there is a next tag. */
  function TagCommands(listing: string, severity: string): (cs: seq<string>)
    ensures |cs| >= 1 && cs[0] == ListTagsCommand
    ensures |cs| > 1 <==> NextTag(listing, severity).Some?
  {
    var next := NextTag(listing, severity);
    [ListTagsCommand] + if next.Some? then [AnnotateCommand(next.value), PushCommand(next.value)] else []
  }

  /** `cria_tag_semantica`: lists the tags, parses the last one and bumps it;
      a tag that does not parse is logged and no further command is issued;
      otherwise the new tag `v{major}.{minor}.{patch}` is created, then
      pushed. `listing` is the output of the tag listing. */
  method CreateSemanticTag(listing: string, severity: string) returns (commands: seq<string>, newTag: Option<string>)
    ensures commands == TagCommands(listing, severity) && newTag == NextTag(listing, severity)
    ensures |commands| >= 1 && commands[0] == ListTagsCommand
    ensures ParseTag(LastTag(listing)).Err? ==> commands == [ListTagsCommand] && newTag.None?
    ensures ParseTag(LastTag(listing)).Ok? ==>
      && newTag == Some(FormatTag(Bump(ParseTag(LastTag(listing)).value, severity)))
      && ParseTag(newTag.value) == Ok(Bump(ParseTag(LastTag(listing)).value, severity))
      && commands == [ListTagsCommand, AnnotateCommand(newTag.value), PushCommand(newTag.value)]
  {
    commands := [ListTagsCommand];
    var lastTag := LastTag(listing);
    var parsed := ParseTag(lastTag);
    if parsed.Err? {
      // logged: "Erro ao criar tag semântica"
      return commands, None;
    }
    var major, minor, patch := parsed.value.major, parsed.value.minor, parsed.value.patch;
    if severity == "major" {
      major := major + 1;
      minor := 0;
      patch := 0;
    } else if severity == "feature" {
      minor := minor + 1;
      patch := 0;
    } else if severity == "bugfix" {
      patch := patch + 1;
    }
    var version := Version(major, minor, patch);
    assert version == Bump(parsed.value, severity);
    var tag := FormatTag(version);
    ParseFormatTag(version);
    commands := commands + [AnnotateCommand(tag), PushCommand(tag)];
    newTag := Some(tag);
  }

  // -------------------------------------------------------------- commit

  const StatusCommand := "git status --porcelain"
  const AddCommand := "git add ."
  const AmendCommand := "git commit --amend --no-edit"

  /** The message `execute_commit` builds from the two answers and the
      severity: it opens with the impact, has the modification under its
      label in the middle, and closes with the severity. */
  function CommitMessage(impact: string, modification: string, severity: string): (m: string)
    ensures StartsWith(m, "[Impacto]: " + impact + " ")
    ensures EndsWith(m, " [Severidade]: " + severity)
    ensures |m| == |impact| + |modification| + |severity| + 43
    ensures m[11 + |impact| .. |m| - 15 - |severity|] == " [Modifica\U{e7}\U{f5}es]: " + modification
  {
    "[Impacto]: " + impact + " [Modifica\U{e7}\U{f5}es]: " + modification + " [Severidade]: " + severity
  }

  function CommitCommand(message: string): string {
    "git commit -m \"" + message + "\""
  }

  /** The commands of a new commit from `git add .` on: the commit itself
      only when the add exited with 0, then the tag steps of `severity`
      exactly when the last result is true in an `if`. */
  predicate CommitSteps(cs: seq<string>, message: string, severity: string,
                        addResult: RunResult, commitResult: RunResult, listing: string) {
    var committed := if addResult.returnCode == 0 then [CommitCommand(message)] else [];
    var last := if addResult.returnCode == 0 then commitResult else addResult;
    && |cs| >= 1 + |committed|
    && cs[..1 + |committed|] == [AddCommand] + committed
    && (Truthy(last) <==> |cs| > 1 + |committed|)
    && (Truthy(last) ==> cs[1 + |committed|] == ListTagsCommand)
    && (Truthy(last) ==> cs[1 + |committed|..] == TagCommands(listing, severity))
  }

  /** The non-amend branch of `execute_commit` once the severity is known. */
  method NewCommit(message: string, severity: string, addResult: RunResult, commitResult: RunResult, listing: string)
    returns (commands: seq<string>)
    ensures CommitSteps(commands, message, severity, addResult, commitResult, listing)
  {
    commands := [AddCommand];
    var result := addResult;
    if addResult.returnCode == 0 {
      commands := commands + [CommitCommand(message)];
      result := commitResult;
    }
    if Truthy(result) {
      var prefix := commands;
      var tagCommands, newTag := CreateSemanticTag(listing, severity);
      commands := commands + tagCommands;
      assert commands[|prefix|..] == tagCommands;
    }
  }

  /** Whether a directory on the way from `start` up to, but not including,
      the filesystem root holds `.git`. */
  predicate RepoAbove(start: Path, gitDirs: set<Path>) {
    exists k :: 0 < k <= |start| && start[..k] in gitDirs
  }

  /** `execute_commit`.
      - `repoPath` is the path given to the constructor. When it is None,
        `init` runs first. It calls `self.save_config()`, which no class of
        the hierarchy defines, so AttributeError escapes, before any
        command, when the `git` section was missing (`gitSection` false) or
        when `encontra_repo_git`, walking up from `cwd` over `gitDirs`,
        finds a repository. Otherwise `init` finds none and the method
        returns.
      - `status` is what `Context.run` (ShellContext.Run) gave for
        `git status --porcelain`. It
        raises KeyError when the `verbosity` option is missing, and the
        error escapes. The later commands read the same, unchanged option,
        so once the status command ran, they run as well.
      - `answers` are the lines typed at the prompts: impact, modification,
        then severity attempts. `addResult` and `commitResult` are what
        `Context.run` returned for `git add .` and the commit; `listing` is
        the tag listing's output. The tag step is taken when the last result
        is true in an `if`, which a `CustomResult` always is.
      - `commands` are the commands handed to `Context.run`, in order. */
  method ExecuteCommit(repoPath: Option<Path>, gitSection: bool, cwd: Path, gitDirs: set<Path>,
                       status: Result<Ran, Exc>, amend: bool, answers: seq<string>,
                       addResult: RunResult, commitResult: RunResult, listing: string)
    returns (commands: seq<string>, r: Outcome)
    ensures repoPath.None? && (!gitSection || RepoAbove(cwd, gitDirs)) ==>
      commands == [] && r == Fail(AttributeError("save_config"))
    ensures repoPath.None? && gitSection && !RepoAbove(cwd, gitDirs) ==> commands == [] && r.Pass?
    ensures repoPath.Some? && status.Err? ==> commands == [StatusCommand] && r == Fail(status.error)
    ensures repoPath.Some? && status.Ok? && !CheckChanges(status.value.result.stdout).hasChanges ==>
      commands == [StatusCommand] && r.Pass?
    ensures repoPath.Some? && status.Ok? && CheckChanges(status.value.result.stdout).hasChanges && amend ==>
      && r.Pass?
      && commands == [StatusCommand, AddCommand] + (if addResult.returnCode == 0 then [AmendCommand] else [])
    ensures (repoPath.Some? && status.Ok? && CheckChanges(status.value.result.stdout).hasChanges && !amend
             && (|answers| < 2 || FirstSeverity(answers[2..]).None?)) ==>
      r == Fail(EOFError) && commands == [StatusCommand]
    ensures (repoPath.Some? && status.Ok? && CheckChanges(status.value.result.stdout).hasChanges && !amend
             && |answers| >= 2 && FirstSeverity(answers[2..]).Some?) ==>
      && r.Pass? && |commands| >= 1 && commands[0] == StatusCommand
      && CommitSteps(commands[1..], CommitMessage(answers[0], answers[1], FirstSeverity(answers[2..]).value),
                     FirstSeverity(answers[2..]).value, addResult, commitResult, listing)
  {
    commands := [];
    r := Pass;
    if repoPath.None? {
      if !gitSection {
        return [], Fail(AttributeError("save_config"));
      }
      var found := FindRepo(cwd, gitDirs);
      if found.Some? {
        assert cwd[..|found.value|] in gitDirs;
        return [], Fail(AttributeError("save_config"));
      }
      // logged: no repository to operate on
      return;
    }
    commands := [StatusCommand];
    if status.Err? {
      return commands, Fail(status.error);
    }
    if !CheckChanges(status.value.result.stdout).hasChanges {
      return;
    }
    if amend {
      commands := commands + [AddCommand];
      if addResult.returnCode == 0 {
        commands := commands + [AmendCommand];
      }
      return;
    }
    var steps, outcome := AnswerAndCommit(answers, addResult, commitResult, listing);
    commands, r := commands + steps, outcome;
    assert commands[1..] == steps;
  }

  /** The non-amend branch of `execute_commit`: the two prompts, the
      severity menu, then the commit; EOFError when the answers run out
      before a valid severity, with no command issued. */
  method AnswerAndCommit(answers: seq<string>, addResult: RunResult, commitResult: RunResult, listing: string)
    returns (steps: seq<string>, r: Outcome)
    ensures (|answers| < 2 || FirstSeverity(answers[2..]).None?) ==> r == Fail(EOFError) && steps == []
    ensures |answers| >= 2 && FirstSeverity(answers[2..]).Some? ==>
      && r.Pass?
      && CommitSteps(steps, CommitMessage(answers[0], answers[1], FirstSeverity(answers[2..]).value),
                     FirstSeverity(answers[2..]).value, addResult, commitResult, listing)
  {
    if |answers| < 2 {
      return [], Fail(EOFError);
    }
    var impact, modification := answers[0], answers[1];
    var severity, used := AskSeverity(answers[2..]);
    if severity.Err? {
      return [], Fail(severity.error);
    }
    var message := CommitMessage(impact, modification, severity.value);
    steps := NewCommit(message, severity.value, addResult, commitResult, listing);
    r := Pass;
  }
}
