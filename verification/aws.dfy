/** The AWS side of Pilot (`AWSManager`, pilot/src/aws.py): the `aws`
    configuration section, the decision to run `aws configure`, role
    assumption, and the CodeArtifact token, index URL, `pip.conf` text and
    package listing built from the section's values. Command output is an
    input; so is what `json.loads` makes of it. */
module Aws {
  import opened Wrappers
  import opened PyStr
  import Json
  import opened Config
  import opened Context

  const AwsSection := "aws"
  const DomainKey := "codeartifact_domain"
  const AccountKey := "aws_account_id"
  const RegionKey := "aws_default_region"
  const RepositoryKey := "codeartifact_repository"

  // ---------------------------------------------------------------- init

  /** The pairs `init` sets: each default key, with the keyword argument of
      the same name when one was given. */
  function Resolve(defaults: seq<(string, string)>, kwargs: map<string, string>): seq<(string, string)>
  {
    seq(|defaults|, i requires 0 <= i < |defaults| =>
      (defaults[i].0, if defaults[i].0 in kwargs then kwargs[defaults[i].0] else defaults[i].1))
  }

  /** What `init` writes: exactly the default keys, each holding the keyword
      argument of that name if there is one and the default otherwise; any
      other keyword argument is ignored. */
  lemma ResolvedSection(defaults: seq<(string, string)>, kwargs: map<string, string>, i: nat)
    requires DistinctKeys(defaults) && i < |defaults|
    ensures PairsToMap(Resolve(defaults, kwargs)).Keys == set j | 0 <= j < |defaults| :: defaults[j].0
    ensures var key := defaults[i].0;
      PairsToMap(Resolve(defaults, kwargs))[key] == if key in kwargs then kwargs[key] else defaults[i].1
  {
    var pairs := Resolve(defaults, kwargs);
    PairsToMapKeys(pairs);
    assert (set j | 0 <= j < |pairs| :: pairs[j].0) == set j | 0 <= j < |defaults| :: defaults[j].0 by {
      assert forall j :: 0 <= j < |defaults| ==> pairs[j].0 == defaults[j].0;
    }
    PairsToMapAt(pairs, i);
  }

  /** `init(**kwargs)`: ensures the `aws` section exists, sets every default
      key in it (keys already there and not among the defaults stay), and
      then calls `self.save_config()`, which no class of the hierarchy
      defines: the call raises AttributeError and nothing is saved. */
  method Init(store: ConfigStore, defaults: seq<(string, string)>, kwargs: map<string, string>)
    returns (r: Outcome)
    modifies store
    ensures r == Fail(AttributeError("save_config"))
    ensures store.sections == old(store.sections)[AwsSection :=
      (if AwsSection in old(store.sections) then old(store.sections)[AwsSection] else map[])
        + PairsToMap(Resolve(defaults, kwargs))]
    ensures store.saved == old(store.saved)
  {
    ghost var before := store.sections;
    ghost var resolved := Resolve(defaults, kwargs);
    var section: Section := map[];
    if AwsSection in store.sections {
      section := store.sections[AwsSection];
    }
    ghost var base := section;
    store.sections := store.sections[AwsSection := section];
    var i := 0;
    while i < |defaults|
      invariant 0 <= i <= |defaults|
      invariant section == base + PairsToMap(resolved[..i])
      invariant store.sections == before[AwsSection := section]
      invariant store.saved == old(store.saved)
    {
      var key, fallback := defaults[i].0, defaults[i].1;
      var value := if key in kwargs then kwargs[key] else fallback;
      assert resolved[i] == (key, value);
      PairsToMapPrefix(resolved, i);
      UnionUpdate(base, PairsToMap(resolved[..i]), key, value);
      section := section[key := value];
      store.sections := store.sections[AwsSection := section];
      i := i + 1;
    }
    assert resolved[..i] == resolved;
    return Fail(AttributeError("save_config"));
  }

  lemma UnionUpdate(base: Section, m: Section, key: string, value: string)
    ensures (base + m)[key := value] == base + m[key := value]
  {
  }

  // ----------------------------------------------------- configure, role

  const ConfigureListCommand := "aws configure list"
  const ConfigureCommand := "aws configure"

  /** `configure_aws`: the commands handed to `Context.run`. `listing` is
      what `Context.run` (ShellContext.Run) gave for the listing: the
      KeyError it raises when the `verbosity` option is missing is caught
      and logged. The interactive `aws configure` follows exactly when the
      listing returned a result that is true in an `if` and whose output
      contains `None` somewhere. */
  function ConfigureCommands(listing: Result<Ran, Exc>): (commands: seq<string>)
    ensures |commands| >= 1 && commands[0] == ConfigureListCommand
    ensures |commands| > 1 <==>
      listing.Ok? && Truthy(listing.value.result) && exists i :: OccursAt(listing.value.result.stdout, "None", i)
    ensures |commands| > 1 ==> commands == [ConfigureListCommand, ConfigureCommand]
  {
    if listing.Err? then [ConfigureListCommand]
    else
      var result := listing.value.result;
      ContainsAt(result.stdout, "None");
      if Truthy(result) && Contains(result.stdout, "None") then [ConfigureListCommand, ConfigureCommand]
      else [ConfigureListCommand]
  }

  /** `assume_role`: when `Context.run` returned, the method hands back None
      whatever the command did, and the credentials it reads on success are
      dropped; the KeyError `Context.run` raises when the `verbosity` option
      is missing escapes. The role and the session name only shape the
      command line. */
  function AssumeRole(ran: Result<Ran, Exc>): (r: Result<Option<string>, Exc>)
    ensures ran.Err? ==> r == Err(ran.error)
    ensures ran.Ok? ==> r == Ok(None)
  {
    match ran
    case Err(e) => Err(e)
    case Ok(_) => Ok(None)
  }

  // ------------------------------------------------------ CodeArtifact

  /** The four `aws` values the CodeArtifact helpers read. */
  datatype CodeArtifact = CodeArtifact(domain: string, account: string, region: string, repository: string)

  predicate HasKeys(sections: Sections, keys: seq<string>) {
    AwsSection in sections && forall k :: k in keys ==> k in sections[AwsSection]
  }

  /** `self.config['aws'][key]` for each key in turn; the first missing one
      raises KeyError. */
  function Values(sections: Sections, keys: seq<string>): (r: Result<seq<string>, Exc>)
    ensures r.Ok? <==> HasKeys(sections, keys)
    ensures r.Ok? ==> |r.value| == |keys| && forall i :: 0 <= i < |keys| ==> r.value[i] == sections[AwsSection][keys[i]]
    ensures r.Err? ==> r.error.KeyError?
  {
    if keys == [] then (if AwsSection in sections then Ok([]) else Err(KeyError(AwsSection)))
    else match Lookup(sections, AwsSection, keys[0])
      case Err(e) => Err(e)
      case Ok(v) =>
        match Values(sections, keys[1..])
        case Err(e) => Err(e)
        case Ok(vs) => Ok([v] + vs)
  }

  /** The settings in the order the URL reads them. */
  function Settings(sections: Sections): (r: Result<CodeArtifact, Exc>)
    ensures r.Ok? <==> HasKeys(sections, [DomainKey, AccountKey, RegionKey, RepositoryKey])
    ensures r.Ok? ==> var s := sections[AwsSection];
      r.value == CodeArtifact(s[DomainKey], s[AccountKey], s[RegionKey], s[RepositoryKey])
  {
    match Values(sections, [DomainKey, AccountKey, RegionKey, RepositoryKey])
    case Err(e) => Err(e)
    case Ok(vs) => Ok(CodeArtifact(vs[0], vs[1], vs[2], vs[3]))
  }

  /** `get_codeartifact_token`: the stripped output of the token command.
      The command line needs the domain and the account, and a missing one
      raises KeyError out of the method before anything runs; so does the
      KeyError of `Context.run` (`ran`) when the `verbosity` option is
      missing. */
  function CodeArtifactToken(sections: Sections, ran: Result<Ran, Exc>): (r: Result<string, Exc>)
    ensures r.Ok? <==> HasKeys(sections, [DomainKey, AccountKey]) && ran.Ok?
    ensures r.Err? ==> r.error.KeyError? || (ran.Err? && r.error == ran.error)
    ensures !HasKeys(sections, [DomainKey, AccountKey]) ==> r.Err? && r.error.KeyError?
    ensures HasKeys(sections, [DomainKey, AccountKey]) && ran.Err? ==> r == Err(ran.error)
    ensures r.Ok? ==> r.value == Strip(ran.value.result.stdout)
  {
    match Values(sections, [DomainKey, AccountKey])
    case Err(e) => Err(e)
    case Ok(_) =>
      match ran
      case Err(e) => Err(e)
      case Ok(done) => Ok(Strip(done.result.stdout))
  }

  /** The CodeArtifact host of the account and region. */
  function Host(s: CodeArtifact): string
  {
    s.domain + "-" + s.account + ".d.codeartifact." + s.region + ".amazonaws.com"
  }

  /** The package index URL, with the token as the password of user `aws`. */
  function IndexUrl(token: string, s: CodeArtifact): string
  {
    "https://aws:" + token + "@" + Host(s) + "/pypi/" + s.repository + "/simple/"
  }

  /** `get_codeartifact_url`: the index URL for the stripped token, or None
      (after logging) when any of the four values is missing or
      `Context.run` (`ran`) raised. */
  function CodeArtifactUrl(sections: Sections, ran: Result<Ran, Exc>): (r: Option<string>)
    ensures r.Some? <==> HasKeys(sections, [DomainKey, AccountKey, RegionKey, RepositoryKey]) && ran.Ok?
    ensures r.Some? ==>
      var s := sections[AwsSection];
      r.value == IndexUrl(Strip(ran.value.result.stdout),
                          CodeArtifact(s[DomainKey], s[AccountKey], s[RegionKey], s[RepositoryKey]))
  {
    match Values(sections, [DomainKey, AccountKey])
    case Err(_) => None
    case Ok(_) =>
      match ran
      case Err(_) => None
      case Ok(done) =>
        match Settings(sections)
        case Err(_) => None
        case Ok(s) => Some(IndexUrl(Strip(done.result.stdout), s))
  }

  /** The lines of the `pip.conf` that `update_pip_conf` writes. */
  function PipConfLines(token: string, s: CodeArtifact): seq<string>
  {
    [ "",
      "[global]",
      "index-url = https://pypi.org/simple",
      "extra-index-url = " + IndexUrl(token, s),
      "trusted-host =",
      "    pypi.org",
      "    pypi.python.org",
      "    files.pythonhosted.org",
      "    " + Host(s) ]
  }

  /** `update_pip_conf`: the text written to `pip.conf`, or None when a
      missing value or `Context.run` (`ran`) raised and the error was logged
      (nothing is written then). */
  function PipConf(sections: Sections, ran: Result<Ran, Exc>): (r: Option<string>)
    ensures r.Some? <==> HasKeys(sections, [DomainKey, AccountKey, RegionKey, RepositoryKey]) && ran.Ok?
  {
    match CodeArtifactToken(sections, ran)
    case Err(_) => None
    case Ok(token) =>
      match Settings(sections)
      case Err(_) => None
      case Ok(s) => Some(ConcatLines(PipConfLines(token, s)))
  }

  /** Read back line by line, `pip.conf` is exactly its nine lines: the
      public index as the main one, the CodeArtifact URL as the extra one,
      and as trusted hosts the three public ones and the very host the
      extra URL points at. */
  lemma PipConfLayout(sections: Sections, ran: Result<Ran, Exc>)
    requires HasKeys(sections, [DomainKey, AccountKey, RegionKey, RepositoryKey]) && ran.Ok?
    requires forall k :: k in [DomainKey, AccountKey, RegionKey, RepositoryKey] ==> NoLineBreak(sections[AwsSection][k])
    requires NoLineBreak(Strip(ran.value.result.stdout))
    ensures var s := Settings(sections).value;
      var token := Strip(ran.value.result.stdout);
      var lines := SplitLines(PipConf(sections, ran).value);
      && lines == PipConfLines(token, s)
      && lines[3] == "extra-index-url = " + IndexUrl(token, s)
      && lines[8] == "    " + Host(s)
  {
    var s := Settings(sections).value;
    var token := Strip(ran.value.result.stdout);
    SettingsNoLineBreak(sections);
    PipConfText(sections, ran);
    PipConfLinesRoundTrip(s, token);
  }

  lemma PipConfLinesRoundTrip(s: CodeArtifact, token: string)
    requires NoLineBreak(s.domain) && NoLineBreak(s.account) && NoLineBreak(s.region)
    requires NoLineBreak(s.repository) && NoLineBreak(token)
    ensures SplitLines(ConcatLines(PipConfLines(token, s))) == PipConfLines(token, s)
  {
    PipConfLinesClean(s, token);
    SplitLinesConcat(PipConfLines(token, s));
  }

  lemma SettingsNoLineBreak(sections: Sections)
    requires HasKeys(sections, [DomainKey, AccountKey, RegionKey, RepositoryKey])
    requires forall k :: k in [DomainKey, AccountKey, RegionKey, RepositoryKey] ==> NoLineBreak(sections[AwsSection][k])
    ensures var s := Settings(sections).value;
      && NoLineBreak(s.domain) && NoLineBreak(s.account) && NoLineBreak(s.region) && NoLineBreak(s.repository)
  {
    var keys := [DomainKey, AccountKey, RegionKey, RepositoryKey];
    assert keys[0] in keys && keys[1] in keys && keys[2] in keys && keys[3] in keys;
  }

  lemma PipConfText(sections: Sections, ran: Result<Ran, Exc>)
    requires HasKeys(sections, [DomainKey, AccountKey, RegionKey, RepositoryKey]) && ran.Ok?
    ensures PipConf(sections, ran).Some?
    ensures PipConf(sections, ran).value ==
      ConcatLines(PipConfLines(Strip(ran.value.result.stdout), Settings(sections).value))
  {
  }

  lemma PipConfLinesClean(s: CodeArtifact, token: string)
    requires NoLineBreak(s.domain) && NoLineBreak(s.account) && NoLineBreak(s.region)
    requires NoLineBreak(s.repository) && NoLineBreak(token)
    ensures forall k :: 0 <= k < |PipConfLines(token, s)| ==> NoLineBreak(PipConfLines(token, s)[k])
  {
    NoLineBreakJoin(s, token);
    FixedLinesClean();
    FixedHostsClean();
  }

  lemma FixedLinesClean()
    ensures NoLineBreak("") && NoLineBreak("[global]") && NoLineBreak("trusted-host =")
    ensures NoLineBreak("index-url = https://pypi.org/simple")
  {
  }

  lemma HostPartsClean()
    ensures NoLineBreak("-") && NoLineBreak(".d.codeartifact.") && NoLineBreak(".amazonaws.com")
  {
  }

  lemma FixedHostsClean()
    ensures NoLineBreak("    pypi.org") && NoLineBreak("    pypi.python.org")
    ensures NoLineBreak("    files.pythonhosted.org")
  {
  }

  /** The host and URL lines hold no boundary when their parts hold none. */
  lemma NoLineBreakJoin(s: CodeArtifact, token: string)
    requires NoLineBreak(s.domain) && NoLineBreak(s.account) && NoLineBreak(s.region)
    requires NoLineBreak(s.repository) && NoLineBreak(token)
    ensures NoLineBreak("    " + Host(s))
    ensures NoLineBreak("extra-index-url = " + IndexUrl(token, s))
  {
    HostNoLineBreak(s);
    NoLineBreakConcat("    ", Host(s));
    UrlNoLineBreak(s, token);
    NoLineBreakConcat("extra-index-url = ", IndexUrl(token, s));
  }

  lemma HostNoLineBreak(s: CodeArtifact)
    requires NoLineBreak(s.domain) && NoLineBreak(s.account) && NoLineBreak(s.region)
    ensures NoLineBreak(Host(s))
  {
    HostPartsClean();
    NoLineBreakConcat(s.domain, "-");
    NoLineBreakConcat(s.domain + "-", s.account);
    NoLineBreakConcat(s.domain + "-" + s.account, ".d.codeartifact.");
    NoLineBreakConcat(s.domain + "-" + s.account + ".d.codeartifact.", s.region);
    NoLineBreakConcat(s.domain + "-" + s.account + ".d.codeartifact." + s.region, ".amazonaws.com");
  }

  lemma UrlNoLineBreak(s: CodeArtifact, token: string)
    requires NoLineBreak(Host(s)) && NoLineBreak(s.repository) && NoLineBreak(token)
    ensures NoLineBreak(IndexUrl(token, s))
  {
    var host := Host(s);
    NoLineBreakConcat("https://aws:", token);
    NoLineBreakConcat("https://aws:" + token, "@");
    NoLineBreakConcat("https://aws:" + token + "@", host);
    NoLineBreakConcat("https://aws:" + token + "@" + host, "/pypi/");
    NoLineBreakConcat("https://aws:" + token + "@" + host + "/pypi/", s.repository);
    NoLineBreakConcat("https://aws:" + token + "@" + host + "/pypi/" + s.repository, "/simple/");
  }

  /** `get_package_info`: the parsed output of the version listing, or None
      (after logging) when a value the command needs is missing, when
      `Context.run` (`ran`) raised, or when the output is not JSON. `parsed`
      is what `json.loads` makes of the output, None where it raises. */
  function PackageInfo(sections: Sections, ran: Result<Ran, Exc>, parsed: Option<Json.Json>): (r: Option<Json.Json>)
    ensures r.Some? <==> HasKeys(sections, [DomainKey, AccountKey, RepositoryKey]) && ran.Ok? && parsed.Some?
    ensures r.Some? ==> r == parsed
  {
    match Values(sections, [DomainKey, AccountKey, RepositoryKey])
    case Err(_) => None
    case Ok(_) => if ran.Err? then None else parsed
  }

  /** `update` is not implemented and always raises. */
  function Update(kwargs: map<string, string>): (r: Outcome)
    ensures r == Fail(NotImplementedError)
  {
    Fail(NotImplementedError)
  }
}
