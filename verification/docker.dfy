/** The Docker helpers of `DockerManager` (pilot/src/docker.py): its own
    configuration file, the context and image checks made from command
    output, the removal command, and the checked configuration lookup. */
module Docker {
  import opened Wrappers
  import opened PyStr
  import opened Config

  /** `_load_config`: a fresh parser reading `<project root>/docker.conf`;
      FileNotFoundError, naming that path, when it does not exist. `files`
      maps each existing path to the sections it holds. */
  function LoadConfig(projectRoot: string, files: map<string, Sections>): (r: Result<Sections, Exc>)
    ensures r.Err? <==> JoinPath(projectRoot, "docker.conf") !in files
    ensures r.Err? ==> r.error == FileNotFoundError(JoinPath(projectRoot, "docker.conf"))
    ensures r.Ok? ==> r.value == files[JoinPath(projectRoot, "docker.conf")]
  {
    var path := JoinPath(projectRoot, "docker.conf");
    if path !in files then Err(FileNotFoundError(path))
    else
      var read := Merge(map[], files[path]);
      MergeIntoEmpty(files[path]);
      Ok(read)
  }

  /** `verificar_contexto_docker` over the output of `docker context show`:
      raises exactly when the stripped output is not the expected context. */
  function CheckContext(output: string, expected: string): (r: Outcome)
    ensures r.Pass? <==> Strip(output) == expected
    ensures r.Fail? ==> r.error.RuntimeError?
  {
    var current := Strip(output);
    if current != expected then
      Fail(RuntimeError("Contexto Docker incorreto. Esperado: " + expected + ", Atual: " + current))
    else Pass
  }

  /** The check accepts the context's name whatever whitespace the command
      prints around it, and never accepts a name padded with whitespace. */
  lemma CheckContextPadding(pre: string, expected: string, post: string)
    requires AllSpace(pre) && AllSpace(post)
    ensures expected == [] || (!IsSpace(expected[0]) && !IsSpace(expected[|expected| - 1])) ==>
      CheckContext(pre + expected + post, expected).Pass?
    ensures expected != [] && (IsSpace(expected[0]) || IsSpace(expected[|expected| - 1])) ==>
      forall output :: CheckContext(output, expected).Fail?
  {
    if expected == [] || (!IsSpace(expected[0]) && !IsSpace(expected[|expected| - 1])) {
      StripPadded(pre, expected, post);
    } else {
      forall output
        ensures CheckContext(output, expected).Fail?
      {
        StripEnds(output);
      }
    }
  }

  /** `verificar_existencia_imagem` over the output of `docker images -q`:
      the image exists exactly when some character of the output is not
      whitespace (an image id was printed). */
  function ImageExists(output: string): (b: bool)
    ensures b <==> exists i :: 0 <= i < |output| && !IsSpace(output[i])
  {
    StripEnds(output);
    Strip(output) != []
  }

  /** `remover_imagem`: the command it issues. */
  function RemoveCommand(imageName: string, version: string): (command: string)
    ensures StartsWith(command, "docker rmi -f " + imageName)
    ensures EndsWith(command, ":" + version)
    ensures |command| == 15 + |imageName| + |version|
  {
    var command := "docker rmi -f " + imageName + ":" + version;
    assert command == ("docker rmi -f " + imageName) + (":" + version);
    command
  }

  /** `get_config_value`: the value when both the section and the option
      exist, otherwise KeyError naming both. */
  function GetConfigValue(config: Sections, section: string, key: string): (r: Result<string, Exc>)
    ensures r.Ok? <==> section in config && key in config[section]
    ensures r.Ok? ==> r.value == config[section][key]
    ensures r.Err? ==> r.error == KeyError("Key '" + key + "' not found in section '" + section + "'.")
  {
    if section in config && key in config[section] then Ok(config[section][key])
    else Err(KeyError("Key '" + key + "' not found in section '" + section + "'."))
  }

  /** The checked lookup succeeds on exactly the entries plain indexing
      reaches, with the same value; only the error differs. */
  lemma GetConfigValueAgreesWithLookup(config: Sections, section: string, key: string)
    ensures GetConfigValue(config, section, key).Ok? <==> Lookup(config, section, key).Ok?
    ensures GetConfigValue(config, section, key).Ok? ==>
      GetConfigValue(config, section, key).value == Lookup(config, section, key).value
  {
  }
}
