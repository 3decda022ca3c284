/** `PromptManager` of `src/prompts/prompt_manager.py`: a mapping from mode names to template
    strings, read once from a YAML file, looked up by `get`. */
module Prompts {
  import opened Wrappers
  import opened Strings
  import opened Template

  /** The loaded mapping; it is a value, so no lookup can change it. */
  datatype PromptManager = PromptManager(prompts: map<string, string>)

  const PromptsFile: string := "prompts.yaml"

  /** Opening and parsing a YAML file: the mapping it holds, or the failure raised. */
  type Loader = string -> Result<map<string, string>>

  /** `os.path.join(directory, name)` for a relative file name. */
  function PathJoin(directory: string, name: string): string {
    if directory == "" || directory[|directory| - 1] == '/' then directory + name
    else directory + "/" + name
  }

  /** The file `__init__` reads when no path is given: `prompts.yaml` in the module's directory. */
  function DefaultPath(moduleDir: string): (path: string)
    ensures moduleDir != "" ==> |path| > |moduleDir| && path[..|moduleDir|] == moduleDir
    ensures moduleDir != "" ==> path[|moduleDir|..] in {"/" + PromptsFile, PromptsFile}
    ensures moduleDir != "" && path[|moduleDir|..] == PromptsFile ==> moduleDir[|moduleDir| - 1] == '/'
    ensures moduleDir == "" ==> path == PromptsFile
  {
    var p := PathJoin(moduleDir, PromptsFile);
    assert p[|moduleDir|..] in {"/" + PromptsFile, PromptsFile} by {
      if moduleDir == "" || moduleDir[|moduleDir| - 1] == '/' {
        assert p[|moduleDir|..] == PromptsFile;
      } else {
        assert p[|moduleDir|..] == "/" + PromptsFile;
      }
    }
    assert moduleDir != "" ==> p[..|moduleDir|] == moduleDir;
    p
  }

  /** `PromptManager.__init__`: the given file, or the default one, is read once. */
  function Load(filepath: Option<string>, moduleDir: string, load: Loader): (r: Result<PromptManager>)
    ensures r.Ok? <==> load(filepath.GetOr(DefaultPath(moduleDir))).Ok?
    ensures r.Ok? ==> r.value.prompts == load(filepath.GetOr(DefaultPath(moduleDir))).value
  {
    match load(filepath.GetOr(DefaultPath(moduleDir)))
    case Ok(m) => Ok(PromptManager(m))
    case Err(e) => Err(e)
  }

  /** `get(key)`: a template over the one input variable `text` holding the stored string,
      or `ValueError` when the key is absent. */
  function Get(pm: PromptManager, key: string): (r: Result<PromptTemplate>)
    ensures r.Err? <==> key !in pm.prompts
    ensures r.Err? ==> r.error == ValueError("Prompt '" + key + "' not found in prompts.yaml")
    ensures r.Ok? ==> r.value.inputVariables == ["text"] && r.value.template == pm.prompts[key]
  {
    if key !in pm.prompts then Err(ValueError("Prompt '" + key + "' not found in prompts.yaml"))
    else Ok(PromptTemplate(["text"], pm.prompts[key]))
  }

  /** The single keyword argument `text=...`. */
  function TextField(text: string): map<string, string> {
    map["text" := text]
  }

  /** `prompt_manager.get(mode).format(**fields)`: the lookup fails first, then the formatting. */
  function Render(pm: PromptManager, mode: string, fields: map<string, string>): (r: Result<string>)
    ensures mode !in pm.prompts ==> r == Err(ValueError("Prompt '" + mode + "' not found in prompts.yaml"))
    ensures mode in pm.prompts ==> r == Format(pm.prompts[mode], fields)
  {
    match Get(pm, mode)
    case Err(e) => Err(e)
    case Ok(t) => Format(t.template, fields)
  }

  /** A stored template `a{text}b` renders any input to `a + text + b`: the input appears
      verbatim and no placeholder is left. */
  lemma {:induction false} RenderText(pm: PromptManager, mode: string, a: string, b: string, text: string)
    requires mode in pm.prompts && pm.prompts[mode] == a + "{text}" + b
    requires BraceFree(a) && BraceFree(b)
    ensures Render(pm, mode, TextField(text)) == Ok(a + text + b)
  {
    assert a + "{text}" + b == a + "{" + "text" + "}" + b;
    assert !Positional("text") by { assert "text"[0] == 't'; }
    FormatOnePlaceholder(a, "text", b, TextField(text));
  }
}
