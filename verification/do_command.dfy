/** The `do <request...> [--file <path>]` command (src/commands/do.ts):
    resolve the OpenAI client and the model name, join the request words,
    load the optional file with line numbers, stop with an error line when
    the file cannot be loaded, and otherwise start a `processPrompt` session
    whose shared prompt reference starts at the joined request.  Errors
    thrown by the factories surface as `Err`. */
module DoCommand {
  import opened Wrappers
  import opened Text
  import opened ConfigStore
  import opened Clients
  import OpenAi
  import LineNumbers
  import opened Processor
  import Session

  /** The file system as `existsSync` and `readFileSync` see it: the paths
      that exist, with their text. */
  type Files = map<string, string>

  /** What the command hands on: the options of the first `processPrompt`
      call, or the path of a file that could not be loaded. */
  datatype Entry = Proceed(opts: PromptOptions) | Missing(path: string)

  /** The message the TypeError carries when `client` is undefined. */
  const ClientNotAFunction: string := "client is not a function"

  function FileNotFound(path: string): string
  {
    "File not found: \"" + path + "\". Please check the path and try again."
  }

  /** `loadFileWithLineNumbers(path)` against `files`. */
  function LoadFile(files: Files, path: string): Option<string>
  {
    LineNumbers.LoadFileWithLineNumbers(path in files, if path in files then files[path] else "")
  }

  /** Everything the action does before `processPrompt`.  The client and
      the model are resolved first, so their errors win over a missing file;
      a `--file` that does not exist stops the command (a loaded file is
      never empty, so the emptiness half of the check adds nothing); an
      absent or empty `--file` means no file content.  The prompt is the
      request words joined with single spaces and the file path is the
      `--file` argument as given. */
  function Prepare(cfg: Config, request: seq<string>, file: Option<string>, files: Files): (r: Result<Entry, string>)
    ensures OpenAi.GetOpenAIClient(cfg).Err? ==> r == Err(MissingKeyMessage)
    ensures OpenAi.GetOpenAIClient(cfg).Ok? && GetModelName(cfg).Err? ==> r == Err(NoModelMessage)
    ensures r.Ok? <==> OpenAi.GetOpenAIClient(cfg).Ok? && GetModelName(cfg).Ok?
    ensures r.Ok? ==> (r.value.Missing? <==> Truthy(file) && file.value !in files)
    ensures r.Ok? && r.value.Missing? ==> r.value.path == file.value
    ensures r.Ok? && r.value.Proceed? ==>
              var opts := r.value.opts;
              && opts.prompt == Join(request, ' ')
              && opts.filePath == file
              && opts.client == OpenAIClient(cfg[ApiKeySetting])
              && opts.modelName == GetModelName(cfg).value
              && (Truthy(file) ==> Truthy(opts.fileContent) && opts.fileContent == LoadFile(files, file.value))
              && (!Truthy(file) ==> opts.fileContent == None)
  {
    var client :- OpenAi.GetOpenAIClient(cfg);
    var modelName :- GetModelName(cfg);
    var prompt := Join(request, ' ');
    var fileContent := if Truthy(file) then LoadFile(files, file.value) else None;
    if Truthy(file) && !Truthy(fileContent) then Ok(Missing(file.value))
    else Ok(Proceed(PromptOptions(prompt, fileContent, file, client, modelName)))
  }

  /** The `do` action with the client handed to `processPrompt` under the
      name its options declare.  A configuration error is thrown; a missing
      file prints one error line and makes no backend call; otherwise the
      session starts with a backend call on the prepared options, with the
      shared reference equal to the initial prompt. */
  function Do(cfg: Config, request: seq<string>, file: Option<string>, files: Files, turns: seq<Turn>)
    : (r: Result<seq<Effect>, string>)
    ensures r.Err? <==> Prepare(cfg, request, file, files).Err?
    ensures r.Err? ==> r.error == Prepare(cfg, request, file, files).error
    ensures r.Ok? && Prepare(cfg, request, file, files).value.Missing? ==>
              r.value == [Error(FileNotFound(file.value))] && BackendCalls(r.value) == []
    ensures r.Ok? && Prepare(cfg, request, file, files).value.Proceed? ==>
              var opts := Prepare(cfg, request, file, files).value.opts;
              r.value == ProcessPrompt(opts, opts.prompt, turns).effects
              && r.value[0] == Generate(opts.client, opts.modelName, BuildMessages(opts))
  {
    var entry :- Prepare(cfg, request, file, files);
    match entry
    case Missing(path) =>
      ProjectOne(Error(FileNotFound(path)));
      Ok([Error(FileNotFound(path))])
    case Proceed(opts) => Ok(ProcessPrompt(opts, opts.prompt, turns).effects)
  }

  /** The `do` action as src/commands/do.ts:32-40 writes it: the client goes
      in a field named `openai`, so `processPrompt` finds `client` undefined
      and throws a TypeError when it evaluates `client(modelName)`, before the
      backend is called.  Only the configuration and file errors remain. */
  function DoAsWritten(cfg: Config, request: seq<string>, file: Option<string>, files: Files, turns: seq<Turn>)
    : (r: Result<seq<Effect>, string>)
    ensures r.Ok? ==> BackendCalls(r.value) == []
  {
    var entry :- Prepare(cfg, request, file, files);
    match entry
    case Missing(path) =>
      ProjectOne(Error(FileNotFound(path)));
      Ok([Error(FileNotFound(path))])
    case Proceed(_) => Err(ClientNotAFunction)
  }

  /** As written, no configuration and no request ever reaches the backend. */
  lemma AsWrittenNeverCallsBackend(cfg: Config, request: seq<string>, file: Option<string>, files: Files, turns: seq<Turn>)
    ensures var r := DoAsWritten(cfg, request, file, files, turns);
            r.Err? || BackendCalls(r.value) == []
    ensures Prepare(cfg, request, file, files).Ok? && Prepare(cfg, request, file, files).value.Proceed? ==>
              DoAsWritten(cfg, request, file, files, turns) == Err(ClientNotAFunction)
              && Do(cfg, request, file, files, turns).Ok?
              && |BackendCalls(Do(cfg, request, file, files, turns).value)| >= 1
  {
    var p := Prepare(cfg, request, file, files);
    if p.Ok? && p.value.Proceed? {
      var effects := Do(cfg, request, file, files, turns).value;
      BackendCallsAppend([effects[0]], effects[1..]);
      ProjectOne(effects[0]);
      assert [effects[0]] + effects[1..] == effects;
    }
  }

  /** The smallest case: a stored key, no file, any request.  As written the
      command throws; the corrected command calls the backend. */
  lemma AsWrittenCounterexample(turns: seq<Turn>)
    ensures DoAsWritten(map[ApiKeySetting := "sk-test"], ["list", "files"], None, map[], turns) == Err(ClientNotAFunction)
    ensures Do(map[ApiKeySetting := "sk-test"], ["list", "files"], None, map[], turns).Ok?
  {
  }

  /** Across a whole `do` session, the `j`-th backend call carries the joined
      request followed by the first `j` revisions, with the loaded file and
      its path unchanged; the first call's prompt equals the reference. */
  lemma SessionPrompts(cfg: Config, request: seq<string>, file: Option<string>, files: Files, turns: seq<Turn>)
    requires Prepare(cfg, request, file, files).Ok? && Prepare(cfg, request, file, files).value.Proceed?
    ensures var opts := Prepare(cfg, request, file, files).value.opts;
            var revs := Session.Revisions(turns);
            var calls := BackendCalls(Do(cfg, request, file, files, turns).value);
            && |calls| == |revs| + 1
            && forall j :: 0 <= j < |calls| ==>
                 calls[j] == BuildMessages(opts.(prompt := Session.Annotate(Join(request, ' '), revs[..j])))
  {
    var opts := Prepare(cfg, request, file, files).value.opts;
    var revs := Session.Revisions(turns);
    Session.BackendPrompts(opts, opts.prompt, turns);
    assert revs[..0] == [];
    var calls := BackendCalls(Do(cfg, request, file, files, turns).value);
    forall j | 0 <= j < |calls|
      ensures calls[j] == BuildMessages(opts.(prompt := Session.Annotate(Join(request, ' '), revs[..j])))
    {
      assert calls[j] == Session.ExpectedCalls(opts, opts.prompt, revs)[j];
    }
  }
}
