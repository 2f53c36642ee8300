/** `processPrompt` (src/lib/processor.ts) with the backend and the terminal
    prompts turned into inputs.  Each backend call is answered by one `Turn`:
    the backend's reply (free text and at most one tool call) and the user's
    answers to whatever prompts that tool shows.  The outcome is the ordered
    list of observable effects and the final value of the shared prompt
    reference. */
module Processor {
  import opened Wrappers
  import opened Text
  import opened Clients

  datatype Role = System | Assistant | User

  datatype Message = Message(role: Role, content: string)

  const SystemPrompt: string :=
    "\nYou are NLC, an intelligent and efficient command-line assistant running in a terminal environment.\n"
    + "Interpret natural language requests and respond with shell commands, scripts, or succinct CLI outputs.\n"
    + "Stay concise and pragmatic. Avoid small talk unless explicitly requested.\n"

  const Greeting: string := "NLC is ready. What would you like to do?"
  const TaskLead: string := "Task: "
  const RevisionMarker: string := " // Revision: "
  const CommandTitle: string := "Proposed Command"
  const ScriptTitle: string := "Generated Script"

  /** The declared `PromptOptions`, less the shared prompt reference (threaded
      separately) and `runCommand` (its calls are `Run` effects). */
  datatype PromptOptions = PromptOptions(
    prompt: string,
    fileContent: Option<string>,
    filePath: Option<string>,
    client: Client,
    modelName: string)

  /** The four tools the backend may call, with their string arguments. */
  datatype ToolCall =
    | SuggestCommand(command: string)
    | WriteScript(script: string, suggestedName: string)
    | ModifyScript(modifiedScript: string)
    | ErrorTool(errorMessage: string)

  /** One backend reply: its free text (possibly empty) and the tool it called, if any. */
  datatype Reply = Reply(text: string, tool: Option<ToolCall>)

  /** The four choices of the command gate. */
  datatype Action = Confirm | Modify | Revise | Cancel

  /** An answer to a free-text prompt: the default left as offered, or typed text. */
  datatype Input = AcceptDefault | Typed(text: string)

  /** The user's answers for one turn; a tool reads only the ones it asks for. */
  datatype Answers = Answers(action: Action, edit: Input, revision: Input, filename: Input, shouldRun: bool)

  datatype Turn = Turn(reply: Reply, answers: Answers)

  /** What one call of `processPrompt` does that can be observed, in order. */
  datatype Effect =
    | Generate(client: Client, model: string, messages: seq<Message>)  // the backend call
    | Show(title: string, body: string)                                 // a highlighted box
    | Print(text: string)                                               // the reply's free text
    | Error(message: string)                                            // an error line
    | Write(path: string, content: string)                              // writeFileSync
    | Run(command: string)                                              // runCommand
    | Recurse(prompt: string)                                           // the nested processPrompt

  /** One handler's effects, the prompt reference after it, and the prompt of
      the nested call it asks for, if any. */
  datatype Step = Step(effects: seq<Effect>, ref: string, next: Option<string>)

  datatype Outcome = Outcome(effects: seq<Effect>, ref: string)

  /** `${x}` for a `string | undefined`. */
  function Interpolate(x: Option<string>): string
  {
    if x.Some? then x.value else "undefined"
  }

  /** What a free-text prompt returns: the typed text, or else the default,
      or else the empty string. */
  function Answer(i: Input, default: Option<string>): (s: string)
    ensures i.Typed? && i.text != "" ==> s == i.text
    ensures (i.AcceptDefault? || i.text == "") ==> s == (if default.Some? then default.value else "")
  {
    if i.Typed? && i.text != "" then i.text
    else if default.Some? then default.value
    else ""
  }

  /** The file block that precedes the task when there is file content. */
  function FileBlock(filePath: Option<string>, content: string): string
  {
    "Here is the script `" + Interpolate(filePath) + "`:\n\n" + content + "\n\n---\n\n"
  }

  /** The user turn: the task text always comes last; the file block comes
      first exactly when the file content is non-empty. */
  function UserContent(prompt: string, fileContent: Option<string>, filePath: Option<string>): (c: string)
    ensures |c| >= |TaskLead + prompt| && c[|c| - |TaskLead + prompt|..] == TaskLead + prompt
    ensures Truthy(fileContent) ==> c[..|c| - |TaskLead + prompt|] == FileBlock(filePath, fileContent.value)
    ensures !Truthy(fileContent) ==> c == TaskLead + prompt
  {
    var task := TaskLead + prompt;
    if Truthy(fileContent) then
      var block := FileBlock(filePath, fileContent.value);
      assert (block + task)[..|block|] == block;
      block + task
    else task
  }

  /** Exactly three messages in the order system, assistant, user; the first
      two are fixed and only the last depends on the request. */
  function BuildMessages(opts: PromptOptions): (ms: seq<Message>)
    ensures |ms| == 3
    ensures ms[0] == Message(System, SystemPrompt)
    ensures ms[1] == Message(Assistant, Greeting)
    ensures ms[2] == Message(User, UserContent(opts.prompt, opts.fileContent, opts.filePath))
  {
    [ Message(System, SystemPrompt),
      Message(Assistant, Greeting),
      Message(User, UserContent(opts.prompt, opts.fileContent, opts.filePath)) ]
  }

  /** The commands run, in order. */
  function Runs(effects: seq<Effect>): seq<string>
  {
    if effects == [] then []
    else (if effects[0].Run? then [effects[0].command] else []) + Runs(effects[1..])
  }

  /** The files written, in order, as (path, content) pairs. */
  function Writes(effects: seq<Effect>): seq<(string, string)>
  {
    if effects == [] then []
    else (if effects[0].Write? then [(effects[0].path, effects[0].content)] else []) + Writes(effects[1..])
  }

  /** The prompts of the nested calls, in order. */
  function Recursions(effects: seq<Effect>): seq<string>
  {
    if effects == [] then []
    else (if effects[0].Recurse? then [effects[0].prompt] else []) + Recursions(effects[1..])
  }

  /** The message lists sent to the backend, in order. */
  function BackendCalls(effects: seq<Effect>): seq<seq<Message>>
  {
    if effects == [] then []
    else (if effects[0].Generate? then [effects[0].messages] else []) + BackendCalls(effects[1..])
  }

  /** The four projections distribute over concatenation. */
  lemma {:induction false} ProjectAppend(a: seq<Effect>, b: seq<Effect>)
    ensures Runs(a + b) == Runs(a) + Runs(b)
    ensures Writes(a + b) == Writes(a) + Writes(b)
    ensures Recursions(a + b) == Recursions(a) + Recursions(b)
    ensures BackendCalls(a + b) == BackendCalls(a) + BackendCalls(b)
  {
    RunsAppend(a, b);
    WritesAppend(a, b);
    RecursionsAppend(a, b);
    BackendCallsAppend(a, b);
  }

  lemma {:induction false} RunsAppend(a: seq<Effect>, b: seq<Effect>)
    ensures Runs(a + b) == Runs(a) + Runs(b)
    decreases |a|
  {
    if a == [] {
      assert a + b == b;
    } else {
      assert (a + b)[1..] == a[1..] + b;
      assert (a + b)[0] == a[0];
      RunsAppend(a[1..], b);
    }
  }

  lemma {:induction false} WritesAppend(a: seq<Effect>, b: seq<Effect>)
    ensures Writes(a + b) == Writes(a) + Writes(b)
    decreases |a|
  {
    if a == [] {
      assert a + b == b;
    } else {
      assert (a + b)[1..] == a[1..] + b;
      assert (a + b)[0] == a[0];
      WritesAppend(a[1..], b);
    }
  }

  lemma {:induction false} RecursionsAppend(a: seq<Effect>, b: seq<Effect>)
    ensures Recursions(a + b) == Recursions(a) + Recursions(b)
    decreases |a|
  {
    if a == [] {
      assert a + b == b;
    } else {
      assert (a + b)[1..] == a[1..] + b;
      assert (a + b)[0] == a[0];
      RecursionsAppend(a[1..], b);
    }
  }

  lemma {:induction false} BackendCallsAppend(a: seq<Effect>, b: seq<Effect>)
    ensures BackendCalls(a + b) == BackendCalls(a) + BackendCalls(b)
    decreases |a|
  {
    if a == [] {
      assert a + b == b;
    } else {
      assert (a + b)[1..] == a[1..] + b;
      assert (a + b)[0] == a[0];
      BackendCallsAppend(a[1..], b);
    }
  }

  /** The projections of a single effect. */
  lemma ProjectOne(e: Effect)
    ensures Runs([e]) == if e.Run? then [e.command] else []
    ensures Writes([e]) == if e.Write? then [(e.path, e.content)] else []
    ensures Recursions([e]) == if e.Recurse? then [e.prompt] else []
    ensures BackendCalls([e]) == if e.Generate? then [e.messages] else []
  {
    assert [e][1..] == [];
  }

  /** The command gate of `suggestCommand`.  Confirm runs the proposed
      command and nothing else; modify runs the user's edit of it instead;
      revise runs nothing, appends the revision to the shared prompt and asks
      for a nested call on the new prompt; cancel does nothing further. */
  function SuggestCommandStep(command: string, answers: Answers, ref: string): (s: Step)
    ensures Writes(s.effects) == []
    ensures answers.action == Confirm ==> Runs(s.effects) == [command] && s.next == None
    ensures answers.action == Modify ==> Runs(s.effects) == [Answer(answers.edit, Some(command))] && s.next == None
    ensures answers.action == Revise ==>
              && Runs(s.effects) == []
              && s.ref == ref + RevisionMarker + Answer(answers.revision, None)
              && s.next == Some(s.ref)
              && Recursions(s.effects) == [s.ref]
    ensures answers.action == Cancel ==> Runs(s.effects) == [] && s.next == None
    ensures answers.action != Revise ==> s.ref == ref && Recursions(s.effects) == []
    ensures forall i :: 0 <= i < |s.effects| ==> !s.effects[i].Generate?
  {
    var shown := Show(CommandTitle, "$ " + command);
    ProjectOne(shown);
    match answers.action
    case Confirm =>
      ProjectAppend([shown], [Run(command)]);
      ProjectOne(Run(command));
      Step([shown, Run(command)], ref, None)
    case Modify =>
      var edited := Answer(answers.edit, Some(command));
      ProjectAppend([shown], [Run(edited)]);
      ProjectOne(Run(edited));
      Step([shown, Run(edited)], ref, None)
    case Revise =>
      var amended := ref + RevisionMarker + Answer(answers.revision, None);
      ProjectAppend([shown], [Recurse(amended)]);
      ProjectOne(Recurse(amended));
      Step([shown, Recurse(amended)], amended, Some(amended))
    case Cancel =>
      Step([shown], ref, None)
  }

  /** The shared body of `writeScript` and `modifyScript`: the file named by
      the user (the default when left as offered) receives exactly the
      script, and the only command that may run is `bash <that file>`, iff
      the user says so, and after the write. */
  function SaveScript(script: string, defaultName: Option<string>, answers: Answers): (e: seq<Effect>)
    ensures Writes(e) == [(Answer(answers.filename, defaultName), script)]
    ensures Runs(e) == if answers.shouldRun then ["bash " + Answer(answers.filename, defaultName)] else []
    ensures Recursions(e) == []
    ensures forall i, j :: 0 <= i < |e| && 0 <= j < |e| && e[i].Write? && e[j].Run? ==> i < j
    ensures forall i :: 0 <= i < |e| ==> !e[i].Generate?
  {
    var filename := Answer(answers.filename, defaultName);
    var saved := [Show(ScriptTitle, script), Write(filename, script)];
    var ran := if answers.shouldRun then [Run("bash " + filename)] else [];
    assert Runs(saved) == [] && Writes(saved) == [(filename, script)] && Recursions(saved) == [] by {
      ProjectAppend([Show(ScriptTitle, script)], [Write(filename, script)]);
      ProjectOne(Show(ScriptTitle, script));
      ProjectOne(Write(filename, script));
      assert [Show(ScriptTitle, script)] + [Write(filename, script)] == saved;
    }
    assert Runs(ran) == (if answers.shouldRun then ["bash " + filename] else [])
        && Writes(ran) == [] && Recursions(ran) == [] by {
      ProjectOne(Run("bash " + filename));
    }
    assert Runs(saved + ran) == Runs(saved) + Runs(ran) by { RunsAppend(saved, ran); }
    assert Writes(saved + ran) == Writes(saved) + Writes(ran) by { WritesAppend(saved, ran); }
    assert Recursions(saved + ran) == Recursions(saved) + Recursions(ran) by { RecursionsAppend(saved, ran); }
    saved + ran
  }

  /** Dispatch on the closed set of tools.  `writeScript` offers the
      backend's suggested name, `modifyScript` the path of the file the user
      supplied; `error` only shows the message.  Only a revised command asks
      for a nested call, and no handler calls the backend itself. */
  function HandleTool(opts: PromptOptions, ref: string, call: ToolCall, answers: Answers): (s: Step)
    ensures call.WriteScript? ==> Writes(s.effects) == [(Answer(answers.filename, Some(call.suggestedName)), call.script)]
    ensures call.ModifyScript? ==> Writes(s.effects) == [(Answer(answers.filename, opts.filePath), call.modifiedScript)]
    ensures call.ErrorTool? ==> s.effects == [Error(call.errorMessage)]
    ensures call.ErrorTool? ==> Runs(s.effects) == [] && Writes(s.effects) == [] && Recursions(s.effects) == []
    ensures call.SuggestCommand? ==> s == SuggestCommandStep(call.command, answers, ref)
    ensures s.next.Some? <==> call.SuggestCommand? && answers.action == Revise
    ensures call.SuggestCommand? && answers.action == Revise ==>
              && s.ref == ref + RevisionMarker + Answer(answers.revision, None)
              && s.next == Some(s.ref)
              && Recursions(s.effects) == [s.ref]
              && Runs(s.effects) == [] && Writes(s.effects) == []
    ensures s.next.None? ==> s.ref == ref && Recursions(s.effects) == []
    ensures forall i :: 0 <= i < |s.effects| ==> !s.effects[i].Generate?
  {
    match call
    case SuggestCommand(command) => SuggestCommandStep(command, answers, ref)
    case WriteScript(script, suggestedName) => Step(SaveScript(script, Some(suggestedName), answers), ref, None)
    case ModifyScript(script) => Step(SaveScript(script, opts.filePath, answers), ref, None)
    case ErrorTool(message) =>
      ProjectOne(Error(message));
      Step([Error(message)], ref, None)
  }

  /** The step a reply leads to: its tool's handler, or nothing for free text. */
  function ReplyStep(opts: PromptOptions, ref: string, turn: Turn): Step
  {
    match turn.reply.tool
    case None => Step([], ref, None)
    case Some(call) => HandleTool(opts, ref, call, turn.answers)
  }

  /** `processPrompt`: call the backend with the three messages, run the
      chosen tool's handler (recursing on a revision with only the prompt
      replaced), then print the reply's text if there is any.  When the
      given turns run out the trace stops after the backend call. */
  function ProcessPrompt(opts: PromptOptions, ref: string, turns: seq<Turn>): (o: Outcome)
    ensures |o.effects| >= 1 && o.effects[0] == Generate(opts.client, opts.modelName, BuildMessages(opts))
    decreases |turns|
  {
    var call := Generate(opts.client, opts.modelName, BuildMessages(opts));
    if turns == [] then Outcome([call], ref)
    else
      var step := ReplyStep(opts, ref, turns[0]);
      var nested :=
        if step.next.Some? then ProcessPrompt(opts.(prompt := step.next.value), step.ref, turns[1..])
        else Outcome([], step.ref);
      var text := turns[0].reply.text;
      var printed := if text != "" then [Print(text)] else [];
      Outcome([call] + (step.effects + (nested.effects + printed)), nested.ref)
  }
}
