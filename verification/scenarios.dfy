/** Worked scenarios of the `do` command: concrete configurations, requests,
    files and backend/user turns, with the effects they lead to. */
module Scenarios {
  import opened Wrappers
  import opened Text
  import opened ConfigStore
  import opened Clients
  import opened Processor
  import opened DoCommand
  import Session

  const Configured: Config := map[ApiKeySetting := "sk-test", ModelSetting := "gpt-4o-mini"]

  function Answered(action: Action, revision: Input): Answers
  {
    Answers(action, AcceptDefault, revision, AcceptDefault, false)
  }

  /** No file, the backend proposes a command and the user runs it: one
      backend call carrying the task alone, and exactly that command runs. */
  lemma RunProposal(request: seq<string>, command: string)
    ensures var turns := [Turn(Reply("", Some(SuggestCommand(command))), Answered(Confirm, AcceptDefault))];
            var r := Do(Configured, request, None, map[], turns);
            && r.Ok?
            && Runs(r.value) == [command]
            && |BackendCalls(r.value)| == 1
            && r.value[0].Generate?
            && r.value[0].messages[2] == Message(User, TaskLead + Join(request, ' '))
  {
    var turns := [Turn(Reply("", Some(SuggestCommand(command))), Answered(Confirm, AcceptDefault))];
    var p := Prepare(Configured, request, None, map[]);
    assert p.Ok? && p.value.Proceed?;
    var opts := p.value.opts;
    assert opts.fileContent == None;
    assert !Session.IsRevision(turns[0]);
    Session.SingleTurn(opts, opts.prompt, turns);
    assert turns[0].answers.action == Confirm;
    assert Runs(ReplyStep(opts, opts.prompt, turns[0]).effects) == [command];
  }

  /** `--file` naming an existing one-line script: the user turn is the
      file block holding the script as line 1, then the task. */
  lemma FixScript(request: seq<string>, path: string, script: string)
    requires path != "" && '\n' !in script
    ensures var r := Prepare(Configured, request, Some(path), map[path := script]);
            && r.Ok? && r.value.Proceed?
            && BuildMessages(r.value.opts)[2].content
               == FileBlock(Some(path), "1> " + script) + TaskLead + Join(request, ' ')
  {
    var files := map[path := script];
    Text.SplitJoin([script], '\n');
    assert Split(script, '\n') == [script];
    assert LineNumbers.Label(1) == "1> ";
    var lines := LineNumbers.NumberLines([script]);
    assert |lines| == 1 && lines[0] == "1> " + script;
    assert lines == ["1> " + script];
    assert LoadFile(files, path) == Some("1> " + script);
    var r := Prepare(Configured, request, Some(path), files);
    assert Truthy(Some(path));
    assert r.Ok? && r.value.Proceed?;
    var opts := r.value.opts;
    assert opts.fileContent == Some("1> " + script) && opts.filePath == Some(path);
  }

  /** `--file missing.sh` that does not exist: one error line, no backend call. */
  lemma MissingFile(turns: seq<Turn>)
    ensures Do(Configured, ["run", "it"], Some("missing.sh"), map[], turns)
         == Ok([Error(FileNotFound("missing.sh"))])
  {
    assert Truthy(Some("missing.sh"));
    assert Prepare(Configured, ["run", "it"], Some("missing.sh"), map[]) == Ok(Missing("missing.sh"));
  }

  /** A proposed command revised with any text (possibly empty), then any
      turn that is not a revision: the second backend call carries the joined request
      with the revision appended. */
  lemma ReviseThenAsk(request: seq<string>, proposed: string, revision: string, last: Turn)
    requires !Session.IsRevision(last)
    ensures var turns := [Turn(Reply("", Some(SuggestCommand(proposed))), Answered(Revise, Typed(revision))), last];
            var r := Do(Configured, request, None, map[], turns);
            && r.Ok?
            && |BackendCalls(r.value)| == 2
            && |BackendCalls(r.value)[1]| == 3
            && BackendCalls(r.value)[1][2] == Message(User, TaskLead + (Join(request, ' ') + RevisionMarker + revision))
  {
    var turns := [Turn(Reply("", Some(SuggestCommand(proposed))), Answered(Revise, Typed(revision))), last];
    var prompt := Join(request, ' ');
    var r := Prepare(Configured, request, None, map[]);
    assert r.Ok? && r.value.Proceed?;
    var opts := r.value.opts;
    assert opts.fileContent == None;
    assert Session.IsRevision(turns[0]);
    assert Session.RevisionText(turns[0]) == revision;
    assert turns[1..] == [last];
    assert Session.Revisions(turns[1..]) == [];
    var revs := Session.Revisions(turns);
    assert revs == [revision];
    SessionPrompts(Configured, request, None, map[], turns);
    assert revs[..1] == [revision];
    Session.AnnotateCons(prompt, revision, []);
    assert Session.Annotate(prompt, revs[..1]) == prompt + RevisionMarker + revision;
  }
}
