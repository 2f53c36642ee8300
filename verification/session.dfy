/** Properties of a whole `processPrompt` session, across the nested calls
    that revisions start.  A session's revisions are the texts of its
    leading `suggestCommand` turns answered with "revise"; the first turn
    that is not such a revision is the last one the session consumes. */
module Session {
  import opened Wrappers
  import opened Processor

  predicate IsRevision(t: Turn) {
    t.reply.tool.Some? && t.reply.tool.value.SuggestCommand? && t.answers.action == Revise
  }

  /** The text a revision turn appends. */
  function RevisionText(t: Turn): string {
    Answer(t.answers.revision, None)
  }

  /** The revisions a session goes through, in order. */
  function Revisions(turns: seq<Turn>): seq<string>
  {
    if turns != [] && IsRevision(turns[0]) then [RevisionText(turns[0])] + Revisions(turns[1..]) else []
  }

  /** `prompt` with every revision appended in order, each after `" // Revision: "`. */
  function Annotate(prompt: string, revisions: seq<string>): string
    decreases |revisions|
  {
    if revisions == [] then prompt else Annotate(prompt + RevisionMarker + revisions[0], revisions[1..])
  }

  /** The prompt of the `j`-th backend call of a session (0-based): the
      caller's prompt first, then the shared reference after `j` revisions. */
  function PromptAt(opts: PromptOptions, ref: string, revisions: seq<string>, j: nat): string
    requires j <= |revisions|
  {
    if j == 0 then opts.prompt else Annotate(ref, revisions[..j])
  }

  lemma NoBackendCalls(effects: seq<Effect>)
    requires forall i :: 0 <= i < |effects| ==> !effects[i].Generate?
    ensures BackendCalls(effects) == []
    decreases |effects|
  {
    if effects != [] {
      NoBackendCalls(effects[1..]);
    }
  }

  /** The parts of one call's trace: the backend call, the handler's
      effects, the nested call's effects and the printed text. */
  lemma Unfold(opts: PromptOptions, ref: string, turns: seq<Turn>)
    requires turns != []
    ensures var step := ReplyStep(opts, ref, turns[0]);
            && (step.next.Some? <==> IsRevision(turns[0]))
            && (!IsRevision(turns[0]) ==> step.ref == ref && Recursions(step.effects) == [])
            && (IsRevision(turns[0]) ==>
                  && step.ref == ref + RevisionMarker + RevisionText(turns[0])
                  && step.next == Some(step.ref)
                  && Recursions(step.effects) == [step.ref]
                  && Runs(step.effects) == [] && Writes(step.effects) == [])
            && BackendCalls(step.effects) == []
  {
    var step := ReplyStep(opts, ref, turns[0]);
    NoBackendCalls(step.effects);
  }

  lemma AnnotateCons(prompt: string, r: string, rs: seq<string>)
    ensures Annotate(prompt, [r] + rs) == Annotate(prompt + RevisionMarker + r, rs)
  {
    assert ([r] + rs)[1..] == rs;
  }

  /** One call's trace: the backend call, the handler's effects, the nested
      call's effects and the printed text, in that order. */
  lemma Parts(opts: PromptOptions, ref: string, turns: seq<Turn>)
    requires turns != []
    ensures var step := ReplyStep(opts, ref, turns[0]);
            var nested := if step.next.Some? then ProcessPrompt(opts.(prompt := step.next.value), step.ref, turns[1..])
                          else Outcome([], step.ref);
            var text := turns[0].reply.text;
            && ProcessPrompt(opts, ref, turns).effects
               == [Generate(opts.client, opts.modelName, BuildMessages(opts))] + (step.effects + (nested.effects + Printed(text)))
            && ProcessPrompt(opts, ref, turns).ref == nested.ref
  {
  }

  /** The text a reply prints after its handler, if any. */
  function Printed(text: string): seq<Effect>
  {
    if text != "" then [Print(text)] else []
  }

  /** The projections of a four-part trace whose first part is one backend
      call and whose last part is the printed text. */
  lemma ProjectParts(call: Effect, a: seq<Effect>, b: seq<Effect>, text: string)
    requires call.Generate?
    ensures Runs([call] + (a + (b + Printed(text)))) == Runs(a) + Runs(b)
    ensures Writes([call] + (a + (b + Printed(text)))) == Writes(a) + Writes(b)
    ensures Recursions([call] + (a + (b + Printed(text)))) == Recursions(a) + Recursions(b)
    ensures BackendCalls([call] + (a + (b + Printed(text)))) == [call.messages] + BackendCalls(a) + BackendCalls(b)
  {
    RunsParts(call, a, b, text);
    WritesParts(call, a, b, text);
    RecursionsParts(call, a, b, text);
    BackendCallsParts(call, a, b, text);
  }

  lemma RunsParts(call: Effect, a: seq<Effect>, b: seq<Effect>, text: string)
    requires call.Generate?
    ensures Runs([call] + (a + (b + Printed(text)))) == Runs(a) + Runs(b)
  {
    var rest := a + (b + Printed(text));
    assert ([call] + rest)[0] == call && ([call] + rest)[1..] == rest;
    RunsAppend(a, b + Printed(text));
    RunsAppend(b, Printed(text));
    if text != "" {
      assert Printed(text)[1..] == [];
    }
  }

  lemma WritesParts(call: Effect, a: seq<Effect>, b: seq<Effect>, text: string)
    requires call.Generate?
    ensures Writes([call] + (a + (b + Printed(text)))) == Writes(a) + Writes(b)
  {
    var rest := a + (b + Printed(text));
    assert ([call] + rest)[0] == call && ([call] + rest)[1..] == rest;
    WritesAppend(a, b + Printed(text));
    WritesAppend(b, Printed(text));
    if text != "" {
      assert Printed(text)[1..] == [];
    }
  }

  lemma RecursionsParts(call: Effect, a: seq<Effect>, b: seq<Effect>, text: string)
    requires call.Generate?
    ensures Recursions([call] + (a + (b + Printed(text)))) == Recursions(a) + Recursions(b)
  {
    var rest := a + (b + Printed(text));
    assert ([call] + rest)[0] == call && ([call] + rest)[1..] == rest;
    RecursionsAppend(a, b + Printed(text));
    RecursionsAppend(b, Printed(text));
    if text != "" {
      assert Printed(text)[1..] == [];
    }
  }

  lemma BackendCallsParts(call: Effect, a: seq<Effect>, b: seq<Effect>, text: string)
    requires call.Generate?
    ensures BackendCalls([call] + (a + (b + Printed(text)))) == [call.messages] + BackendCalls(a) + BackendCalls(b)
  {
    var rest := a + (b + Printed(text));
    assert ([call] + rest)[0] == call && ([call] + rest)[1..] == rest;
    BackendCallsAppend(a, b + Printed(text));
    BackendCallsAppend(b, Printed(text));
    if text != "" {
      assert Printed(text)[1..] == [];
    }
  }

  /** A revision turn: one backend call, then the nested session on the
      amended prompt; the reference is whatever the nested session leaves. */
  lemma ShapeRevision(opts: PromptOptions, ref: string, turns: seq<Turn>)
    requires turns != [] && IsRevision(turns[0])
    ensures var o := ProcessPrompt(opts, ref, turns);
            var amended := ref + RevisionMarker + RevisionText(turns[0]);
            var nested := ProcessPrompt(opts.(prompt := amended), amended, turns[1..]);
            && BackendCalls(o.effects) == [BuildMessages(opts)] + BackendCalls(nested.effects)
            && Recursions(o.effects) == [amended] + Recursions(nested.effects)
            && o.ref == nested.ref
  {
    Unfold(opts, ref, turns);
    Parts(opts, ref, turns);
    var step := ReplyStep(opts, ref, turns[0]);
    var amended := ref + RevisionMarker + RevisionText(turns[0]);
    var nested := ProcessPrompt(opts.(prompt := amended), amended, turns[1..]);
    var text := turns[0].reply.text;
    ProjectParts(Generate(opts.client, opts.modelName, BuildMessages(opts)), step.effects, nested.effects, text);
  }

  /** A turn that is not a revision ends the session: one backend call, and
      the handler's runs and writes are the session's. */
  lemma ShapeFinal(opts: PromptOptions, ref: string, turns: seq<Turn>)
    requires turns != [] && !IsRevision(turns[0])
    ensures var o := ProcessPrompt(opts, ref, turns);
            var step := ReplyStep(opts, ref, turns[0]);
            && BackendCalls(o.effects) == [BuildMessages(opts)]
            && Runs(o.effects) == Runs(step.effects)
            && Writes(o.effects) == Writes(step.effects)
            && Recursions(o.effects) == []
            && o.ref == ref
  {
    Unfold(opts, ref, turns);
    Parts(opts, ref, turns);
    var step := ReplyStep(opts, ref, turns[0]);
    var text := turns[0].reply.text;
    ProjectParts(Generate(opts.client, opts.modelName, BuildMessages(opts)), step.effects, [], text);
  }

  /** After a session the shared prompt reference holds the original text
      followed by every revision of the session, in order. */
  lemma {:induction false} FinalRef(opts: PromptOptions, ref: string, turns: seq<Turn>)
    ensures ProcessPrompt(opts, ref, turns).ref == Annotate(ref, Revisions(turns))
    decreases |turns|
  {
    if turns != [] {
      if IsRevision(turns[0]) {
        ShapeRevision(opts, ref, turns);
        var amended := ref + RevisionMarker + RevisionText(turns[0]);
        FinalRef(opts.(prompt := amended), amended, turns[1..]);
        AnnotateCons(ref, RevisionText(turns[0]), Revisions(turns[1..]));
      } else {
        ShapeFinal(opts, ref, turns);
      }
    }
  }

  /** The message lists a session with revisions `revs` sends, in order. */
  function ExpectedCalls(opts: PromptOptions, ref: string, revs: seq<string>): seq<seq<Message>>
  {
    seq(|revs| + 1, j requires 0 <= j <= |revs| => BuildMessages(opts.(prompt := PromptAt(opts, ref, revs, j))))
  }

  /** The nested prompts a session with revisions `revs` starts, in order. */
  function ExpectedRecursions(ref: string, revs: seq<string>): seq<string>
  {
    seq(|revs|, j requires 0 <= j < |revs| => Annotate(ref, revs[..j + 1]))
  }

  /** The prompt of call `j` of a session is the prompt of call `j - 1` of
      the nested session its first revision starts. */
  lemma PromptAtCons(opts: PromptOptions, ref: string, r: string, revs: seq<string>, j: nat)
    requires 1 <= j <= |revs| + 1
    ensures var amended := ref + RevisionMarker + r;
            PromptAt(opts.(prompt := amended), amended, revs, j - 1) == PromptAt(opts, ref, [r] + revs, j)
  {
    assert ([r] + revs)[..j] == [r] + revs[..j - 1];
    AnnotateCons(ref, r, revs[..j - 1]);
  }

  lemma ExpectedCallsCons(opts: PromptOptions, ref: string, r: string, revs: seq<string>)
    ensures var amended := ref + RevisionMarker + r;
            ExpectedCalls(opts, ref, [r] + revs)
            == [BuildMessages(opts)] + ExpectedCalls(opts.(prompt := amended), amended, revs)
  {
    var amended := ref + RevisionMarker + r;
    var opts' := opts.(prompt := amended);
    var whole := ExpectedCalls(opts, ref, [r] + revs);
    var rest := ExpectedCalls(opts', amended, revs);
    assert whole[0] == BuildMessages(opts) by {
      assert opts.(prompt := PromptAt(opts, ref, [r] + revs, 0)) == opts;
    }
    forall j | 1 <= j < |whole|
      ensures whole[j] == rest[j - 1]
    {
      PromptAtCons(opts, ref, r, revs, j);
    }
    assert whole == [BuildMessages(opts)] + rest;
  }

  lemma ExpectedRecursionsCons(ref: string, r: string, revs: seq<string>)
    ensures var amended := ref + RevisionMarker + r;
            ExpectedRecursions(ref, [r] + revs) == [amended] + ExpectedRecursions(amended, revs)
  {
    var amended := ref + RevisionMarker + r;
    var whole := ExpectedRecursions(ref, [r] + revs);
    var rest := ExpectedRecursions(amended, revs);
    forall j | 0 <= j < |whole|
      ensures whole[j] == ([amended] + rest)[j]
    {
      assert ([r] + revs)[..j + 1] == [r] + revs[..j];
      AnnotateCons(ref, r, revs[..j]);
      if j == 0 {
        assert revs[..0] == [];
      }
    }
  }

  /** A session makes one backend call per revision plus one, and the
      `j`-th call sends the three messages built from the `j`-th prompt with
      the file path and file content of the first call, unchanged. */
  lemma {:induction false} BackendPrompts(opts: PromptOptions, ref: string, turns: seq<Turn>)
    ensures BackendCalls(ProcessPrompt(opts, ref, turns).effects) == ExpectedCalls(opts, ref, Revisions(turns))
    decreases |turns|
  {
    var revs := Revisions(turns);
    assert opts.(prompt := PromptAt(opts, ref, revs, 0)) == opts;
    if turns == [] {
      ProjectOne(Generate(opts.client, opts.modelName, BuildMessages(opts)));
    } else if !IsRevision(turns[0]) {
      ShapeFinal(opts, ref, turns);
    } else {
      ShapeRevision(opts, ref, turns);
      var r := RevisionText(turns[0]);
      var amended := ref + RevisionMarker + r;
      BackendPrompts(opts.(prompt := amended), amended, turns[1..]);
      ExpectedCallsCons(opts, ref, r, Revisions(turns[1..]));
    }
  }

  /** The nested calls of a session receive, in order, the reference after
      one, two, ... revisions: each nested prompt is the new reference. */
  lemma {:induction false} RecursionPrompts(opts: PromptOptions, ref: string, turns: seq<Turn>)
    ensures Recursions(ProcessPrompt(opts, ref, turns).effects) == ExpectedRecursions(ref, Revisions(turns))
    decreases |turns|
  {
    if turns == [] {
      ProjectOne(Generate(opts.client, opts.modelName, BuildMessages(opts)));
    } else if !IsRevision(turns[0]) {
      ShapeFinal(opts, ref, turns);
    } else {
      ShapeRevision(opts, ref, turns);
      var r := RevisionText(turns[0]);
      var amended := ref + RevisionMarker + r;
      RecursionPrompts(opts.(prompt := amended), amended, turns[1..]);
      ExpectedRecursionsCons(ref, r, Revisions(turns[1..]));
    }
  }

  /** A first turn that is not a revision ends the session: one backend
      call, and the commands run and files written are exactly those of that
      turn's handler. */
  lemma SingleTurn(opts: PromptOptions, ref: string, turns: seq<Turn>)
    requires turns != [] && !IsRevision(turns[0])
    ensures var o := ProcessPrompt(opts, ref, turns);
            var step := ReplyStep(opts, ref, turns[0]);
            && |BackendCalls(o.effects)| == 1
            && Runs(o.effects) == Runs(step.effects)
            && Writes(o.effects) == Writes(step.effects)
            && Recursions(o.effects) == []
            && o.ref == ref
  {
    ShapeFinal(opts, ref, turns);
  }

  /** Cancelling a proposed command runs nothing, writes nothing and starts
      no further backend call. */
  lemma CancelRunsNothing(opts: PromptOptions, ref: string, turns: seq<Turn>)
    requires turns != [] && turns[0].reply.tool.Some? && turns[0].reply.tool.value.SuggestCommand?
    requires turns[0].answers.action == Cancel
    ensures var o := ProcessPrompt(opts, ref, turns);
            Runs(o.effects) == [] && Writes(o.effects) == [] && Recursions(o.effects) == []
            && |BackendCalls(o.effects)| == 1
  {
    SingleTurn(opts, ref, turns);
  }

  /** A `writeScript` turn leaves exactly the script text in the chosen file,
      whether or not the user then runs it. */
  lemma WriteScriptPersists(opts: PromptOptions, ref: string, turns: seq<Turn>)
    requires turns != [] && turns[0].reply.tool.Some? && turns[0].reply.tool.value.WriteScript?
    ensures var call := turns[0].reply.tool.value;
            var answers := turns[0].answers;
            var filename := Answer(answers.filename, Some(call.suggestedName));
            var o := ProcessPrompt(opts, ref, turns);
            && Writes(o.effects) == [(filename, call.script)]
            && Runs(o.effects) == (if answers.shouldRun then ["bash " + filename] else [])
  {
    SingleTurn(opts, ref, turns);
  }
}
