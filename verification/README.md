# NLC core in Dafny

NLC is a terminal assistant: `nlc do <request...> [--file <path>]` sends the
request (and optionally a line-numbered script) to a language model that
answers with free text or one of four tools — `suggestCommand`,
`writeScript`, `modifyScript`, `error` — and the user then confirms, edits,
revises or cancels before anything runs. `nlc config key|model|provider`
maintains the settings the backend factories read.

This project models that decision logic as pure functions over immutable
values:

- `text.dfy` (`Text`): JavaScript `split`/`join` on one character, decimal
  rendering of line numbers, `trim`, and the truthiness of `string | null`.
- `line_numbers.dfy` (`LineNumbers`): `loadFileWithLineNumbers`, with the
  file system reduced to "does the path exist" and "what does it hold".
- `config_store.dfy`, `config_command.dfy` (`ConfigStore`, `ConfigCommand`):
  the settings as a `map<string, string>`, and the three `config`
  sub-commands as guarded updates with a success or error report.
- `clients.dfy`, `llm.dfy`, `openai.dfy` (`Clients`, `Llm`, `OpenAi`): the
  client handle, the shared `getModelName`, `getClient` and
  `getOpenAIClient`. A thrown `Error` is `Err(message)`.
- `processor.dfy` (`Processor`): `processPrompt`. The backend and the user
  are inputs: one `Turn` per backend call, holding the reply (text and at
  most one tool call) and the user's answers. A call yields an ordered list
  of effects — `Generate` (the backend call with its three messages),
  `Show` (a titled box), `Print`, `Error`, `Write`, `Run`, `Recurse` — and
  the final value of the shared `originalPromptRef`.
- `session.dfy` (`Session`): properties of a whole session across nested
  revision calls.
- `do_command.dfy` (`DoCommand`): the `do` action; `scenarios.dfy`
  (`Scenarios`): worked examples of it.

`getModelName` appears twice in the source with identical bodies
(src/lib/llm.ts:34-44 and src/lib/openai.ts:16-26); it is defined once, as
`Clients.GetModelName`. The `do` command uses `src/lib/openai.ts`, not the
provider-aware `src/lib/llm.ts`, and the model follows that wiring.

A missing key or an empty model makes the `do` action throw
(src/lib/openai.ts:7-11, 19-23) rather than print an error and return;
`config model` stores any value, the empty string included
(src/commands/config.ts:33); and `do` never reads `PROVIDER`
(src/commands/do.ts:5, 19).

## Model

| member | source | states |
|---|---|---|
| Text.Split | src/helpers/file.ts:7 | `split('\n')` yields one more part than there are line feeds, no part holds a line feed, and joining the parts gives the text back |
| Text.SplitJoin | src/helpers/file.ts:7-9 | splitting the join of line-feed-free lines gives the same lines, so a text and its lines determine each other |
| Text.NatToString | src/helpers/file.ts:8 | a line number renders as a non-empty decimal numeral without a leading zero that parses back to the number |
| Text.TrimEmptyIffBlank | src/commands/config.ts:16 | `!key.trim()` holds exactly when the key consists of JavaScript white space only |
| LineNumbers.LoadFileWithLineNumbers | src/helpers/file.ts:3-10 | null exactly when the path does not exist; otherwise never empty, and its lines are the numbered segments of the content |
| LineNumbers.LabelledLine | src/helpers/file.ts:8 | the label `"<n>> "` can be read back: its number is `n` and removing it leaves the rest of the line |
| LineNumbers.LineCount | src/helpers/file.ts:6-9 | an existing file gives one output line per line feed plus one |
| LineNumbers.LineShape | src/helpers/file.ts:8 | output line `i` is `i`, `"> "` and segment `i`, and its number reads back as `i`, so numbers start at 1 and are consecutive |
| LineNumbers.RoundTrip | src/helpers/file.ts:6-9 | removing each line's label and re-joining gives the file content back exactly |
| LineNumbers.EmptyFile | src/helpers/file.ts:6-9 | an empty existing file yields `"1> "` |
| ConfigCommand.ConfigKey | src/commands/config.ts:15-23 | a key blank after trimming is refused with the store unchanged; any other key is stored verbatim under `OPENAI_API_KEY` |
| ConfigCommand.ConfigModel | src/commands/config.ts:32-36 | any model, even empty, is stored under `MODEL_NAME` without validation |
| ConfigCommand.ConfigProvider | src/commands/config.ts:42-58 | only `openai` and `lmstudio` are stored under `PROVIDER`; anything else is refused with the store unchanged |
| ConfigCommand.OnlyTargetChanges | src/commands/config.ts:11-58 | a refused sub-command changes nothing; a successful one changes only its own setting; none writes `BASE_URL` |
| Clients.GetModelName | src/lib/openai.ts:16-26 | `gpt-4o-mini` when unset, the stored model when non-empty, an error when the stored model is empty |
| Llm.GetClient | src/lib/llm.ts:9-32 | provider defaults to `openai`; with `openai` an error iff the key is missing or empty, else a client bound to that key; any other provider gets the `lmstudio` compatible client at the configured or default base URL, whatever the key |
| Llm.EmptyConfigNeedsKey | src/lib/llm.ts:10-21 | with nothing configured the provider is `openai` and the missing key is an error |
| Llm.LmStudioIgnoresKey | src/lib/llm.ts:24-29 | after `config provider lmstudio` the client is built whatever key is stored |
| Llm.KeyThenClient | src/lib/llm.ts:16-23 | after a successful `config key k` under `openai`, the client is bound to exactly `k` |
| OpenAi.GetOpenAIClient | src/lib/openai.ts:4-14 | an error iff the key is missing or empty; otherwise a client bound to exactly the stored key |
| OpenAi.IgnoresProvider | src/lib/openai.ts:4-14 | `PROVIDER` and `BASE_URL` have no bearing on the result |
| OpenAi.AgreesWithGetClient | src/lib/llm.ts:9-32 | both factories agree when the provider resolves to `openai`; for another provider without a key only `getClient` succeeds |
| OpenAi.KeyRoundTrip | src/commands/config.ts:15-23 | a saved key is what the OpenAI factory then binds; a refused key leaves the factory's outcome unchanged |
| OpenAi.ModelRoundTrip | src/commands/config.ts:32-36 | a non-empty model set by `config model` is the one used; an empty one makes the model lookup fail |
| Processor.UserContent | src/lib/processor.ts:49-54 | the user turn always ends with `"Task: " + prompt`; it is preceded by the script block exactly when the file content is non-empty, and is exactly the task otherwise |
| Processor.BuildMessages | src/lib/processor.ts:36-55 | exactly three messages: the fixed system text, the fixed greeting, then the user turn |
| Processor.SuggestCommandStep | src/lib/processor.ts:65-98 | confirm runs exactly the proposed command; modify runs the user's edit instead; revise runs nothing, appends `" // Revision: "` and the text to the shared prompt and recurses on the new value; cancel runs, writes and recurses nothing |
| Processor.SaveScript | src/lib/processor.ts:116-133 | the chosen file receives exactly the script; the only possible run is `bash <file>`, iff the user says yes, and after the write |
| Processor.HandleTool | src/lib/processor.ts:56-180 | `writeScript` defaults the file name to the suggested name and `modifyScript` to the original file path; `error` only shows its message; only a revised command recurses; no handler calls the backend |
| Processor.ProcessPrompt | src/lib/processor.ts:24-185 | every call starts with one backend call carrying the three messages built from its options |
| Session.FinalRef | src/lib/processor.ts:91-96 | after a session the shared prompt is the original followed by every revision annotation, in order |
| Session.BackendPrompts | src/lib/processor.ts:91-96 | a session makes one backend call per revision plus one; call `j` carries the prompt after `j` revisions with the file path and content unchanged |
| Session.RecursionPrompts | src/lib/processor.ts:95-96 | each nested call's prompt equals the shared prompt just after the corresponding revision |
| Session.SingleTurn | src/lib/processor.ts:35-184 | a turn that is not a revision ends the session with one backend call, and the session runs and writes exactly what that turn's handler does |
| Session.CancelRunsNothing | src/lib/processor.ts:70-98 | cancelling a proposed command runs nothing, writes nothing and calls the backend no further |
| Session.WriteScriptPersists | src/lib/processor.ts:121-132 | after a `writeScript` turn the file holds exactly the script, whether or not it is then run |
| DoCommand.Prepare | src/commands/do.ts:18-30 | key and model errors come before the file check; a given file that cannot be loaded stops the command; the prompt is the request joined with spaces and the file path is the `--file` argument; no `--file` means no file content |
| DoCommand.Do | src/commands/do.ts:18-41 | configuration errors are thrown; a missing file gives one error line and no backend call; otherwise the session starts with the backend call on the prepared options and the shared prompt equal to the initial prompt |
| DoCommand.DoAsWritten | src/commands/do.ts:32-40 | as written, the command never produces a backend call |
| DoCommand.AsWrittenNeverCallsBackend | src/commands/do.ts:32-40 | whenever the corrected command would reach the backend, the command as written throws instead |
| DoCommand.AsWrittenCounterexample | src/commands/do.ts:32-40 | with only a key stored and no file, the command as written throws while the corrected one succeeds |
| DoCommand.SessionPrompts | src/commands/do.ts:22-40 | backend call `j` of a `do` session carries the joined request followed by its first `j` revision annotations |
| Scenarios.RunProposal | src/lib/processor.ts:80 | no file, a proposed command confirmed: one backend call whose user turn is the task alone, and exactly that command runs |
| Scenarios.FixScript | src/lib/processor.ts:51-52 | an existing one-line script appears as line `1> ` inside the script block, before the task |
| Scenarios.MissingFile | src/commands/do.ts:25-29 | a `--file` that does not exist gives exactly the file-not-found line |
| Scenarios.ReviseThenAsk | src/lib/processor.ts:91-96 | after one revision the second backend call's user turn is the task with the revision appended |

## Findings

| source | as written | input that shows it | evidently intended | confidence | as-written member | corrected member |
|---|---|---|---|---|---|---|
| src/commands/do.ts:32-40 | the client is passed as `openai`, but `processPrompt` reads `client` (src/lib/processor.ts:16, 29), so `client(modelName)` at src/lib/processor.ts:181 throws a TypeError before the backend is called | a stored API key, no `--file`, request `list files` | pass the client under the declared name `client` | high; not executed | DoCommand.DoAsWritten, DoCommand.AsWrittenCounterexample | DoCommand.Do |

## Left out

- The backend call (`generateText`) and the zod argument schemas: the reply is an input, one `Turn` per call; malformed tool arguments are not modelled.
- `src/lib/command.ts`: running a shell command is the opaque `Run` effect; its output and failures are not modelled.
- `src/lib/logger.ts`: rendering is reduced to the `Show`, `Print` and `Error` effects and the box titles; the blank `console.log()` lines are dropped.
- `@inquirer/prompts`: the user's answers are inputs; a free-text answer resolves as the typed text, else the offered default, else the empty string.
- `writeFileSync` and `readFileSync` failures (no permission, an empty file name when `modifyScript` has no original path, a path that is a directory) are not modelled: `Write` always succeeds and the file system holds only readable files.
- File bytes are not decoded: a file's content is already a string of characters.
- The config store's persistence: it is an in-memory map.
- `src/index.ts` and `tsup.config.ts`: command registration and build configuration.
- Asynchronous sequencing: awaited steps become the order of the effect list.
- Sessions are finite: when the given turns run out after a revision, the trace ends with that backend call.
- The success and error lines of the `config` sub-commands are modelled as their message texts; terminal symbols are not.
