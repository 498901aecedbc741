# A verified model of an autonomous coding agent's core

The system is a command-line coding agent written in Go. It reads a goal from
INPUT.md. A language model splits the goal into a checklist in TASKS.md. The
agent then works through the checklist in a loop, where each step is a
conversation with the model. In each conversation the model may ask for
tools: visit or search a web page, list a directory, or read a file. Tool
results go back to the model until it stops calling tools. After each step, a
yes/no "oracle" decides whether every task is done. A completed run must also
pass a second oracle check: no TODOs or placeholders may remain in the
`git diff`. When both checks pass, the agent writes a wiki and erases INPUT.md
and TASKS.md.

This project models that core in Dafny and proves properties of the model.
The model has these modules:

- `Base`: `Option` and `Outcome`. `Outcome` is a value or a Go panic, with
  the panic's reason.
- `Strings`: the parts of Go's `strings` and `fmt` packages the core uses.
  These are `Split`, `Join`, `ReplaceAll` of one character, `Contains` and
  `%d`.
- `Protocol`: roles, messages, tool calls, tool declarations, requests and
  the provider's replies. The provider is a function from a request to a
  reply: failed, no choices, or a message.
- `Paths`: `filepath.IsAbs`, `filepath.Join` and `filepath.Dir` on Unix
  paths, shared by the file tools and the controller.
- `Files` (file.go): `ReadFile` line windows, `ListDirectory` depth-bounded
  flattening, and `WriteFile` net content. The disk is a value.
- `Tools` (tools.go): the declared tools and dispatch of a tool call to its
  handler.
- `Agent` (agent.go): the tool message built by `handleToolCall`, and the
  turn loop of `handleChatCompletion` over the stored conversation log. It
  has two forms: a recursive specification (`Chat`/`Batch`), and a `Session`
  class whose methods update the log in place. `YesNoQuestion` is here too.
- `Code` (code.go): `ReadCode` keeps the bodies of selected functions and
  stubs the others. `AddOrEditFunction` replaces a function's body or
  appends the function.
- `Controller` (main.go): the startup checks, the decomposition turn, the
  two-gate loop and the final erasure. It has two forms: a specification
  function (`Execute`), and a `Program` class whose methods run it
  imperatively.

Outside inputs are parameters or scripts:

- the current time, as a clock indexed by turn;
- the provider's replies;
- JSON decoding of tool arguments;
- the two web handlers;
- the command line;
- which paths do not exist;
- the API key;
- the per-cycle results of reading TASKS.md, of `git diff`, and of the work
  turn.

Notes on the code, which the model follows:

- A yes/no reply without a tool call panics: agent.go:120 indexes
  `ToolCalls[0]` unguarded, and `Agent.Decide` panics there too.
- The old test of `ListDirectory` (file_test.go:45-60) expects a depth of 0
  to give nothing. The code lists the top level at depth 0 (file.go:34).
  The model follows the code: `Files.EntryListingAtDepthZero`.
- The old tests compare maps with strings and call `WriteFile` with two
  arguments. They are used only where they agree with the code.

## Model

| member | source | states |
|---|---|---|
| Strings.JoinSplit | file.go:59-69 | joining the pieces of `strings.Split` with the separator gives back the text |
| Strings.Split | file.go:59 | `strings.Split` gives at least one piece, and no piece holds the separator |
| Strings.Join | file.go:66 | `strings.Join` of at least one piece starts with the first piece |
| Strings.SplitJoin | file.go:59-69 | splitting a join of separator-free pieces gives back the pieces |
| Strings.Remove | file.go:73 | removing `\r` leaves no `\r`; the multiset of characters is the input's with every `\r` dropped; a single character is kept exactly when it is not `\r` |
| Strings.RemoveAppend | file.go:73 | removal works piece by piece, so with the single-character case every other character is kept, in order |
| Strings.ContainsIffOccurs | agent.go:126 | the front-to-back substring search is true exactly when the substring occurs at some index |
| Strings.NatToStringReadsBack | file.go:62 | `%d` of a count reads back as the same number |
| Paths.PathJoin | file.go:20-21 | joining to an absolute directory gives an absolute path |
| Paths.DirOfJoin | file.go:80-81 | the directory of a name joined to a clean directory is that directory, so a write of the joined path needs exactly that directory |
| Files.ReadFile | file.go:45-70 | a length over 1000 gives "Cannot read more than 1000 lines" before any read; an unreadable file gives ""; an offset past the line count gives the "File has ..." message; a Go slice panic happens exactly for a negative offset or length inside the file |
| Files.ReadFileWindow | file.go:58-69 | a read that starts inside the file returns exactly lines offset..min(offset+length, n), with length 0 meaning 1000, so never more than the asked length |
| Files.ReadWholeFile | file.go:50-66 | offset 0 and length 0 return the whole file when it has at most 1000 lines |
| Files.ListDirectory | file.go:10-43 | the loop and the recursion give the listing specification; a negative depth or an unreadable directory gives the empty list |
| Files.Listing | file.go:10-43 | a readable directory listed to a depth of at least 0 gives at least one path per entry |
| Files.EntryListing | file.go:29-42 | the entries of a directory give at least one path each, and the first path is the first entry's name |
| Files.AppendNested | file.go:37-39 | the inner loop appends every listed path joined under the entry's name, in order |
| Files.ListingTopLevel | file.go:29-42 | the listing's top-level names are the directory's entries, in order: nested paths never add a top-level name |
| Files.EntryListingAtDepthZero | file.go:30-34 | at depth 0 only the directory's own entries are listed |
| Files.ListingDepth | file.go:10-43 | no listed path has more than depth+1 components |
| Files.WriteFile | file.go:72-84 | a negative offset panics and writes nothing; otherwise the file ends up holding the net content, and the result reports the line count of the input without `\r` |
| Files.Store | file.go:80-81 | a write changes no other file and no directory listing; it stores the data when the path is writable (not a directory, and an existing file or in an existing directory), and otherwise leaves the disk as it was |
| Files.NetContent | file.go:73-81 | the text a write leaves holds no `\r` |
| Files.StoreTwice | file.go:80-81 | the second write of the same path overrides the first, so only the later write stays |
| Files.NetContentFromStart | file.go:73-81 | writing from offset 0 stores the whole input without `\r` |
| Files.NetContentLines | file.go:73-83 | the stored text has no more lines than the reported count |
| Files.ReadBackWrite | file.go:45-84 | reading back a written file of at most 1000 lines whose path was writable, from offset 0 with length 0, returns exactly what was stored |
| Files.WriteWithoutDirectoryIsLost | file.go:80-81 | a write to a new file in a missing directory leaves the disk as it was, so reading it back gives "" |
| Files.WriteIntoDirectory | file.go:80-81 | a new file written into a listed directory becomes present |
| Tools.GetTools | tools.go:12-103 | the declared tools are visit_web_page, web_page_search, list_directory and read_file, in that order, with distinct names, with required fields that are declared properties, and with required fields url / query / path+depth / path+offset+length |
| Tools.Dispatch | tools.go:105-154 | an undeclared name gives "Unknown tool call: name"; every answer is non-empty; only read_file can panic |
| Tools.DeclaredIffRouted | tools.go:12-154 | a name is declared exactly when dispatch does not answer it as unknown |
| Tools.DecodeFailureSkipsHandler | tools.go:113-149 | a decoding error is answered with "Error unmarshalling ...", and no handler or disk state affects that answer |
| Tools.RoutesToOwnHandler | tools.go:106-152 | a declared call depends only on its own decoder and handler, and a decoded call's answer starts with that tool's prefix (Source:, Files:, Content:) |
| Tools.FormatList | tools.go:139 | `%+v` of a list of paths is bracketed, and "[]" for no paths |
| Agent.HandleToolCall | agent.go:68-80 | the tool message has role tool, the dispatch result as content, the call's name and the call's id; it fails exactly when dispatch panics; dispatch never gives the empty text, so the empty-result panic cannot occur |
| Agent.Wire | agent.go:61-80 | the running agent handles each call with `handleToolCall`: every tool message is paired with its call (role tool, the call's name and id), and a call fails exactly where dispatch does |
| Agent.Chat | agent.go:22-66 | a turn only appends to the stored log |
| Agent.Batch | agent.go:56-65 | walking a reply's tool calls only appends to the stored log |
| Agent.ToolMessages | agent.go:56-64 | the tool messages of successful calls are their handler results, in call order |
| Agent.BatchSerial | agent.go:56-64 | ordinary calls (not `continue`, not equal to the last call, successful) each store their tool message, in order, and nothing else happens |
| Agent.TurnStart | agent.go:22-51 | a turn stores the incoming message, sends it after a fresh system message, and stores the reply right after it |
| Agent.ProviderFailure | agent.go:46-49 | a failed provider call ends the turn with the error text; only the incoming message is stored and one request is sent |
| Agent.NoCallsEndsTurn | agent.go:51-65 | a reply without tool calls ends the turn, returning the reply's content |
| Agent.FirstSentinelWins | agent.go:56-59 | the first `continue` call ends the conversation with "Continue"; earlier calls are stored in order, later ones never run, and no further request is sent |
| Agent.LastCallFeedsNextTurn | agent.go:56-63 | without a sentinel, all calls but the last are stored in order, and the last call's tool message starts the next turn |
| Agent.ChatPayloads | agent.go:25-44 | every request sent is that turn's fresh system message, then a prefix of the final stored log, offered the declared tools |
| Agent.BatchPayloads | agent.go:56-65 | the same holds for the requests of the turns that tool calls start |
| Agent.ChatStoresNoSystem | agent.go:23-63 | stored messages are never system messages: the system prompt is rebuilt for each request and never stored |
| Agent.BatchStoresNoSystem | agent.go:56-63 | tool-call walks store no system message either |
| Agent.Session.HandleChatCompletion | agent.go:22-66 | the in-place turn loop leaves the stored log and returns the ending that `Chat` specifies |
| Agent.Session.WalkCalls | agent.go:56-65 | the in-place walk over tool calls matches `Batch` and only appends to the log; when it hands over, `next` is the tool message of the last call, reached at the first call equal to it, and the log then holds exactly the tool messages of the calls before that one |
| Agent.OracleRequest | agent.go:83-116 | the oracle sends its own two messages, a system directive and the question as a user message, and offers only the tools yes and no |
| Agent.Decide | agent.go:117-129 | a provider error gives no; a panic happens exactly when the reply has no choice or no tool call |
| Agent.DecideMeaning | agent.go:120-129 | with a tool call, the answer is yes exactly when the first call is yes, or it is not no and "yes" occurs in the content |
| Agent.DecideReadsFirstCallOnly | agent.go:120-126 | only the first tool call and the content decide the answer |
| Agent.YesNoQuestion | agent.go:82-130 | the question fails on a provider error with "no", and panics exactly when the reply has no choice or no tool call |
| Code.Stub | code.go:144-152 | the stub of an unselected function is its declaration with the body replaced by `{}` |
| Code.StubAsWrittenRepeatsKeyword | code.go:145-152 | the stub as written prints `func Function2func() {}` for `func Function2()`, where `func Function2() {}` is intended |
| Code.StubAsWrittenDropsReceiver | code.go:145-152 | the stub as written prints `func  Mfunc() {}` for the method `func (s *S) M()`: the receiver list is not printed, only the blank after it |
| Code.ReadCode | code.go:70-164 | the builder loop gives "Error reading file: ..." / "Error parsing file: ..." or the header followed by each declaration rendered in order; unselected functions are printed with the corrected `Code.Stub`, not as code.go:145-152 prints them (see Findings) |
| Code.ReadCodeResult | code.go:70-164 | a result is given exactly when the file was read and parsed, and it starts with the package clause |
| Code.WriteHeader | code.go:110-124 | the package clause, then an import block with one line per import when there are imports |
| Code.WriteDecl | code.go:128-158 | a selected function is printed in full, another function as the corrected `Code.Stub` (see Findings), any other declaration as printed |
| Code.Selected | code.go:131-137 | the search loop finds a name exactly when it is among the functions asked for |
| Code.RenderedIsSelection | code.go:127-159 | the output declarations are those of the selected file, printed in order |
| Code.KeepAll | code.go:139-142 | asking for every function gives back the file's declarations unchanged |
| Code.KeepNone | code.go:143-153 | asking for no function prints every function as its stub |
| Code.HeaderShape | code.go:110-124 | the header starts with the package clause, and the import block is present exactly when there are imports |
| Code.FindFunc | code.go:196-203 | the index found is the first function of that name, and none means no function has it |
| Code.FindFirst | code.go:197-203 | the search loop with `break` finds the first match |
| Code.FindFuncIsFirst | code.go:198-202 | a first match at k is what the search finds |
| Code.NoneFound | code.go:197-203 | without a match the search finds nothing |
| Code.EditReplacesBody | code.go:229-231 | editing an existing function replaces only its body; its receiver, name, signature and every other declaration stay |
| Code.EditAppends | code.go:232-235 | a function the file lacks is appended after all the others |
| Code.EditThenFind | code.go:228-235 | after the edit, looking the name up finds the new body |
| Code.Edited | code.go:228-235 | editing keeps the number of declarations when the function exists and adds one otherwise; each old declaration stays or only its body changes |
| Code.WritesOnlyOnSuccess | code.go:167-258 | a file is written exactly when the tool succeeds, and it is the file with the snippet's first function added or edited in; a snippet without a function gives "Error: Could not parse new function declaration" |
| Code.AddOrEditResult | code.go:167-258 | a file is written only after a successful read, parse and save, keeping the package name and imports; when nothing is written the response is an error |
| Code.AddOrEditFunction | code.go:167-258 | the method gives the response and the written file that the specification gives |
| Controller.ArePendingTodos | main.go:140-152 | pending TODOs are reported exactly when the diff runs and the oracle says yes; a failing diff counts as none |
| Controller.Loop | main.go:75-137 | the loop stops with a status other than the end of the script only if some cycle ran |
| Controller.Iterate | main.go:76-136 | each cycle begins with the work turn and the read of TASKS.md, and never stops as the end of the script |
| Controller.Startup | main.go:16-61 | the startup checks pass exactly when the directory exists, can be made absolute, the key is set, the client is created and INPUT.md exists |
| Controller.Execute | main.go:16-138 | a run that fails its startup checks exits with status 1 |
| Controller.BreakIffGates | main.go:93-136 | a cycle breaks the loop exactly when TASKS.md was read, the completion oracle said yes and the TODO check said no or could not run its diff; such a cycle ends with the wiki turn and the two erasures |
| Controller.NotCompletedSkipsDiff | main.go:93-104 | when the completion oracle says no, the loop goes on with no `git diff` and no TODO question |
| Controller.PendingTodosAddOneGapTurn | main.go:105-124 | when TODOs are pending, exactly one gap-tasking turn follows, on the second diff, and the loop goes on without erasing |
| Controller.ReadsBeforeAsking | main.go:76-101 | each cycle starts with the work turn, then re-reads TASKS.md before any question |
| Controller.LoopReadsBeforeAsking | main.go:75-101 | in the whole loop, every question comes after a read of TASKS.md with no work turn in between |
| Controller.FinishedIffGates | main.go:75-137 | the loop breaks exactly when some cycle passes both gates and every earlier cycle went on |
| Controller.FinishedLoopErases | main.go:125-136 | a loop that breaks ends with the wiki turn, then INPUT.md and TASKS.md erased |
| Controller.LoopNeverDecomposes | main.go:75-137 | the loop never issues the decomposition turn |
| Controller.DecomposeOnce | main.go:59-75 | after passed startup checks the decomposition turn occurs exactly once, preceded at most by the creation of TASKS.md |
| Controller.FailedStartupHasNoTurn | main.go:16-57 | a run that fails its startup checks issues no agent turn at all |
| Controller.FinishedRunErases | main.go:125-136 | a finished run passed its startup checks and ends with the wiki turn and the erasure of INPUT.md and TASKS.md in its working directory |
| Controller.MissingDirectoryExits | main.go:17-25 | a working directory that does not exist ends the run at once with status 1 |
| Controller.RelativeDirectoryMadeAbsolute | main.go:27-34 | a relative working directory is joined to the current directory, an absolute one is kept |
| Controller.MissingKeyExits | main.go:36-40 | a missing API key exits with status 1 before any file is touched |
| Controller.MissingInputCreatedThenExits | main.go:53-57 | a missing INPUT.md is created empty, then the run exits with status 1 |
| Controller.MissingTasksCreated | main.go:59-63 | a missing TASKS.md is created empty and the run goes on to the decomposition turn |
| Controller.Program.Run | main.go:16-138 | the imperative `main` leaves the trace, status and working directory that `Execute` specifies |
| Controller.Program.Start | main.go:16-61 | the imperative startup checks settle the working directory, create the missing files and report the exit reason, as `Startup` specifies |
| Controller.Program.WorkThrough | main.go:75-137 | the imperative loop with `continue` and `break` does what `Loop` specifies |
| Controller.Program.RunCycle | main.go:76-136 | one pass of the loop body does what `Iterate` specifies |

## Left out

- The web handlers (web.go) and JSON decoding of tool arguments are not modelled: they are parameters of `Tools.Env`.
- tui.go and wiki.go are not modelled. `GenWiki` is one agent turn with its prompt (`Controller.Wiki`).
- The model names, temperature, stream flag and `MAX_MESSAGES` (config.go, agent.go:14-17) are not modelled. No code trims the log, so the model has no trim.
- The provider client and its two API families (`openai` in agent.go, `genai` in main.go) are one abstract provider. The `context` argument missing at agent.go:69 is left out.
- Logging and printed output are left out, except the reason printed before each `os.Exit`.
- Agent.Chat: the source recurses with no bound. The model stops after `maxTurns` provider calls, with an `OutOfTurns` ending.
- Agent.Describe: `%#v` of a message is given only as a readable summary of its fields, not Go's exact syntax.
- Agent.SystemPrompt: the prompt's indentation is dropped. The same holds for the controller's prompts and questions.
- Agent.Batch: agent.go:60 compares whole `openai.ToolCall` values, which also carry `Type` and `Index`; the model's tool call holds only the id, name and arguments, so two calls differing only in those fields count as equal here.
- Agent.Session.WalkCalls: when it hands the next turn's message back, its `ending` is a placeholder that the caller ignores.
- Files.ListDirectory: `filepath.Join` cleaning of `..` and repeated slashes is not modelled (`Paths`). Joins are concatenation with one slash.
- Files.ReadFile: any read error, not only a missing file, gives the empty text. The model has only "readable or not".
- Files.WriteFile: write errors are ignored, as in the source; a write fails for a directory or a missing parent directory, and permission errors are not modelled. A newly created file does not appear in the directory listings.
- A file stored under two aliasing paths is not modelled.
- Code: Go's parser and printer are not modelled. A declaration carries its printed text, and receiver lists are opaque text.
- Code.ReadCode: the `Path` resolution, and the branch that creates a file after a successful read (code.go:79-97), are left out. That branch is unreachable, because `os.ReadFile` succeeded. The same holds for code.go:176-186.
- Code.AddOrEditFunction: the `printer.Fprint` error "Error writing file", the `lint` entry of the result, and `Lint`/`autoImport` (shell-outs to the Go toolchain) are left out.
- Code.ReadCode: unselected functions are rendered with the corrected Code.Stub; the as-written form is Code.StubAsWritten (see Findings).
- Code.ReadCode: imports are printed in the import block and again as the `import` declaration, as the code does. This is not a separate case in the model.
- Controller.Program.Run: the agent turns are scripted by what they return. A panic inside a turn, and the conversation log shared between turns, are outside this model.
- Controller.Program.Run: the loop runs over a finite script of cycles and ends with `OutOfCycles` when the script ends. The source loops for ever.
- Controller.Program.Run: `filepath.Abs` cleaning is not modelled, and `os.Stat` errors other than "does not exist" pass the checks, as in the source.
- Controller.Program.Run: errors from `os.Create` and from erasing are ignored, as in the source. The erasure is recorded whether or not it succeeds.

## Findings

| source | as written | input that shows it | evidently intended | confidence | as-written member | corrected member |
|---|---|---|---|---|---|---|
| code.go:145-152 | the stub header is rebuilt as "func " + receiver + name + the printed `d.Type`; go/printer prints a standalone function type with its own `func` keyword, and refuses a bare receiver list (an `*ast.FieldList` is not a node it prints), so only the blank after the receiver is written | `ReadCode` on a file with `func Function2() { ... }` and no function selected gives `func Function2func() {}`; with `func (s *S) M() { ... }` it gives `func  Mfunc() {}` | the stubs `func Function2() {}` and `func (s *S) M() {}`, as code_test.go:93-112 expects | medium, not executed | Code.StubAsWrittenRepeatsKeyword and Code.StubAsWrittenDropsReceiver (on Code.StubAsWritten) | Code.Stub |
