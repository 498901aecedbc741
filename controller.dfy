/** The outer task controller (main.go): the startup checks, the decomposition
    turn, and the loop that works through TASKS.md until the completion oracle
    says every task is done and no TODO is left in the diff, after which the
    wiki is generated and INPUT.md and TASKS.md are erased.

    Everything the controller gets from outside is scripted: the command line,
    the process's current directory, which paths `os.Stat` reports missing,
    the API key, and per loop cycle the text the work turn returns, the result
    of reading TASKS.md, the results of `git diff` and the provider's replies
    to the two yes/no questions. The yes/no replies are read by
    `Agent.Decide`, as `YesNoQuestion` reads them. */
module Controller {
  import opened Base
  import opened Protocol
  import opened Paths
  import Agent

  /** The result of an outside action that yields text or fails with an error:
      reading a file, running `git diff`, asking for the current directory. */
  datatype Attempt = Output(text: string) | Error(message: string)

  /** The prompts the controller hands to the agent loop. */
  datatype Prompt = Decompose | Work | Gap(diff: string) | Wiki

  /** The yes/no questions the controller asks. */
  datatype Question = Completed(tasks: string, response: string) | Todos(diff: string)

  /** What the controller does to the outside world, in order. */
  datatype Event =
    | Turn(prompt: Prompt)      // one `handleChatCompletion` run
    | Ask(question: Question)   // one `YesNoQuestion`
    | GitDiff                   // one run of `git diff`
    | Read(path: string)        // `os.ReadFile`
    | Create(path: string)      // `os.Create`: the file now exists, empty
    | Erase(path: string)       // `os.WriteFile(path, []byte{}, 0644)`

  /** Why the process exits early; `FailureText` gives the message it prints. */
  datatype Failure =
    | NoDirectory(dir: string)
    | NotAbsolute(error: string)
    | NoKey
    | NoClient(error: string)
    | NoInput(dir: string)
    | TasksUnreadable(error: string)
    | DiffFailed(error: string)

  /** The message printed before `os.Exit(1)`. */
  function FailureText(f: Failure): string
  {
    match f
    case NoDirectory(dir) => "Working directory " + dir + " does not exist"
    case NotAbsolute(error) => "Error converting working directory to absolute path: " + error
    case NoKey => "GEMINI_API_KEY is not set"
    case NoClient(error) => "Error creating client: " + error
    case NoInput(dir) => "Input file INPUT.md does not exist in the working directory " + dir
    case TasksUnreadable(error) => "Error reading TASKS.md: " + error
    case DiffFailed(error) => "Error running git diff: " + error
  }

  /** How a run ends: `os.Exit` with a status and the reason it prints, a
      panic, the loop's `break`, or the end of the scripted cycles (the loop
      itself never ends otherwise). */
  datatype Status = Exited(code: nat, why: Failure) | Crashed(reason: string) | Finished | OutOfCycles

  /** The process's surroundings at startup. */
  datatype Host = Host(
    args: seq<string>,             // `os.Args`, the program name first
    cwd: Attempt,                  // what `filepath.Abs` joins a relative path to
    absent: set<string>,           // paths `os.Stat` reports as not existing
    apiKey: string,                // `GEMINI_API_KEY`
    clientError: Option<string>)   // an error from creating the client

  /** The scripted outside answers for one cycle of the loop. */
  datatype Cycle = Cycle(
    response: string,   // the text the work turn returns
    tasks: Attempt,     // reading TASKS.md
    completion: Reply,  // the provider's reply to "Has all the tasks been completed?"
    todoDiff: Attempt,  // `git diff` inside `ArePendingTodos`
    todos: Reply,       // the provider's reply to the TODO question
    gapDiff: Attempt)   // `git diff` before the gap-tasking turn

  /** A whole run: what was done, how it ended, and the working directory. */
  datatype Execution = Execution(trace: seq<Event>, status: Status, workingDirectory: string)

  /** The prompt texts, with their indentation left out. */
  const DecomposeText: string :=
    "Open a file called INPUT.md and read the content.\n" +
    "Process the content of the INPUT.md file into independent, small tasks and add them to the markdown checklist in the TASKS.md file.\n\n" +
    "If the file TASKS.md does not exist, create it.\n"
  const WorkText: string :=
    "Read the TASKS.md file and do the next task.\n" +
    "After each task, update the TASKS.md file to reflect the changes.\n\n" +
    "Do not leave TODOs, placeholders, etc. Fill in all the details.\n" +
    "If you cannot continue, create a new task in the TASKS.md file.\n"
  const GapIntro: string :=
    "Create tasks in the TASKS.md file to implement the missing functionality based on the TODOs, placeholders, etc. in the following git diff:\n\n" +
    "git diff:\n"
  const WikiText: string :=
    "1. Analyze the code in the current directory and generate high level documentation for the code.\n" +
    "2. Analyze the existing documentation in the wiki folder.\n" +
    "3. Write the documentation in markdown files in the wiki folder.\n\n" +
    "Do not leave TODOs, placeholders, etc. Fill in all the details.\n" +
    "If you cannot continue, create a new task in the TASKS.md file.\n"
  const TodoIntro: string := "Check if there are any TODOs, placeholders, etc. in the following git diff:\n\n"

  /** The text sent to the agent for a prompt. */
  function PromptText(p: Prompt): string
  {
    match p
    case Decompose => DecomposeText
    case Work => WorkText
    case Gap(diff) => GapIntro + diff + "\n"
    case Wiki => WikiText
  }

  /** The text of a yes/no question. */
  function QuestionText(q: Question): string
  {
    match q
    case Completed(tasks, response) =>
      "Has all the tasks been completed?\n\nTasks:\n" + tasks + "\n\nResponse:\n" + response + "\n\n"
    case Todos(diff) => TodoIntro + diff + "\n"
  }

  /** The working directory named on the command line, "." by default. */
  function Argument(args: seq<string>): string
  {
    if |args| < 2 then "." else args[1]
  }

  function InputPath(wd: string): string { PathJoin(wd, "INPUT.md") }
  function TasksPath(wd: string): string { PathJoin(wd, "TASKS.md") }

  /** What `ArePendingTodos` did and what it answered. */
  datatype Check = Check(events: seq<Event>, answer: Outcome<bool>)

  /** `ArePendingTodos`: runs `git diff` and, when it succeeds, asks whether the
      diff still holds TODOs or placeholders. A failing diff counts as none. */
  function ArePendingTodos(diff: Attempt, reply: Reply): (r: Check)
    ensures r.answer == Done(true) <==> diff.Output? && Agent.Decide(reply) == Done(true)
    ensures r.answer.Panic? <==> diff.Output? && Agent.Decide(reply).Panic?
    ensures diff.Error? ==> r == Check([GitDiff], Done(false))
    ensures diff.Output? ==> r.events == [GitDiff, Ask(Todos(diff.text))]
  {
    match diff
    case Error(_) => Check([GitDiff], Done(false))
    case Output(d) => Check([GitDiff, Ask(Todos(d))], Agent.Decide(reply))
  }

  /** One cycle of the loop: its events, and the status when the loop stops in it. */
  datatype Step = Step(events: seq<Event>, stop: Option<Status>)

  /** The body of the loop for one cycle's answers, in the working directory `wd`. */
  function Iterate(wd: string, c: Cycle): (r: Step)
    ensures |r.events| >= 2 && r.events[0] == Turn(Work) && r.events[1] == Read(TasksPath(wd))
    ensures r.stop.Some? ==> !r.stop.value.OutOfCycles?
  {
    var start := [Turn(Work), Read(TasksPath(wd))];
    match c.tasks
    case Error(e) => Step(start, Some(Exited(1, TasksUnreadable(e))))
    case Output(tasks) =>
      var asked := start + [Ask(Completed(tasks, c.response))];
      match Agent.Decide(c.completion)
      case Panic(why) => Step(asked, Some(Crashed(why)))
      case Done(completed) =>
        if !completed then Step(asked, None)
        else
          var check := ArePendingTodos(c.todoDiff, c.todos);
          var checked := asked + check.events;
          match check.answer
          case Panic(why) => Step(checked, Some(Crashed(why)))
          case Done(pending) =>
            if pending then
              match c.gapDiff
              case Error(e) => Step(checked + [GitDiff], Some(Exited(1, DiffFailed(e))))
              case Output(d) => Step(checked + [GitDiff, Turn(Gap(d))], None)
            else
              Step(checked + [Turn(Wiki), Erase(InputPath(wd)), Erase(TasksPath(wd))], Some(Finished))
  }

  /** The loop over the scripted cycles: its events and how it ends. */
  function Loop(wd: string, cycles: seq<Cycle>): (r: Execution)
    ensures r.status != OutOfCycles ==> cycles != []
    decreases |cycles|
  {
    if cycles == [] then Execution([], OutOfCycles, wd)
    else
      var s := Iterate(wd, cycles[0]);
      if s.stop.Some? then Execution(s.events, s.stop.value, wd)
      else
        var rest := Loop(wd, cycles[1..]);
        Execution(s.events + rest.trace, rest.status, wd)
  }

  /** The startup checks pass: the working directory exists and can be made
      absolute, the key is set, the client is created and INPUT.md exists. */
  predicate Started(host: Host)
  {
    var arg := Argument(host.args);
    && arg !in host.absent
    && (IsAbs(arg) || host.cwd.Output?)
    && host.apiKey != ""
    && host.clientError.None?
    && InputPath(AbsoluteDirectory(host)) !in host.absent
  }

  /** The working directory after `filepath.Abs`. */
  function AbsoluteDirectory(host: Host): string
  {
    var arg := Argument(host.args);
    if IsAbs(arg) || host.cwd.Error? then arg else PathJoin(host.cwd.text, arg)
  }

  /** Where the startup checks leave a run: exited with the events so far, or
      ready to decompose in the absolute working directory. */
  datatype Start =
    | Stopped(events: seq<Event>, why: Failure, dir: string)
    | Ready(events: seq<Event>, dir: string)

  /** The startup checks of `main`, in their order. */
  function Startup(host: Host): (r: Start)
    ensures r.Ready? <==> Started(host)
    ensures r.Ready? ==> r.dir == AbsoluteDirectory(host)
  {
    var arg := Argument(host.args);
    if arg in host.absent then Stopped([], NoDirectory(arg), arg)
    else if !IsAbs(arg) && host.cwd.Error? then Stopped([], NotAbsolute(host.cwd.message), arg)
    else
      var wd := AbsoluteDirectory(host);
      if host.apiKey == "" then Stopped([], NoKey, wd)
      else if host.clientError.Some? then Stopped([], NoClient(host.clientError.value), wd)
      else if InputPath(wd) in host.absent then Stopped([Create(InputPath(wd))], NoInput(wd), wd)
      else if TasksPath(wd) in host.absent then Ready([Create(TasksPath(wd))], wd)
      else Ready([], wd)
  }

  /** `main`: the startup checks, the decomposition turn and the loop. */
  function Execute(host: Host, cycles: seq<Cycle>): (r: Execution)
    ensures !Started(host) ==> r.status.Exited? && r.status.code == 1
  {
    match Startup(host)
    case Stopped(events, why, dir) => Execution(events, Exited(1, why), dir)
    case Ready(events, wd) =>
      var loop := Loop(wd, cycles);
      Execution(events + [Turn(Decompose)] + loop.trace, loop.status, wd)
  }


  /** The two gates of the loop's `break`, stated on the scripted answers:
      TASKS.md was read, the completion oracle said yes, and the TODO check
      said no or could not run its diff. */
  predicate Gates(c: Cycle)
  {
    && c.tasks.Output?
    && Agent.Decide(c.completion) == Done(true)
    && (c.todoDiff.Error? || Agent.Decide(c.todos) == Done(false))
  }

  /** A cycle ends the loop by its `break` exactly when both gates pass; the
      three erasing steps then close the cycle. */
  lemma BreakIffGates(wd: string, c: Cycle)
    ensures Iterate(wd, c).stop == Some(Finished) <==> Gates(c)
    ensures Gates(c) ==> var e := Iterate(wd, c).events;
              |e| >= 3 && e[|e| - 3..] == [Turn(Wiki), Erase(InputPath(wd)), Erase(TasksPath(wd))]
  {
  }

  /** When the completion oracle says no, the loop goes on without running
      `git diff` or asking about TODOs. */
  lemma NotCompletedSkipsDiff(wd: string, c: Cycle)
    requires c.tasks.Output? && Agent.Decide(c.completion) == Done(false)
    ensures Iterate(wd, c).stop == None
    ensures Iterate(wd, c).events == [Turn(Work), Read(TasksPath(wd)), Ask(Completed(c.tasks.text, c.response))]
    ensures GitDiff !in Iterate(wd, c).events
  {
  }

  /** When TODOs are pending, exactly one gap-tasking turn follows, on the
      second diff, and the loop goes on. */
  lemma PendingTodosAddOneGapTurn(wd: string, c: Cycle)
    requires c.tasks.Output? && Agent.Decide(c.completion) == Done(true)
    requires c.todoDiff.Output? && Agent.Decide(c.todos) == Done(true)
    requires c.gapDiff.Output?
    ensures Iterate(wd, c).stop == None
    ensures var e := Iterate(wd, c).events;
            && e[|e| - 1] == Turn(Gap(c.gapDiff.text))
            && (forall i :: 0 <= i < |e| && e[i].Turn? ==> i == 0 || i == |e| - 1)
            && Turn(Wiki) !in e && Erase(InputPath(wd)) !in e
  {
  }

  /** Every cycle starts with the work turn and then reads TASKS.md afresh,
      before any question is asked; nothing later in the cycle is a work turn. */
  lemma ReadsBeforeAsking(wd: string, c: Cycle)
    ensures var e := Iterate(wd, c).events;
            && |e| >= 2 && e[0] == Turn(Work) && e[1] == Read(TasksPath(wd))
            && (forall i :: 0 <= i < |e| && e[i].Ask? ==> i >= 2)
            && (forall i :: 1 <= i < |e| ==> e[i] != Turn(Work))
  {
  }

  /** Every question in a trace comes after a read of TASKS.md with no work
      turn in between. */
  predicate ReadBeforeEachAsk(trace: seq<Event>, tasks: string)
  {
    forall i :: 0 <= i < |trace| && trace[i].Ask? ==>
      exists j :: 0 <= j < i && trace[j] == Read(tasks) && forall m :: j < m < i ==> trace[m] != Turn(Work)
  }

  /** `Loop(wd, cycles[k..])` unfolded once. */
  lemma LoopAt(wd: string, cycles: seq<Cycle>, k: nat)
    requires k < |cycles|
    ensures var s := Iterate(wd, cycles[k]);
            var rest := Loop(wd, cycles[k + 1..]);
            Loop(wd, cycles[k..])
              == if s.stop.Some? then Execution(s.events, s.stop.value, wd)
                 else Execution(s.events + rest.trace, rest.status, wd)
  {
    assert cycles[k..][1..] == cycles[k + 1..];
  }

  /** The property holds for each cycle's events. */
  lemma CycleReadsBeforeAsking(wd: string, c: Cycle)
    ensures ReadBeforeEachAsk(Iterate(wd, c).events, TasksPath(wd))
  {
    var e := Iterate(wd, c).events;
    ReadsBeforeAsking(wd, c);
    forall i | 0 <= i < |e| && e[i].Ask?
      ensures exists j :: 0 <= j < i && e[j] == Read(TasksPath(wd)) && forall m :: j < m < i ==> e[m] != Turn(Work)
    {
      assert e[1] == Read(TasksPath(wd));
    }
  }

  /** The property survives putting two traces one after the other. */
  lemma ReadsBeforeAskingAppend(a: seq<Event>, b: seq<Event>, tasks: string)
    requires ReadBeforeEachAsk(a, tasks) && ReadBeforeEachAsk(b, tasks)
    ensures ReadBeforeEachAsk(a + b, tasks)
  {
    var t := a + b;
    forall i | 0 <= i < |t| && t[i].Ask?
      ensures exists j :: 0 <= j < i && t[j] == Read(tasks) && forall m :: j < m < i ==> t[m] != Turn(Work)
    {
      if i < |a| {
        assert a[i].Ask?;
        var j :| 0 <= j < i && a[j] == Read(tasks) && forall m :: j < m < i ==> a[m] != Turn(Work);
        assert t[j] == Read(tasks);
        forall m | j < m < i
          ensures t[m] != Turn(Work)
        {
          assert t[m] == a[m];
        }
      } else {
        assert b[i - |a|].Ask?;
        var j :| 0 <= j < i - |a| && b[j] == Read(tasks) && forall m :: j < m < i - |a| ==> b[m] != Turn(Work);
        assert t[|a| + j] == Read(tasks);
        forall m | |a| + j < m < i
          ensures t[m] != Turn(Work)
        {
          assert t[m] == b[m - |a|];
        }
      }
    }
  }

  /** TASKS.md is re-read before every question of the loop. */
  lemma {:induction false} LoopReadsBeforeAsking(wd: string, cycles: seq<Cycle>)
    ensures ReadBeforeEachAsk(Loop(wd, cycles).trace, TasksPath(wd))
    decreases |cycles|
  {
    if cycles != [] {
      var s := Iterate(wd, cycles[0]);
      CycleReadsBeforeAsking(wd, cycles[0]);
      if s.stop.None? {
        LoopReadsBeforeAsking(wd, cycles[1..]);
        ReadsBeforeAskingAppend(s.events, Loop(wd, cycles[1..]).trace, TasksPath(wd));
      }
    }
  }

  /** The loop breaks exactly when some cycle passes both gates and every
      cycle before it went on. */
  lemma {:induction false} FinishedIffGates(wd: string, cycles: seq<Cycle>)
    ensures Loop(wd, cycles).status == Finished <==>
              exists k :: 0 <= k < |cycles| && Gates(cycles[k])
                          && forall j :: 0 <= j < k ==> Iterate(wd, cycles[j]).stop == None
    decreases |cycles|
  {
    if cycles != [] {
      BreakIffGates(wd, cycles[0]);
      FinishedIffGates(wd, cycles[1..]);
      var s := Iterate(wd, cycles[0]);
      if s.stop.None? {
        if Loop(wd, cycles).status == Finished {
          var k' :| 0 <= k' < |cycles[1..]| && Gates(cycles[1..][k'])
                    && forall j :: 0 <= j < k' ==> Iterate(wd, cycles[1..][j]).stop == None;
          assert Gates(cycles[k' + 1]);
          forall j | 0 <= j < k' + 1
            ensures Iterate(wd, cycles[j]).stop == None
          {
            if j > 0 {
              assert cycles[j] == cycles[1..][j - 1];
            }
          }
        } else {
          forall k | 0 <= k < |cycles| && Gates(cycles[k])
            ensures exists j :: 0 <= j < k && Iterate(wd, cycles[j]).stop != None
          {
            assert k != 0;
            assert cycles[1..][k - 1] == cycles[k];
            var j' :| 0 <= j' < k - 1 && Iterate(wd, cycles[1..][j']).stop != None;
            assert cycles[1..][j'] == cycles[j' + 1];
          }
        }
      } else {
        if Loop(wd, cycles).status != Finished {
          forall k | 0 <= k < |cycles| && Gates(cycles[k])
            ensures exists j :: 0 <= j < k && Iterate(wd, cycles[j]).stop != None
          {
            assert k != 0;
            assert Iterate(wd, cycles[0]).stop != None;
          }
        }
      }
    }
  }

  /** A loop that breaks ends with the wiki turn and the two erasures. */
  lemma {:induction false} FinishedLoopErases(wd: string, cycles: seq<Cycle>)
    ensures var t := Loop(wd, cycles).trace;
            Loop(wd, cycles).status == Finished ==>
              |t| >= 3 && t[|t| - 3..] == [Turn(Wiki), Erase(InputPath(wd)), Erase(TasksPath(wd))]
    decreases |cycles|
  {
    if cycles != [] {
      var s := Iterate(wd, cycles[0]);
      BreakIffGates(wd, cycles[0]);
      if s.stop.None? {
        FinishedLoopErases(wd, cycles[1..]);
        var rest := Loop(wd, cycles[1..]).trace;
        var t := s.events + rest;
        if Loop(wd, cycles).status == Finished {
          assert t[|t| - 3..] == rest[|rest| - 3..];
        }
      }
    }
  }

  /** The loop never issues the decomposition turn. */
  lemma {:induction false} LoopNeverDecomposes(wd: string, cycles: seq<Cycle>)
    ensures Turn(Decompose) !in Loop(wd, cycles).trace
    decreases |cycles|
  {
    if cycles != [] {
      var s := Iterate(wd, cycles[0]);
      assert Turn(Decompose) !in s.events;
      if s.stop.None? {
        LoopNeverDecomposes(wd, cycles[1..]);
      }
    }
  }

  /** The decomposition turn is issued exactly once, after at most the creation
      of TASKS.md and before everything else. */
  lemma DecomposeOnce(host: Host, cycles: seq<Cycle>)
    ensures var t := Execute(host, cycles).trace;
            Started(host) ==>
              && multiset(t)[Turn(Decompose)] == 1
              && exists n :: 0 <= n <= 1 && n < |t| && t[n] == Turn(Decompose) && forall i :: 0 <= i < n ==> t[i].Create?
  {
    if Started(host) {
      var wd := AbsoluteDirectory(host);
      var loop := Loop(wd, cycles).trace;
      LoopNeverDecomposes(wd, cycles);
      var created := if TasksPath(wd) in host.absent then [Create(TasksPath(wd))] else [];
      var t := Execute(host, cycles).trace;
      assert t == created + [Turn(Decompose)] + loop;
      assert multiset(loop)[Turn(Decompose)] == 0;
      assert t[|created|] == Turn(Decompose);
    }
  }

  /** A run that fails its startup checks issues no agent turn at all. */
  lemma FailedStartupHasNoTurn(host: Host, cycles: seq<Cycle>)
    requires !Started(host)
    ensures var t := Execute(host, cycles).trace;
            forall i :: 0 <= i < |t| ==> !t[i].Turn?
  {
  }

  /** A finished run passed its startup checks and its trace ends with the
      wiki turn, then INPUT.md and TASKS.md erased, in the working directory. */
  lemma FinishedRunErases(host: Host, cycles: seq<Cycle>)
    ensures var r := Execute(host, cycles);
            r.status == Finished ==>
              && Started(host)
              && |r.trace| >= 3
              && r.trace[|r.trace| - 3..] == [Turn(Wiki), Erase(InputPath(r.workingDirectory)), Erase(TasksPath(r.workingDirectory))]
  {
    var r := Execute(host, cycles);
    if r.status == Finished {
      var wd := AbsoluteDirectory(host);
      FinishedLoopErases(wd, cycles);
      var loop := Loop(wd, cycles).trace;
      var prefix := r.trace[..|r.trace| - |loop|];
      assert r.trace[|r.trace| - 3..] == loop[|loop| - 3..];
    }
  }

  /** A working directory that `os.Stat` reports missing ends the run at once. */
  lemma MissingDirectoryExits(host: Host, cycles: seq<Cycle>)
    requires Argument(host.args) in host.absent
    ensures Execute(host, cycles)
            == Execution([], Exited(1, NoDirectory(Argument(host.args))), Argument(host.args))
  {
  }

  /** A relative working directory is joined to the current directory before
      anything else uses it; an absolute one is kept. */
  lemma RelativeDirectoryMadeAbsolute(host: Host, cycles: seq<Cycle>)
    requires Started(host)
    ensures var arg := Argument(host.args);
            Execute(host, cycles).workingDirectory == if IsAbs(arg) then arg else PathJoin(host.cwd.text, arg)
    ensures host.cwd.Output? && IsAbs(host.cwd.text) ==> IsAbs(Execute(host, cycles).workingDirectory)
  {
  }

  /** A missing API key ends the run before any file is touched. */
  lemma MissingKeyExits(host: Host, cycles: seq<Cycle>)
    requires Argument(host.args) !in host.absent && (IsAbs(Argument(host.args)) || host.cwd.Output?)
    requires host.apiKey == ""
    ensures Execute(host, cycles).trace == [] && Execute(host, cycles).status == Exited(1, NoKey)
  {
  }

  /** A missing INPUT.md is created empty and the run ends with status 1. */
  lemma MissingInputCreatedThenExits(host: Host, cycles: seq<Cycle>)
    requires Argument(host.args) !in host.absent && (IsAbs(Argument(host.args)) || host.cwd.Output?)
    requires host.apiKey != "" && host.clientError.None?
    requires InputPath(AbsoluteDirectory(host)) in host.absent
    ensures var r := Execute(host, cycles);
            r.trace == [Create(InputPath(r.workingDirectory))] && r.status.Exited? && r.status.code == 1
  {
  }

  /** A missing TASKS.md is created empty and the run goes on to decompose. */
  lemma MissingTasksCreated(host: Host, cycles: seq<Cycle>)
    requires Started(host) && TasksPath(AbsoluteDirectory(host)) in host.absent
    ensures var r := Execute(host, cycles);
            |r.trace| >= 2 && r.trace[0] == Create(TasksPath(r.workingDirectory)) && r.trace[1] == Turn(Decompose)
  {
  }

  /** The process: the working directory it settles on and what it has done so far. */
  class Program {
    var workingDirectory: string
    var trace: seq<Event>

    constructor()
      ensures workingDirectory == "" && trace == []
    {
      workingDirectory := "";
      trace := [];
    }

    /** `main`, run against the scripted host and cycles. */
    method Run(host: Host, cycles: seq<Cycle>) returns (status: Status)
      requires trace == []
      modifies this
      ensures Execution(trace, status, workingDirectory) == Execute(host, cycles)
    {
      var failure := Start(host);
      if failure.Some? {
        status := Exited(1, failure.value);
        return;
      }
      trace := trace + [Turn(Decompose)];
      status := WorkThrough(workingDirectory, cycles);
    }

    /** The startup checks: settles the working directory, creates a missing
        INPUT.md or TASKS.md, and gives the reason when the process exits. */
    method Start(host: Host) returns (failure: Option<Failure>)
      requires trace == []
      modifies this
      ensures failure.None? <==> Startup(host).Ready?
      ensures failure.Some? ==> failure.value == Startup(host).why
      ensures trace == Startup(host).events && workingDirectory == Startup(host).dir
    {
      if |host.args| < 2 {
        workingDirectory := ".";
      } else {
        workingDirectory := host.args[1];
      }
      if workingDirectory in host.absent {
        return Some(NoDirectory(workingDirectory));
      }
      if !IsAbs(workingDirectory) {
        if host.cwd.Error? {
          return Some(NotAbsolute(host.cwd.message));
        }
        workingDirectory := PathJoin(host.cwd.text, workingDirectory);
      }
      if host.apiKey == "" {
        return Some(NoKey);
      }
      if host.clientError.Some? {
        return Some(NoClient(host.clientError.value));
      }
      var wd := workingDirectory;
      if InputPath(wd) in host.absent {
        trace := trace + [Create(InputPath(wd))];
        return Some(NoInput(wd));
      }
      if TasksPath(wd) in host.absent {
        trace := trace + [Create(TasksPath(wd))];
      }
      return None;
    }

    /** The loop of `main`, from its first cycle on. A cycle that stops the
        loop is one that exits the process, panics or breaks. */
    method WorkThrough(wd: string, cycles: seq<Cycle>) returns (status: Status)
      modifies this
      ensures trace == old(trace) + Loop(wd, cycles).trace && status == Loop(wd, cycles).status
      ensures workingDirectory == old(workingDirectory)
    {
      ghost var goal := Loop(wd, cycles);
      status := OutOfCycles;
      var k := 0;
      while k < |cycles|
        invariant 0 <= k <= |cycles|
        invariant workingDirectory == old(workingDirectory)
        invariant trace + Loop(wd, cycles[k..]).trace == old(trace) + goal.trace
        invariant Loop(wd, cycles[k..]).status == goal.status
        invariant status == OutOfCycles
      {
        LoopAt(wd, cycles, k);
        ghost var mark := trace;
        ghost var rest := Loop(wd, cycles[k + 1..]);
        var stop := RunCycle(wd, cycles[k]);
        k := k + 1;
        if stop.None? {
          AppendAssoc(mark, Iterate(wd, cycles[k - 1]).events, rest.trace);
          continue;
        }
        status := stop.value;
        break;
      }
    }

    /** One cycle of the loop: the work turn, the re-read of TASKS.md, the
        completion question and, when it says yes, the TODO check. Gives the
        status when the cycle stops the loop and `None` when the loop goes on. */
    method RunCycle(wd: string, c: Cycle) returns (stop: Option<Status>)
      modifies this
      ensures trace == old(trace) + Iterate(wd, c).events && stop == Iterate(wd, c).stop
      ensures workingDirectory == old(workingDirectory)
    {
      trace := trace + [Turn(Work)];
      var response := c.response;
      trace := trace + [Read(TasksPath(wd))];
      if c.tasks.Error? {
        return Some(Exited(1, TasksUnreadable(c.tasks.message)));
      }
      trace := trace + [Ask(Completed(c.tasks.text, response))];
      var completed := Agent.Decide(c.completion);
      if completed.Panic? {
        return Some(Crashed(completed.reason));
      }
      if !completed.value {
        return None;
      }
      var pending := ArePendingTodos(c.todoDiff, c.todos);
      trace := trace + pending.events;
      if pending.answer.Panic? {
        return Some(Crashed(pending.answer.reason));
      }
      if pending.answer.value {
        trace := trace + [GitDiff];
        if c.gapDiff.Error? {
          return Some(Exited(1, DiffFailed(c.gapDiff.message)));
        }
        trace := trace + [Turn(Gap(c.gapDiff.text))];
        return None;
      }
      trace := trace + [Turn(Wiki)];
      trace := trace + [Erase(InputPath(wd))];
      trace := trace + [Erase(TasksPath(wd))];
      return Some(Finished);
    }
  }
}
