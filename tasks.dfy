/** Pre-run and post-run scripts of the srsLTE eNodeB and UE: a task string names a script,
    optionally followed by ` args=` and a comma-separated argument list. The same code appears
    in both object classes. */
module Tasks {
  import opened Text
  import opened Base

  /** What a task string turns into: the script's base name (also the name of its run
      directory and of its process) and the argument vector handed to the process. */
  datatype TaskCommand = TaskCommand(name: string, argv: seq<string>)

  /** The script part of a task that has an `args=` marker at `i`: everything before the one
      separator character in front of the marker. Python reads `task[:-1]` when the marker
      opens the string, so then the last character is dropped instead. */
  function ScriptPart(task: string, i: nat): (r: string)
    requires i + 5 <= |task|
    ensures i > 0 ==> r == task[..i - 1]
    ensures i == 0 ==> r == task[..|task| - 1]
  {
    if i == 0 then task[..|task| - 1] else task[..i - 1]
  }

  /** Splits a task string into the command that runs it. */
  function ParseTask(task: string): (r: TaskCommand)
    ensures |r.argv| >= 1 && '/' !in r.name && EndsWith(r.argv[0], r.name)
    ensures !Contains(task, "args=") ==> r.argv == [task]
    ensures Contains(task, "args=") ==> |r.argv| >= 2 && forall k :: 1 <= k < |r.argv| ==> ',' !in r.argv[k]
  {
    var i := Find(task, "args=");
    if i == -1 then
      TaskCommand(Basename(task), [task])
    else
      SplitAtMarker(task, i)
  }

  /** The command of a task whose `args=` marker is at `i`: the script part, then the
      comma-separated arguments after the marker. */
  function SplitAtMarker(task: string, i: nat): TaskCommand
    requires i + 5 <= |task|
  {
    var script := ScriptPart(task, i);
    TaskCommand(Basename(script), [script] + Split(task[i + 5..], ','))
  }

  /** In a script path followed by ` args=`, the first marker is the appended one. */
  lemma FindAppendedMarker(script: string, rest: string)
    requires !Contains(script, "args=")
    ensures Find(script + " args=" + rest, "args=") == |script| + 1
  {
    var task := script + " args=" + rest;
    var m := |script| + 1;
    assert task[m..m + 5] == "args=";
    assert OccursAt(task, "args=", m);
    forall j | j < m
      ensures !OccursAt(task, "args=", j)
    {
      if 0 <= j && j + 5 <= |script| {
        assert task[j..j + 5] == script[j..j + 5];
        if OccursAt(task, "args=", j) {
          ContainsAt(script, "args=", j);
        }
      } else if 0 <= j && j + 5 <= |task| {
        assert task[j..j + 5][|script| - j] == ' ';
      }
    }
  }

  /** A script path followed by ` args=` and its arguments joined with commas parses back into
      that path and those arguments. */
  lemma ParseTaskWithArgs(script: string, args: seq<string>)
    requires !Contains(script, "args=")
    requires |args| >= 1 && forall k :: 0 <= k < |args| ==> ',' !in args[k]
    ensures ParseTask(script + " args=" + Join(args, ',')) == TaskCommand(Basename(script), [script] + args)
  {
    var task := script + " args=" + Join(args, ',');
    var m := |script| + 1;
    FindAppendedMarker(script, Join(args, ','));
    ParseTaskFound(task, m);
    assert ScriptPart(task, m) == script by {
      assert task[..m - 1] == script;
    }
    assert task[m + 5..] == Join(args, ',');
    SplitJoin(args, ',');
  }

  /** A task whose first marker is at `i` splits there. */
  lemma ParseTaskFound(task: string, i: nat)
    requires Find(task, "args=") == i
    ensures i + 5 <= |task|
    ensures ParseTask(task) == SplitAtMarker(task, i)
  {
  }

  /** A task without `args=` runs the whole string as the script, named after its last path
      component. */
  lemma ParseTaskPlain(task: string)
    requires !Contains(task, "args=")
    ensures ParseTask(task) == TaskCommand(Basename(task), [task])
    ensures '/' !in task ==> ParseTask(task).name == task
  {
  }

  /** A task string that opens with `args=` loses its last character from the script path. */
  lemma ParseTaskLeadingArgs(rest: string)
    ensures ParseTask("args=" + rest).argv[0] == ("args=" + rest)[..|rest| + 4]
  {
    var task := "args=" + rest;
    assert OccursAt(task, "args=", 0) by { assert task[0..5] == "args="; }
  }

  /** The message raised when a script exits with a nonzero code. */
  const TaskFailure := "Error executing the pre run scripts. Aborting"

  /** `run_task`: runs one script synchronously. The environment decides the exit code of
      each argument vector. A nonzero exit raises; success returns True. */
  function RunTask(task: string, exitOf: seq<string> -> int): (r: Result<bool>)
    ensures r.Ok? <==> exitOf(ParseTask(task).argv) == 0
    ensures r.Ok? ==> r.value
  {
    if exitOf(ParseTask(task).argv) != 0 then Err(TaskFailure) else Ok(true)
  }

  /** Whether a task's script exits with code zero. */
  function Passes(exitOf: seq<string> -> int): string -> bool {
    task => exitOf(ParseTask(task).argv) == 0
  }

  /** The commands for a list of task strings. */
  function Commands(tasks: seq<string>): (cmds: seq<TaskCommand>)
    ensures |cmds| == |tasks| && forall k :: 0 <= k < |tasks| ==> cmds[k] == ParseTask(tasks[k])
  {
    seq(|tasks|, k requires 0 <= k < |tasks| => ParseTask(tasks[k]))
  }

  lemma CommandsPrefix(tasks: seq<string>, n: nat)
    requires n <= |tasks|
    ensures Commands(tasks[..n]) == Commands(tasks)[..n]
  {
  }

  /** `prerun_tasks` / `postrun_tasks`: runs the configured scripts in order. A missing or empty
      list succeeds without running anything; the first failing script raises and the rest
      are skipped, so the call never returns False. */
  method RunTasks(tasklist: Option<seq<string>>, exitOf: seq<string> -> int)
    returns (ran: seq<TaskCommand>, r: Result<bool>)
    ensures tasklist.None? ==> ran == [] && r == Ok(true)
    ensures tasklist.Some? ==> ran == Commands(Attempted(tasklist.value, Passes(exitOf)))
    ensures r.Ok? ==> r.value
    ensures r.Ok? <==> tasklist.None? || forall k :: 0 <= k < |tasklist.value| ==> Passes(exitOf)(tasklist.value[k])
  {
    ran := [];
    if tasklist.None? || |tasklist.value| == 0 {
      return [], Ok(true);
    }
    var tasks := tasklist.value;
    var i := 0;
    while i < |tasks|
      invariant 0 <= i <= |tasks|
      invariant ran == Commands(tasks)[..i]
      invariant forall k :: 0 <= k < i ==> Passes(exitOf)(tasks[k])
    {
      ran := ran + [ParseTask(tasks[i])];
      assert ran == Commands(tasks)[..i + 1];
      var res := RunTask(tasks[i], exitOf);
      if res.Err? {
        FirstFailureAt(tasks, Passes(exitOf), i);
        CommandsPrefix(tasks, i + 1);
        return ran, res;
      }
      i := i + 1;
    }
    FirstFailureAt(tasks, Passes(exitOf), |tasks|);
    CommandsPrefix(tasks, |tasks|);
    r := Ok(true);
  }
}
