/**
 * The executor: runs a command tree. A built-in runs in the shell process; any other
 * simple command is located (as a path when its name has a '/', otherwise through
 * $PATH) and run by a forked child that applies the redirections and calls execve. A
 * pipeline forks one child per side, each working on its own copy of the store and of
 * the process state, and reports the right side's status.
 */
module Executor {
  import opened Wrappers
  import opened Libft
  import opened Os
  import opened EnvStore
  import opened Parser
  import opened Exit
  import opened Builtins

  /** print_minishell_error. */
  function ErrorLine(name: string, msg: string): string
  {
    "minishell: " + name + ": " + msg + "\n"
  }

  // ---------------------------------------------------------------------------
  // Locating the program.
  // ---------------------------------------------------------------------------

  datatype Precheck = Proceed | Refuse(status: int, message: string)

  /**
   * precheck_and_map_path, for a name holding '/': a missing file is 127, a directory or
   * a file without execute permission is 126; any other stat failure is left to execve.
   */
  function PrecheckPath(path: string, world: World): (r: Precheck)
    ensures r.Refuse? ==> r.status == 126 || r.status == 127
    ensures r == Refuse(127, "No such file or directory") <==> world.stat(path) == StatFailed(ENOENT)
    ensures r == Refuse(126, "Is a directory") <==> world.stat(path).Found? && world.stat(path).isDir
    ensures r == Refuse(126, "Permission denied") <==> IsDenied(path, world)
    ensures r == Proceed <==> IsHit(path, world) || (world.stat(path).StatFailed? && world.stat(path).err != ENOENT)
  {
    match world.stat(path)
    case StatFailed(e) => if e == ENOENT then Refuse(127, "No such file or directory") else Proceed
    case Found(isDir, executable) =>
      if isDir then Refuse(126, "Is a directory")
      else if !executable then Refuse(126, "Permission denied")
      else Proceed
  }

  /** map_exec_errno: the status and message a child reports when execve fails. */
  function MapExecErrno(err: Errno, hadSlash: bool, world: World): (int, string)
  {
    match err
    case EACCES => (126, "Permission denied")
    case EISDIR => (126, "Is a directory")
    case ENOENT => (127, if hadSlash then "No such file or directory" else "command not found")
    case OtherErrno(_) => (126, world.describe(err))
  }

  datatype Search = FoundAt(path: string) | NotFound(status: int)

  /** The path tried for one $PATH field; an empty field would stand for the current directory. */
  function Candidate(dir: string, cmd: string): string
  {
    (if |dir| > 0 then dir else ".") + "/" + cmd
  }

  /** A regular file (not a directory) that may be executed. */
  predicate IsHit(path: string, world: World)
  {
    world.stat(path).Found? && !world.stat(path).isDir && world.stat(path).executable
  }

  /** A file that exists and is not a directory but may not be executed. */
  predicate IsDenied(path: string, world: World)
  {
    world.stat(path).Found? && !world.stat(path).isDir && !world.stat(path).executable
  }

  /** The search loop from field `i`, `seen` recording a file found without execute permission. */
  function SearchFrom(dirs: seq<string>, i: nat, cmd: string, world: World, seen: bool): (r: Search)
    requires i <= |dirs|
    ensures r.NotFound? ==> r.status == 126 || r.status == 127
    decreases |dirs| - i
  {
    if i == |dirs| then NotFound(if seen then 126 else 127)
    else
      var full := Candidate(dirs[i], cmd);
      if IsHit(full, world) then FoundAt(full)
      else SearchFrom(dirs, i + 1, cmd, world, seen || IsDenied(full, world))
  }

  /** search_path_for_cmd: PATH unset or empty is 127; otherwise its ':'-separated fields are tried in order. */
  function SearchPath(cmd: string, entries: seq<Entry>, world: World): (r: Search)
    ensures r.NotFound? ==> r.status == 126 || r.status == 127
  {
    match Lookup(entries, "PATH")
    case None => NotFound(127)
    case Some(p) => if p == "" then NotFound(127) else SearchFrom(Split(p, ':'), 0, cmd, world, false)
  }

  /** The C loop of search_path_for_cmd. */
  method SearchPathForCmd(cmd: string, env: Env, world: World) returns (r: Search)
    ensures r == SearchPath(cmd, env.entries, world)
  {
    var pathEnv := env.Get("PATH");
    if pathEnv.None? || pathEnv.value == "" {
      return NotFound(127);
    }
    var paths := Split(pathEnv.value, ':');
    var seen := false;
    var i := 0;
    while i < |paths|
      invariant i <= |paths|
      invariant SearchFrom(paths, i, cmd, world, seen) == SearchPath(cmd, env.entries, world)
    {
      var dir := if |paths[i]| > 0 then paths[i] else ".";
      var full := dir + "/" + cmd;
      var st := world.stat(full);
      if st.Found? && !st.isDir {
        if st.executable {
          return FoundAt(full);
        }
        seen := true;
      }
      i := i + 1;
    }
    return NotFound(if seen then 126 else 127);
  }

  datatype Located = Exec(path: string) | Stop(status: int, line: string)

  /** What execute_simple_command does before forking: the program to run, or the status and message it stops with. */
  function Locate(name: string, entries: seq<Entry>, world: World): (r: Located)
    ensures r.Stop? ==> r.status == 126 || r.status == 127
  {
    if '/' in name then
      match PrecheckPath(name, world)
      case Refuse(st, msg) => Stop(st, ErrorLine(name, msg))
      case Proceed => Exec(name)
    else
      match SearchPath(name, entries, world)
      case FoundAt(p) => Exec(p)
      case NotFound(st) =>
        if st == 126 then Stop(126, ErrorLine(name, "Permission denied"))
        else Stop(127, ErrorLine(name, "command not found"))
  }

  // ---------------------------------------------------------------------------
  // The environment handed to execve.
  // ---------------------------------------------------------------------------

  /** env_to_array: one KEY=VALUE string per entry, in store order. */
  function EnvArray(entries: seq<Entry>): (envp: seq<string>)
    ensures |envp| == |entries|
    ensures forall k :: 0 <= k < |entries| ==> envp[k] == entries[k].0 + "=" + entries[k].1
  {
    seq(|entries|, k requires 0 <= k < |entries| => entries[k].0 + "=" + entries[k].1)
  }

  /** The C loop of env_to_array. */
  method EnvToArray(env: Env) returns (envp: seq<string>)
    ensures envp == EnvArray(env.entries)
  {
    envp := [];
    var i := 0;
    while i < |env.entries|
      invariant i <= |env.entries|
      invariant envp == EnvArray(env.entries[..i])
    {
      envp := envp + [env.entries[i].0 + "=" + env.entries[i].1];
      i := i + 1;
    }
    assert env.entries[..i] == env.entries;
  }

  // ---------------------------------------------------------------------------
  // Statuses.
  // ---------------------------------------------------------------------------

  /** WIFEXITED gives the low byte of the exit code, WIFSIGNALED 128 plus the signal, anything else 1. */
  function StatusOf(w: WaitStatus): (s: int)
    ensures s >= 0
    ensures w.Exited? ==> 0 <= s < 256 && (w.code - s) % 256 == 0
    ensures w.Signaled? ==> s == 128 + w.signal
    ensures w.Stopped? ==> s == 1
  {
    match w
    case Exited(c) => ExitCode(c)
    case Signaled(sig) => 128 + sig
    case Stopped => 1
  }

  /** What a parent sees of a forked child that ran execute_command and then exit with its result. */
  function ChildStatus(o: ExitOutcome): (s: int)
    ensures 0 <= s < 256
    ensures o.Terminate? ==> (o.code - s) % 256 == 0
    ensures o.Return? ==> (o.status - s) % 256 == 0
    ensures o.Return? && 0 <= o.status < 256 ==> s == o.status
  {
    match o
    case Terminate(code) => ExitCode(code)
    case Return(status) => ExitCode(status)
  }

  // ---------------------------------------------------------------------------
  // Running commands.
  // ---------------------------------------------------------------------------

  /** The forked child of an external command: redirect (here-documents included), then execve. */
  function ExternalChild(c: SimpleCmd, path: string, envp: seq<string>, fds: Fds, world: World): (r: (int, seq<string>))
    requires |c.args| >= 1
    ensures r.0 >= 0
  {
    match RedirectAll(fds, c.redirs, world, true)
    case RedirFailed(m) => (1, [m])
    case Redirected(_) =>
      match world.exec(path, c.args, envp)
      case Ran(w) => (StatusOf(w), [])
      case ExecFails(e) =>
        var m := MapExecErrno(e, '/' in c.args[0], world);
        (m.0, [ErrorLine(c.args[0], m.1)])
  }

  /** execute_simple_command. */
  function RunSimple(c: SimpleCmd, entries: seq<Entry>, cwd: Option<string>, fds: Fds, world: World): Effect
  {
    if |c.args| == 0 || c.args[0] == "" then Effect(Return(0), entries, cwd, [], [])
    else if IsBuiltin(c.args[0]) then RunBuiltin(c, entries, cwd, fds, world)
    else
      match Locate(c.args[0], entries, world)
      case Stop(st, line) => Effect(Return(st), entries, cwd, [], [line])
      case Exec(path) =>
        if world.forkFails.Some? then Effect(Return(1), entries, cwd, [], [Perror(world, "fork", world.forkFails.value)])
        else
          var child := ExternalChild(c, path, EnvArray(entries), fds, world);
          Effect(Return(child.0), entries, cwd, [], child.1)
  }

  /**
   * execute_command: a simple command, or a pipeline whose right side's child status is the
   * result. Both children write their diagnostics to the shell's standard error, the left
   * one's first.
   */
  function Run(cmd: Command, entries: seq<Entry>, cwd: Option<string>, fds: Fds, world: World): Effect
    decreases cmd
  {
    match cmd
    case Simple(c) => RunSimple(c, entries, cwd, fds, world)
    case PipeCmd(left, right) =>
      if world.pipeFails.Some? then Effect(Return(1), entries, cwd, [], [Perror(world, "pipe", world.pipeFails.value)])
      else if world.forkFails.Some? then Effect(Return(1), entries, cwd, [], [Perror(world, "fork", world.forkFails.value)])
      else
        var l := Run(left, entries, cwd, Fds(fds.input, PipeWrite), world);
        var r := Run(right, entries, cwd, Fds(PipeRead, fds.output), world);
        Effect(Return(ChildStatus(r.outcome)), entries, cwd, [], l.err + r.err)
  }

  /** The lookup part of execute_simple_command: precheck of a path, or the PATH search. */
  method FindProgram(name: string, env: Env, world: World) returns (loc: Located)
    ensures loc == Locate(name, env.entries, world)
  {
    if IndexOf(name, '/').Some? {
      var pre := PrecheckPath(name, world);
      if pre.Refuse? {
        return Stop(pre.status, ErrorLine(name, pre.message));
      }
      return Exec(name);
    }
    var res := SearchPathForCmd(name, env, world);
    if res.FoundAt? {
      return Exec(res.path);
    }
    if res.status == 126 {
      return Stop(126, ErrorLine(name, "Permission denied"));
    }
    return Stop(127, ErrorLine(name, "command not found"));
  }

  /** The forked child of execute_simple_command: its status and what it writes to standard error. */
  method RunChild(c: SimpleCmd, path: string, envp: seq<string>, parent: Process, world: World)
    returns (status: int, errs: seq<string>)
    requires |c.args| >= 1
    ensures (status, errs) == ExternalChild(c, path, envp, parent.fds, world)
  {
    var fds := parent.fds;
    var child := new Process.Fork(parent, fds);
    var ok := Redirect(c.redirs, child, world, true);
    var res := RedirectAll(fds, c.redirs, world, true);
    if !ok {
      assert res.RedirFailed? && child.err == [res.message];
      return 1, child.err;
    }
    assert res.Redirected? && child.err == [];
    var outcome := world.exec(path, c.args, envp);
    if outcome.Ran? {
      return StatusOf(outcome.status), child.err;
    }
    var hadSlash := IndexOf(c.args[0], '/').Some?;
    assert hadSlash <==> '/' in c.args[0];
    var m := MapExecErrno(outcome.err, hadSlash, world);
    child.Error(ErrorLine(c.args[0], m.1));
    assert child.err == [ErrorLine(c.args[0], m.1)];
    assert m == MapExecErrno(outcome.err, '/' in c.args[0], world);
    assert ExternalChild(c, path, envp, fds, world) == (m.0, [ErrorLine(c.args[0], m.1)]);
    return m.0, child.err;
  }

  /** execute_simple_command, step by step. */
  method ExecuteSimple(c: SimpleCmd, env: Env, proc: Process, world: World) returns (r: ExitOutcome)
    modifies env, proc
    ensures var eff := RunSimple(c, old(env.entries), old(proc.cwd), old(proc.fds), world);
            r == eff.outcome && env.entries == eff.entries && proc.cwd == eff.cwd &&
            proc.out == old(proc.out) + eff.out && proc.err == old(proc.err) + eff.err
    ensures r.Return? ==> proc.fds == old(proc.fds)
  {
    if |c.args| == 0 || c.args[0] == "" {
      return Return(0);
    }
    if IsBuiltin(c.args[0]) {
      r := ExecuteBuiltin(c, env, proc, world);
      return;
    }
    var loc := FindProgram(c.args[0], env, world);
    if loc.Stop? {
      proc.Error(loc.line);
      return Return(loc.status);
    }
    var envp := EnvToArray(env);
    if world.forkFails.Some? {
      proc.Error(Perror(world, "fork", world.forkFails.value));
      return Return(1);
    }
    var status, errs := RunChild(c, loc.path, envp, proc, world);
    // The child's standard error is the shell's own.
    proc.err := proc.err + errs;
    return Return(status);
  }

  /**
   * One side of a pipeline: a forked child running on its own copy of the store, with the
   * given descriptors. Only its outcome and its standard error come back to the shell.
   */
  method RunSide(cmd: Command, env: Env, proc: Process, fds: Fds, world: World)
    returns (outcome: ExitOutcome, errs: seq<string>)
    ensures outcome == Run(cmd, env.entries, proc.cwd, fds, world).outcome
    ensures errs == Run(cmd, env.entries, proc.cwd, fds, world).err
    decreases cmd, 1
  {
    var childEnv := new Env.Copy(env);
    var child := new Process.Fork(proc, fds);
    outcome := ExecuteCommand(cmd, childEnv, child, world);
    errs := child.err;
  }

  /** execute_command and execute_pipe_command. */
  method ExecuteCommand(cmd: Command, env: Env, proc: Process, world: World) returns (r: ExitOutcome)
    modifies env, proc
    ensures var eff := Run(cmd, old(env.entries), old(proc.cwd), old(proc.fds), world);
            r == eff.outcome && env.entries == eff.entries && proc.cwd == eff.cwd &&
            proc.out == old(proc.out) + eff.out && proc.err == old(proc.err) + eff.err
    ensures r.Return? ==> proc.fds == old(proc.fds)
    decreases cmd, 0
  {
    if cmd.Simple? {
      r := ExecuteSimple(cmd.cmd, env, proc, world);
      return;
    }
    if world.pipeFails.Some? {
      proc.Error(Perror(world, "pipe", world.pipeFails.value));
      return Return(1);
    }
    if world.forkFails.Some? {
      proc.Error(Perror(world, "fork", world.forkFails.value));
      return Return(1);
    }
    var leftOutcome, leftErr := RunSide(cmd.left, env, proc, Fds(proc.fds.input, PipeWrite), world);
    var rightOutcome, rightErr := RunSide(cmd.right, env, proc, Fds(PipeRead, proc.fds.output), world);
    // Both children inherit the shell's standard error.
    proc.err := proc.err + leftErr + rightErr;
    return Return(ChildStatus(rightOutcome));
  }

  // ---------------------------------------------------------------------------
  // What the executor promises.
  // ---------------------------------------------------------------------------

  /** A failed execve is 127 exactly for ENOENT and 126 otherwise. */
  lemma ExecErrnoStatus(err: Errno, hadSlash: bool, world: World)
    ensures var st := MapExecErrno(err, hadSlash, world).0;
            (st == 127 <==> err == ENOENT) && (st == 126 <==> err != ENOENT)
  {
  }

  /**
   * The PATH search finds the first field whose candidate is an executable non-directory;
   * with none it reports 126 when some candidate exists without execute permission and
   * 127 otherwise.
   */
  lemma {:induction false} SearchFromMeaning(dirs: seq<string>, i: nat, cmd: string, world: World, seen: bool)
    requires i <= |dirs|
    ensures var r := SearchFrom(dirs, i, cmd, world, seen);
            (r.FoundAt? <==> exists k :: i <= k < |dirs| && IsHit(Candidate(dirs[k], cmd), world)) &&
            (r.FoundAt? ==> exists k :: i <= k < |dirs| && r.path == Candidate(dirs[k], cmd) &&
                              IsHit(r.path, world) &&
                              forall j :: i <= j < k ==> !IsHit(Candidate(dirs[j], cmd), world)) &&
            (r.NotFound? ==> (r.status == 126 <==>
                               seen || exists k :: i <= k < |dirs| && IsDenied(Candidate(dirs[k], cmd), world)))
    decreases |dirs| - i
  {
    if i < |dirs| {
      var full := Candidate(dirs[i], cmd);
      if !IsHit(full, world) {
        SearchFromMeaning(dirs, i + 1, cmd, world, seen || IsDenied(full, world));
      }
    }
  }

  /** With PATH unset or empty, a name without '/' that is not a built-in is "command not found", 127. */
  lemma CommandNotFoundWithoutPath(name: string, rest: seq<string>, redirs: seq<Redir>,
                                   entries: seq<Entry>, cwd: Option<string>, fds: Fds, world: World)
    requires name != "" && '/' !in name && !IsBuiltin(name)
    requires Lookup(entries, "PATH").None? || Lookup(entries, "PATH") == Some("")
    ensures Run(Simple(SimpleCmd([name] + rest, redirs)), entries, cwd, fds, world)
            == Effect(Return(127), entries, cwd, [], [ErrorLine(name, "command not found")])
  {
    var c := SimpleCmd([name] + rest, redirs);
    assert c.args[0] == name;
    assert SearchPath(name, entries, world) == NotFound(127);
  }

  /** A command that is not a built-in leaves the store and the directory alone and never ends the shell. */
  lemma ExternalKeepsShell(c: SimpleCmd, entries: seq<Entry>, cwd: Option<string>, fds: Fds, world: World)
    requires |c.args| >= 1 && !IsBuiltin(c.args[0])
    ensures var eff := RunSimple(c, entries, cwd, fds, world);
            eff.outcome.Return? && eff.outcome.status >= 0 && eff.entries == entries && eff.cwd == cwd && eff.out == []
  {
  }

  /**
   * A pipeline runs both sides in children: whatever they are (cd, export, unset, exit),
   * the shell's store, directory and output stay as they were, the shell goes on, and the
   * status is a byte.
   */
  lemma PipelineKeepsShell(left: Command, right: Command, entries: seq<Entry>, cwd: Option<string>,
                           fds: Fds, world: World)
    ensures var eff := Run(PipeCmd(left, right), entries, cwd, fds, world);
            eff.outcome.Return? && 0 <= eff.outcome.status < 256 &&
            eff.entries == entries && eff.cwd == cwd && eff.out == []
  {
  }

  /**
   * A name holding '/' that is not a built-in: a missing file is 127, a directory or a file
   * without execute permission 126, each with its message; any other stat answer goes on to
   * execve with the name itself.
   */
  lemma PathCommandMeaning(c: SimpleCmd, entries: seq<Entry>, cwd: Option<string>, fds: Fds, world: World)
    requires |c.args| >= 1 && c.args[0] != "" && '/' in c.args[0] && !IsBuiltin(c.args[0])
    ensures var name := c.args[0];
            var eff := RunSimple(c, entries, cwd, fds, world);
            (world.stat(name) == StatFailed(ENOENT) ==>
               eff == Effect(Return(127), entries, cwd, [], [ErrorLine(name, "No such file or directory")])) &&
            (world.stat(name).Found? && world.stat(name).isDir ==>
               eff == Effect(Return(126), entries, cwd, [], [ErrorLine(name, "Is a directory")])) &&
            (IsDenied(name, world) ==>
               eff == Effect(Return(126), entries, cwd, [], [ErrorLine(name, "Permission denied")])) &&
            ((IsHit(name, world) || (world.stat(name).StatFailed? && world.stat(name).err != ENOENT)) &&
             world.forkFails.None? ==>
               var child := ExternalChild(c, name, EnvArray(entries), fds, world);
               eff == Effect(Return(child.0), entries, cwd, [], child.1))
  {
  }

  /**
   * A program that was found and whose redirections succeed reports its wait status: the
   * low byte of its exit code, 128 plus the signal that killed it, or 1.
   */
  lemma ProgramRanStatus(c: SimpleCmd, path: string, w: WaitStatus, entries: seq<Entry>,
                         cwd: Option<string>, fds: Fds, world: World)
    requires |c.args| >= 1 && c.args[0] != "" && !IsBuiltin(c.args[0])
    requires Locate(c.args[0], entries, world) == Exec(path) && world.forkFails.None?
    requires RedirectAll(fds, c.redirs, world, true).Redirected?
    requires world.exec(path, c.args, EnvArray(entries)) == Ran(w)
    ensures var eff := RunSimple(c, entries, cwd, fds, world);
            eff.entries == entries && eff.cwd == cwd && eff.out == [] && eff.err == [] &&
            (w.Exited? ==> eff.outcome.Return? && 0 <= eff.outcome.status < 256 &&
                           (w.code - eff.outcome.status) % 256 == 0) &&
            (w.Signaled? ==> eff.outcome == Return(128 + w.signal)) &&
            (w.Stopped? ==> eff.outcome == Return(1))
  {
  }

  /**
   * With pipe and fork working, a pipeline reports its right side's status, as a byte,
   * whatever its left side did; the diagnostics of both sides reach standard error.
   */
  lemma PipelineReportsRight(left: Command, right: Command, entries: seq<Entry>, cwd: Option<string>,
                             fds: Fds, world: World)
    requires world.pipeFails.None? && world.forkFails.None?
    ensures var eff := Run(PipeCmd(left, right), entries, cwd, fds, world);
            var l := Run(left, entries, cwd, Fds(fds.input, PipeWrite), world);
            var r := Run(right, entries, cwd, Fds(PipeRead, fds.output), world);
            eff.err == l.err + r.err &&
            (r.outcome.Return? && 0 <= r.outcome.status < 256 ==> eff.outcome == r.outcome) &&
            (r.outcome.Terminate? ==> eff.outcome == Return(ExitCode(r.outcome.code)))
  {
  }

  /** `… | exit N` reports N's low byte and does not end the shell. */
  lemma ExitInPipeline(left: Command, n: int, entries: seq<Entry>, cwd: Option<string>, fds: Fds, world: World)
    requires world.pipeFails.None? && world.forkFails.None?
    ensures Run(PipeCmd(left, Simple(SimpleCmd(["exit", Itoa(n)], []))), entries, cwd, fds, world).outcome
            == Return(ExitCode(n))
  {
    ExitRunsExit(n, entries, cwd, Fds(PipeRead, fds.output), world);
  }

  /** `exit n` run as a simple command ends its process with n. */
  lemma ExitRunsExit(n: int, entries: seq<Entry>, cwd: Option<string>, fds: Fds, world: World)
    ensures RunSimple(SimpleCmd(["exit", Itoa(n)], []), entries, cwd, fds, world).outcome == Terminate(n)
  {
    BuiltinOfByName("exit");
    ExitOfItoa(n);
  }

  /** The environment handed to execve reads back, through init_env, as the store itself. */
  lemma {:induction false} EnvArrayRoundTrip(entries: seq<Entry>)
    requires forall k :: 0 <= k < |entries| ==> '=' !in entries[k].0
    ensures InitEntries(EnvArray(entries)) == entries
    decreases |entries|
  {
    if |entries| > 0 {
      var n := |entries|;
      var init := entries[..n - 1];
      assert EnvArray(entries)[..n - 1] == EnvArray(init);
      EnvArrayRoundTrip(init);
      SplitAtEqJoin(entries[n - 1].0, entries[n - 1].1);
      assert init + [entries[n - 1]] == entries;
    }
  }
}
