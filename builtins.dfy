/**
 * Built-in commands run inside the shell process: recognising their names, binding
 * standard input and output for their redirections (and restoring them afterwards),
 * and dispatching to echo, cd, pwd, export, unset, env and exit.
 *
 * The redirection semantics (RedirectAll) is shared with the executor, whose forked
 * children also process here-documents.
 */
module Builtins {
  import opened Wrappers
  import opened Libft
  import opened Os
  import opened EnvStore
  import opened Parser
  import opened Echo
  import opened Exit
  import opened Export
  import opened Unset
  import opened Cd

  datatype Builtin = EchoCmd | CdCmd | PwdCmd | ExportCmd | UnsetCmd | EnvCmd | ExitCmd

  function NameOf(b: Builtin): string
  {
    match b
    case EchoCmd => "echo"
    case CdCmd => "cd"
    case PwdCmd => "pwd"
    case ExportCmd => "export"
    case UnsetCmd => "unset"
    case EnvCmd => "env"
    case ExitCmd => "exit"
  }

  /**
   * is_builtin and the dispatch of execute_builtin: ft_strncmp against each name over
   * its length plus the terminator, in this order.
   */
  function BuiltinOf(name: string): Option<Builtin>
  {
    if Strncmp(name, "echo", 5) == 0 then Some(EchoCmd)
    else if Strncmp(name, "cd", 3) == 0 then Some(CdCmd)
    else if Strncmp(name, "pwd", 4) == 0 then Some(PwdCmd)
    else if Strncmp(name, "export", 7) == 0 then Some(ExportCmd)
    else if Strncmp(name, "unset", 6) == 0 then Some(UnsetCmd)
    else if Strncmp(name, "env", 4) == 0 then Some(EnvCmd)
    else if Strncmp(name, "exit", 5) == 0 then Some(ExitCmd)
    else None
  }

  predicate IsBuiltin(name: string)
  {
    BuiltinOf(name).Some?
  }

  // ---------------------------------------------------------------------------
  // Redirections.
  // ---------------------------------------------------------------------------

  datatype RedirResult = Redirected(fds: Fds) | RedirFailed(message: string)

  /**
   * One redirection: open the file (or, when `heredocs` is set, make the here-document
   * pipe) and bind the descriptor; on failure, the perror line. Built-ins pass
   * `heredocs` = false and skip here-documents.
   */
  function RedirectOne(fds: Fds, r: Redir, world: World, heredocs: bool): RedirResult
  {
    match r.kind
    case RedirOut =>
      (match world.openWrite(r.file, false)
       case OpenFailed(e) => RedirFailed(Perror(world, r.file, e))
       case Opened => Redirected(fds.(output := WriteFile(r.file, false))))
    case RedirAppend =>
      (match world.openWrite(r.file, true)
       case OpenFailed(e) => RedirFailed(Perror(world, r.file, e))
       case Opened => Redirected(fds.(output := WriteFile(r.file, true))))
    case RedirIn =>
      (match world.openRead(r.file)
       case OpenFailed(e) => RedirFailed(Perror(world, r.file, e))
       case Opened => Redirected(fds.(input := ReadFile(r.file))))
    case RedirHeredoc =>
      if !heredocs then Redirected(fds)
      else if world.pipeFails.Some? then RedirFailed(Perror(world, "pipe", world.pipeFails.value))
      else if world.forkFails.Some? then RedirFailed(Perror(world, "fork", world.forkFails.value))
      else Redirected(fds.(input := HeredocPipe(r.file)))
  }

  /** The redirections applied in order, stopping at the first that fails. */
  function RedirectAll(fds: Fds, redirs: seq<Redir>, world: World, heredocs: bool): RedirResult
    decreases |redirs|
  {
    if |redirs| == 0 then Redirected(fds)
    else
      match RedirectAll(fds, redirs[..|redirs| - 1], world, heredocs)
      case RedirFailed(m) => RedirFailed(m)
      case Redirected(f) => RedirectOne(f, redirs[|redirs| - 1], world, heredocs)
  }

  /** save_and_redirect / handle_redirections: the loop over the redirection list. */
  method Redirect(redirs: seq<Redir>, proc: Process, world: World, heredocs: bool) returns (ok: bool)
    modifies proc
    ensures var res := RedirectAll(old(proc.fds), redirs, world, heredocs);
            (ok <==> res.Redirected?) &&
            (ok ==> proc.fds == res.fds && proc.err == old(proc.err)) &&
            (!ok ==> proc.err == old(proc.err) + [res.message])
    ensures proc.out == old(proc.out) && proc.cwd == old(proc.cwd)
  {
    var i := 0;
    while i < |redirs|
      invariant i <= |redirs|
      invariant RedirectAll(old(proc.fds), redirs[..i], world, heredocs) == Redirected(proc.fds)
      invariant proc.out == old(proc.out) && proc.cwd == old(proc.cwd) && proc.err == old(proc.err)
    {
      assert redirs[..i + 1][..i] == redirs[..i];
      var one := RedirectOne(proc.fds, redirs[i], world, heredocs);
      match one
      case RedirFailed(m) =>
        RedirectAllFailedStays(old(proc.fds), redirs[..i + 1], redirs[i + 1..], world, heredocs);
        assert redirs[..i + 1] + redirs[i + 1..] == redirs;
        proc.Error(m);
        return false;
      case Redirected(f) =>
        proc.fds := f;
      i := i + 1;
    }
    assert redirs[..i] == redirs;
    return true;
  }

  /** Once a redirection has failed, the later ones are never attempted. */
  lemma {:induction false} RedirectAllFailedStays(fds: Fds, xs: seq<Redir>, ys: seq<Redir>, world: World, heredocs: bool)
    requires RedirectAll(fds, xs, world, heredocs).RedirFailed?
    ensures RedirectAll(fds, xs + ys, world, heredocs) == RedirectAll(fds, xs, world, heredocs)
    decreases |ys|
  {
    if |ys| == 0 {
      assert xs + ys == xs;
    } else {
      assert (xs + ys)[..|xs + ys| - 1] == xs + ys[..|ys| - 1];
      RedirectAllFailedStays(fds, xs, ys[..|ys| - 1], world, heredocs);
    }
  }

  // ---------------------------------------------------------------------------
  // The built-ins as one step on the shell's state.
  // ---------------------------------------------------------------------------

  /** What running a command does to the process: outcome, store, directory, and what it writes. */
  datatype Effect = Effect(outcome: ExitOutcome, entries: seq<Entry>, cwd: Option<string>,
                           out: seq<(Stream, string)>, err: seq<string>)

  /** builtin_env: one KEY=VALUE line per entry. */
  function EnvLines(entries: seq<Entry>): (lines: seq<string>)
    ensures |lines| == |entries|
    ensures forall k :: 0 <= k < |entries| ==> lines[k] == entries[k].0 + "=" + entries[k].1 + "\n"
  {
    seq(|entries|, k requires 0 <= k < |entries| => entries[k].0 + "=" + entries[k].1 + "\n")
  }

  /** The built-in `b` on `args`, writing its output to `stdout`. */
  function Dispatch(b: Option<Builtin>, args: seq<string>, entries: seq<Entry>, cwd: Option<string>,
                    stdout: Stream, world: World): Effect
    requires |args| >= 1
  {
    match b
    case None => Effect(Return(0), entries, cwd, [], [])
    case Some(EchoCmd) => Effect(Return(0), entries, cwd, [(stdout, EchoOutput(args))], [])
    case Some(CdCmd) =>
      var e := Cd.Cd(args, entries, cwd, world);
      Effect(Return(e.status), e.entries, e.cwd, Tagged(stdout, e.out), e.err)
    case Some(PwdCmd) =>
      (match cwd
       case None => Effect(Return(1), entries, cwd, [], [Perror(world, "pwd", world.cwdErr)])
       case Some(d) => Effect(Return(0), entries, cwd, [(stdout, d + "\n")], []))
    case Some(ExportCmd) =>
      if |args| == 1 then Effect(Return(0), entries, cwd, Tagged(stdout, Declarations(entries)), [])
      else Effect(Return(ExportStatus(args[1..])), ExportEntries(entries, args[1..]), cwd, [],
                  ExportErrors(args[1..]))
    case Some(UnsetCmd) => Effect(Return(0), UnsetEntries(entries, args[1..]), cwd, [], [])
    case Some(EnvCmd) => Effect(Return(0), entries, cwd, Tagged(stdout, EnvLines(entries)), [])
    case Some(ExitCmd) => Effect(ExitDecision(args), entries, cwd, [(stdout, "exit\n")], ExitErrors(args))
  }

  /** execute_builtin: redirect, run, restore. */
  function RunBuiltin(c: SimpleCmd, entries: seq<Entry>, cwd: Option<string>, fds: Fds, world: World): Effect
  {
    if |c.args| == 0 then Effect(Return(0), entries, cwd, [], [])
    else if |c.redirs| > 0 && RedirectAll(fds, c.redirs, world, false).RedirFailed? then
      Effect(Return(1), entries, cwd, [], [RedirectAll(fds, c.redirs, world, false).message])
    else
      var f := if |c.redirs| > 0 then RedirectAll(fds, c.redirs, world, false).fds else fds;
      Dispatch(BuiltinOf(c.args[0]), c.args, entries, cwd, f.output, world)
  }

  /** builtin_pwd. */
  method PwdBuiltin(proc: Process, world: World) returns (status: int)
    modifies proc
    ensures proc.cwd.None? ==> status == 1 && proc.out == old(proc.out) &&
                               proc.err == old(proc.err) + [Perror(world, "pwd", world.cwdErr)]
    ensures proc.cwd.Some? ==> status == 0 && proc.err == old(proc.err) &&
                               proc.out == old(proc.out) + [(proc.fds.output, proc.cwd.value + "\n")]
    ensures proc.cwd == old(proc.cwd) && proc.fds == old(proc.fds)
  {
    match proc.cwd
    case None =>
      proc.Error(Perror(world, "pwd", world.cwdErr));
      return 1;
    case Some(d) =>
      proc.Print(d + "\n");
      return 0;
  }

  /** builtin_env. */
  method EnvBuiltin(env: Env, proc: Process) returns (status: int)
    modifies proc
    ensures status == 0
    ensures proc.out == old(proc.out) + Tagged(proc.fds.output, EnvLines(env.entries))
    ensures proc.err == old(proc.err) && proc.cwd == old(proc.cwd) && proc.fds == old(proc.fds)
  {
    var k := 0;
    ghost var lines := EnvLines(env.entries);
    while k < |env.entries|
      invariant k <= |env.entries|
      invariant proc.err == old(proc.err) && proc.cwd == old(proc.cwd) && proc.fds == old(proc.fds)
      invariant proc.out == old(proc.out) + Tagged(proc.fds.output, lines[..k])
    {
      var line := env.entries[k].0 + "=" + env.entries[k].1 + "\n";
      assert lines[..k + 1] == lines[..k] + [line];
      assert Tagged(proc.fds.output, lines[..k + 1]) == Tagged(proc.fds.output, lines[..k]) + [(proc.fds.output, line)];
      proc.Print(line);
      k := k + 1;
    }
    assert lines[..k] == lines;
    return 0;
  }

  /** The call of the built-in itself, once standard output is bound. */
  method CallBuiltin(b: Option<Builtin>, args: seq<string>, env: Env, proc: Process, world: World)
    returns (r: ExitOutcome)
    requires |args| >= 1
    modifies env, proc
    ensures var eff := Dispatch(b, args, old(env.entries), old(proc.cwd), old(proc.fds).output, world);
            r == eff.outcome && env.entries == eff.entries && proc.cwd == eff.cwd &&
            proc.out == old(proc.out) + eff.out && proc.err == old(proc.err) + eff.err
    ensures proc.fds == old(proc.fds)
  {
    match b
    case None =>
      return Return(0);
    case Some(EchoCmd) =>
      var s := EchoBuiltin(args, proc);
      return Return(s);
    case Some(CdCmd) =>
      var s := CdBuiltin(args, env, proc, world);
      return Return(s);
    case Some(PwdCmd) =>
      var s := PwdBuiltin(proc, world);
      return Return(s);
    case Some(ExportCmd) =>
      var s := ExportBuiltin(args, env, proc);
      return Return(s);
    case Some(UnsetCmd) =>
      var s := UnsetBuiltin(args, env);
      return Return(s);
    case Some(EnvCmd) =>
      var s := EnvBuiltin(env, proc);
      return Return(s);
    case Some(ExitCmd) =>
      r := ExitBuiltin(args, proc);
  }

  /**
   * execute_builtin. A redirection that fails restores the descriptors and gives 1; after
   * the built-in ran they are restored too. exit does not come back to restore them: the
   * process ends.
   */
  method ExecuteBuiltin(c: SimpleCmd, env: Env, proc: Process, world: World) returns (r: ExitOutcome)
    modifies env, proc
    ensures var eff := RunBuiltin(c, old(env.entries), old(proc.cwd), old(proc.fds), world);
            r == eff.outcome && env.entries == eff.entries && proc.cwd == eff.cwd &&
            proc.out == old(proc.out) + eff.out && proc.err == old(proc.err) + eff.err
    ensures r.Return? ==> proc.fds == old(proc.fds)
  {
    if |c.args| == 0 {
      return Return(0);
    }
    var saved := proc.fds;
    if |c.redirs| > 0 {
      var ok := Redirect(c.redirs, proc, world, false);
      if !ok {
        proc.fds := saved;
        return Return(1);
      }
    }
    r := CallBuiltin(BuiltinOf(c.args[0]), c.args, env, proc, world);
    if r.Terminate? {
      return;
    }
    if |c.redirs| > 0 {
      proc.fds := saved;
    }
  }

  // ---------------------------------------------------------------------------
  // What the built-ins promise.
  // ---------------------------------------------------------------------------

  /** On C strings, exactly the seven names are built-ins, each dispatched to its own command. */
  lemma BuiltinNames(name: string)
    requires NoNul(name)
    ensures forall b :: BuiltinOf(name) == Some(b) <==> name == NameOf(b)
    ensures IsBuiltin(name) <==> name in ["echo", "cd", "pwd", "export", "unset", "env", "exit"]
  {
    BuiltinOfByName(name);
  }

  lemma BuiltinOfByName(name: string)
    requires NoNul(name)
    ensures BuiltinOf(name) == if name == "echo" then Some(EchoCmd) else if name == "cd" then Some(CdCmd)
                               else if name == "pwd" then Some(PwdCmd) else if name == "export" then Some(ExportCmd)
                               else if name == "unset" then Some(UnsetCmd) else if name == "env" then Some(EnvCmd)
                               else if name == "exit" then Some(ExitCmd) else None
  {
    StrncmpPastEnd(name, "echo");
    StrncmpPastEnd(name, "cd");
    StrncmpPastEnd(name, "pwd");
    StrncmpPastEnd(name, "export");
    StrncmpPastEnd(name, "unset");
    StrncmpPastEnd(name, "env");
    StrncmpPastEnd(name, "exit");
  }

  /** Where standard output ends up: the last `>` or `>>` target, or where it was. */
  function OutputAfter(out: Stream, redirs: seq<Redir>): Stream
    decreases |redirs|
  {
    if |redirs| == 0 then out
    else
      var r := redirs[|redirs| - 1];
      if r.kind == RedirOut then WriteFile(r.file, false)
      else if r.kind == RedirAppend then WriteFile(r.file, true)
      else OutputAfter(out, redirs[..|redirs| - 1])
  }

  /** Where standard input ends up: the last `<` (or, with here-documents, `<<`) source. */
  function InputAfter(input: Stream, redirs: seq<Redir>, heredocs: bool): Stream
    decreases |redirs|
  {
    if |redirs| == 0 then input
    else
      var r := redirs[|redirs| - 1];
      if r.kind == RedirIn then ReadFile(r.file)
      else if r.kind == RedirHeredoc && heredocs then HeredocPipe(r.file)
      else InputAfter(input, redirs[..|redirs| - 1], heredocs)
  }

  /** One redirection fails on its own. */
  predicate Fails(r: Redir, world: World, heredocs: bool)
  {
    RedirectOne(Fds(Terminal, Terminal), r, world, heredocs).RedirFailed?
  }

  /**
   * Redirections succeed exactly when none of them fails on its own, and then the last
   * redirection of each direction wins.
   */
  lemma {:induction false} RedirectAllMeaning(fds: Fds, redirs: seq<Redir>, world: World, heredocs: bool)
    ensures RedirectAll(fds, redirs, world, heredocs).Redirected?
            <==> forall k :: 0 <= k < |redirs| ==> !Fails(redirs[k], world, heredocs)
    ensures RedirectAll(fds, redirs, world, heredocs).Redirected? ==>
              RedirectAll(fds, redirs, world, heredocs).fds
              == Fds(InputAfter(fds.input, redirs, heredocs), OutputAfter(fds.output, redirs))
    decreases |redirs|
  {
    if |redirs| > 0 {
      var init := redirs[..|redirs| - 1];
      var last := redirs[|redirs| - 1];
      RedirectAllMeaning(fds, init, world, heredocs);
      assert forall k :: 0 <= k < |init| ==> init[k] == redirs[k];
      match RedirectAll(fds, init, world, heredocs)
      case RedirFailed(m) =>
        var k :| 0 <= k < |init| && Fails(init[k], world, heredocs);
        assert Fails(redirs[k], world, heredocs);
      case Redirected(f) =>
        OneFailsAlike(f, last, world, heredocs);
    }
  }

  /** Whether one redirection fails does not depend on the descriptors it starts from. */
  lemma OneFailsAlike(fds: Fds, r: Redir, world: World, heredocs: bool)
    ensures RedirectOne(fds, r, world, heredocs).RedirFailed? <==> Fails(r, world, heredocs)
  {
  }
}
