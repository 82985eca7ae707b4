/**
 * The read-eval loop of main: each line is lexed, expanded with the last status,
 * stripped of empty words, recorded in the history, parsed and executed. End of input
 * prints "exit" and ends the shell with 0; the exit builtin ends it with its own code.
 * readline's input is a parameter: the lines the user types, end of input after the last.
 */
module Driver {
  import opened Wrappers
  import opened Libft
  import opened Os
  import opened EnvStore
  import opened Lexer
  import opened Expander
  import opened Parser
  import opened Exit
  import opened Builtins
  import opened Executor

  /** What the loop keeps between lines; `exitCode` is set once the shell has ended. */
  datatype ShellState = ShellState(status: int, history: seq<string>, entries: seq<Entry>,
                                   cwd: Option<string>, out: seq<(Stream, string)>,
                                   err: seq<string>, exitCode: Option<int>)

  /** The tokens of a line after expansion and compaction, or None where main sees a NULL list. */
  function Prepare(line: string, entries: seq<Entry>, status: int): Option<seq<Token>>
  {
    match TokensOf(line)
    case None => None
    case Some(ts) =>
      var c := Compact(ExpandAll(ts, entries, status));
      if |c| == 0 then None else Some(c)
  }

  /** One turn of main's loop, `line` being readline's answer (None at end of input). */
  function Next(line: Option<string>, s: ShellState, fds: Fds, world: World): ShellState
  {
    match line
    case None => s.(out := s.out + [(fds.output, "exit\n")], exitCode := Some(0))
    case Some(l) =>
      match Prepare(l, s.entries, s.status)
      case None => s
      case Some(ts) =>
        var h := if CharAt(l, 0) != '\0' then s.history + [l] else s.history;
        match Parse(ts, 0)
        case None => s.(history := h)
        case Some(cmd) =>
          var eff := Run(cmd, s.entries, s.cwd, fds, world);
          var t := s.(history := h, entries := eff.entries, cwd := eff.cwd,
                      out := s.out + eff.out, err := s.err + eff.err);
          match eff.outcome
          case Terminate(code) => t.(exitCode := Some(ExitCode(code)))
          case Return(st) => t.(status := st)
  }

  /** The loop over the typed lines from `i` on, until the shell ends. */
  function Session(input: seq<string>, i: nat, s: ShellState, fds: Fds, world: World): ShellState
    requires i <= |input|
    decreases |input| - i
  {
    if s.exitCode.Some? then s
    else if i == |input| then Next(None, s, fds, world)
    else Session(input, i + 1, Next(Some(input[i]), s, fds, world), fds, world)
  }

  /** The shell process: main's locals, the store, and the process state. */
  class Shell {
    var status: int
    var history: seq<string>
    var exitCode: Option<int>
    const env: Env
    const proc: Process
    const world: World

    function State(): ShellState
      reads this, env, proc
    {
      ShellState(status, history, env.entries, proc.cwd, proc.out, proc.err, exitCode)
    }

    /** main's set-up: the store from envp, status 0, standard input and output on the terminal. */
    constructor(envp: seq<string>, cwd: Option<string>, world: World)
      ensures State() == ShellState(0, [], InitEntries(envp), cwd, [], [], None)
      ensures proc.fds == Fds(Terminal, Terminal) && this.world == world
      ensures fresh(env) && fresh(proc)
    {
      status := 0;
      history := [];
      exitCode := None;
      env := new Env.Init(envp);
      proc := new Process(cwd, Fds(Terminal, Terminal));
      this.world := world;
    }

    /** One turn of main's loop. */
    method Step(line: Option<string>)
      requires exitCode.None?
      modifies this, env, proc
      ensures State() == Next(line, old(State()), old(proc.fds), world)
      ensures exitCode.None? ==> proc.fds == old(proc.fds)
    {
      if line.None? {
        proc.Print("exit\n");
        exitCode := Some(0);
        return;
      }
      var l := line.value;
      var lexed := Lex(l);
      var tokens: seq<Token> := [];
      if lexed.Some? {
        var expanded := ExpandTokens(lexed.value, env, status);
        tokens := CompactEmptyTokens(expanded);
      }
      if |tokens| == 0 {
        return;
      }
      if CharAt(l, 0) != '\0' {
        history := history + [l];
      }
      var cmd := ParseTokens(tokens, 0);
      if cmd.Some? {
        var outcome := ExecuteCommand(cmd.value, env, proc, world);
        if outcome.Terminate? {
          exitCode := Some(ExitCode(outcome.code));
        } else {
          status := outcome.status;
        }
      }
    }

    /** main's loop, over the lines typed before end of input. */
    method Repl(input: seq<string>) returns (code: int)
      requires exitCode.None?
      modifies this, env, proc
      ensures State() == Session(input, 0, old(State()), old(proc.fds), world)
      ensures exitCode == Some(code)
    {
      ghost var start := State();
      var fds0 := proc.fds;
      var i := 0;
      while exitCode.None?
        invariant i <= |input|
        invariant Session(input, i, State(), fds0, world) == Session(input, 0, start, fds0, world)
        invariant exitCode.None? ==> proc.fds == fds0
        decreases |input| - i + (if exitCode.None? then 1 else 0)
      {
        if i < |input| {
          Step(Some(input[i]));
          i := i + 1;
        } else {
          Step(None);
        }
      }
      code := exitCode.value;
    }
  }

  // ---------------------------------------------------------------------------
  // What the loop promises.
  // ---------------------------------------------------------------------------

  /** End of input prints "exit" and ends the shell with 0, whatever the last status was. */
  lemma EndOfInputExitsZero(s: ShellState, fds: Fds, world: World)
    ensures Next(None, s, fds, world).exitCode == Some(0)
    ensures Next(None, s, fds, world).out == s.out + [(fds.output, "exit\n")]
    ensures Next(None, s, fds, world).status == s.status
  {
  }

  /** A blank line or one with an unclosed quote does nothing: no history, no status change. */
  lemma IgnoredLines(line: string, s: ShellState, fds: Fds, world: World)
    requires HasUnclosedQuote(line) || forall k :: 0 <= k < |line| ==> IsWhitespace(line[k])
    ensures Next(Some(line), s, fds, world) == s
  {
    LexFailsIffUnclosed(line);
    BlankLineNoTokens(line);
    if !HasUnclosedQuote(line) {
      assert ExpandAll([], s.entries, s.status) == [];
    }
  }

  /** Only a line that leaves some token is recorded, and it is never the empty line. */
  lemma HistoryRecordsLine(line: string, s: ShellState, fds: Fds, world: World)
    requires NoNul(line)
    ensures Prepare(line, s.entries, s.status).Some? ==> line != ""
    ensures Next(Some(line), s, fds, world).history
            == if Prepare(line, s.entries, s.status).Some? then s.history + [line] else s.history
  {
    if line == "" {
      BlankLineNoTokens(line);
      assert ExpandAll([], s.entries, s.status) == [];
    }
  }

  /**
   * The status, the store and the directory change only when parse returned a command:
   * a line that compacts away, or one such as `a |` that does not parse, leaves them alone.
   */
  lemma StatusOnlyFromCommands(line: string, s: ShellState, fds: Fds, world: World)
    requires Prepare(line, s.entries, s.status).None? || Parse(Prepare(line, s.entries, s.status).value, 0).None?
    ensures var t := Next(Some(line), s, fds, world);
            t.status == s.status && t.entries == s.entries && t.cwd == s.cwd &&
            t.out == s.out && t.err == s.err && t.exitCode == s.exitCode
  {
  }

  /** Every session ends: the exit builtin ends it early, end of input at the latest. */
  lemma {:induction false} SessionEnds(input: seq<string>, i: nat, s: ShellState, fds: Fds, world: World)
    requires i <= |input|
    ensures Session(input, i, s, fds, world).exitCode.Some?
    decreases |input| - i
  {
    if s.exitCode.None? && i < |input| {
      var t := Next(Some(input[i]), s, fds, world);
      SessionEnds(input, i + 1, t, fds, world);
      assert Session(input, i, s, fds, world) == Session(input, i + 1, t, fds, world);
    }
  }

  /** Lines after the one that ended the shell are never read. */
  lemma {:induction false} SessionStopsAtExit(input: seq<string>, more: seq<string>, s: ShellState,
                                              fds: Fds, world: World)
    requires EndsWithin(input, 0, s, fds, world)
    ensures Session(input + more, 0, s, fds, world) == Session(input, 0, s, fds, world)
  {
    SessionPrefix(input, more, 0, s, fds, world);
  }

  /** The session from `i` ends on one of the typed lines. */
  predicate EndsWithin(input: seq<string>, i: nat, s: ShellState, fds: Fds, world: World)
    requires i <= |input|
    decreases |input| - i
  {
    s.exitCode.Some? || (i < |input| && EndsWithin(input, i + 1, Next(Some(input[i]), s, fds, world), fds, world))
  }

  lemma {:induction false} SessionPrefix(input: seq<string>, more: seq<string>, i: nat, s: ShellState,
                                         fds: Fds, world: World)
    requires i <= |input|
    requires EndsWithin(input, i, s, fds, world)
    ensures Session(input + more, i, s, fds, world) == Session(input, i, s, fds, world)
    decreases |input| - i
  {
    if s.exitCode.None? {
      assert (input + more)[i] == input[i];
      SessionPrefix(input, more, i + 1, Next(Some(input[i]), s, fds, world), fds, world);
    }
  }
}
