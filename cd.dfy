/**
 * The cd builtin: at most one argument; no argument goes to $HOME, "-" goes to $OLDPWD
 * (and prints it), anything else is the path. On success OLDPWD is set to the directory
 * left (when getcwd knew it) and PWD to the directory entered (when getcwd knows it).
 */
module Cd {
  import opened Wrappers
  import opened Libft
  import opened Os
  import opened EnvStore

  /** Everything cd decides: its status, the new store, the new directory, and what it writes. */
  datatype CdEffect = CdEffect(status: int, entries: seq<Entry>, cwd: Option<string>,
                               out: seq<string>, err: seq<string>)

  /** Where cd is going, and whether it announces the path; or why it cannot go anywhere. */
  datatype Target = Go(path: string, announce: bool) | NotSet(message: string)

  /** The "-" test: ft_strncmp over two characters, then the terminator right after the dash. */
  predicate IsDash(s: string)
  {
    Strncmp(s, "-", 2) == 0 && CharAt(s, 1) == '\0'
  }

  function CdTarget(args: seq<string>, entries: seq<Entry>): Target
    requires 1 <= |args| <= 2
  {
    if |args| == 1 then
      match Lookup(entries, "HOME")
      case None => NotSet("minishell: cd: HOME not set\n")
      case Some(h) => Go(h, false)
    else if IsDash(args[1]) then
      match Lookup(entries, "OLDPWD")
      case None => NotSet("minishell: cd: OLDPWD not set\n")
      case Some(o) => Go(o, true)
    else Go(args[1], false)
  }

  /** OLDPWD then PWD, each set only when getcwd gave a value, through set_env_value's head copy. */
  function UpdatePwdVars(entries: seq<Entry>, left: Option<string>, entered: Option<string>): seq<Entry>
  {
    var e := if left.Some? then SetViaCopy(entries, "OLDPWD", left.value) else entries;
    if entered.Some? then SetViaCopy(e, "PWD", entered.value) else e
  }

  /** builtin_cd, from the store, the directory getcwd reports and the system's answers. */
  function Cd(args: seq<string>, entries: seq<Entry>, cwd: Option<string>, world: World): CdEffect
    requires |args| >= 1
  {
    if |args| > 2 then CdEffect(1, entries, cwd, [], ["minishell: cd: too many arguments\n"])
    else
      match CdTarget(args, entries)
      case NotSet(m) => CdEffect(1, entries, cwd, [], [m])
      case Go(p, announce) =>
        var out := if announce then [p + "\n"] else [];
        match world.enter(cwd, p)
        case ChdirFailed(e) => CdEffect(1, entries, cwd, out, [Perror(world, "cd", e)])
        case Entered(now) => CdEffect(0, UpdatePwdVars(entries, cwd, now), now, out, [])
  }

  /** builtin_cd. */
  method CdBuiltin(args: seq<string>, env: Env, proc: Process, world: World) returns (status: int)
    requires |args| >= 1
    modifies env, proc
    ensures var eff := Cd(args, old(env.entries), old(proc.cwd), world);
            status == eff.status && env.entries == eff.entries && proc.cwd == eff.cwd &&
            proc.out == old(proc.out) + Tagged(proc.fds.output, eff.out) &&
            proc.err == old(proc.err) + eff.err
    ensures proc.fds == old(proc.fds)
  {
    if |args| > 2 {
      proc.Error("minishell: cd: too many arguments\n");
      return 1;
    }
    var current := proc.cwd;
    var path: string;
    if |args| == 1 {
      var home := env.Get("HOME");
      if home.None? {
        proc.Error("minishell: cd: HOME not set\n");
        return 1;
      }
      path := home.value;
    } else if Strncmp(args[1], "-", 2) == 0 && CharAt(args[1], 1) == '\0' {
      var oldpwd := env.Get("OLDPWD");
      if oldpwd.None? {
        proc.Error("minishell: cd: OLDPWD not set\n");
        return 1;
      }
      path := oldpwd.value;
      proc.Print(path + "\n");
    } else {
      path := args[1];
    }
    match world.enter(current, path)
    case ChdirFailed(e) =>
      proc.Error(Perror(world, "cd", e));
      return 1;
    case Entered(now) =>
      proc.cwd := now;
      if current.Some? {
        env.UpdateViaCopy("OLDPWD", current.value);
      }
      if now.Some? {
        env.UpdateViaCopy("PWD", now.value);
      }
      return 0;
  }

  // ---------------------------------------------------------------------------
  // What cd promises.
  // ---------------------------------------------------------------------------

  /** The "-" test is string equality with "-" on C strings. */
  lemma DashIsMinus(s: string)
    requires NoNul(s)
    ensures IsDash(s) <==> s == "-"
  {
    if |s| >= 1 && s[0] == '-' {
      assert Strncmp(s, "-", 2) == Strncmp(s[1..], "", 1);
    }
  }

  /** cd succeeds exactly when chdir does; a failing cd leaves the store and the directory alone. */
  lemma CdFailureKeepsState(args: seq<string>, entries: seq<Entry>, cwd: Option<string>, world: World)
    requires |args| >= 1
    ensures var eff := Cd(args, entries, cwd, world);
            (eff.status == 0 || eff.status == 1) &&
            (eff.status == 0 <==> |args| <= 2 && CdTarget(args, entries).Go? &&
                                  world.enter(cwd, CdTarget(args, entries).path).Entered?) &&
            (eff.status == 1 ==> eff.entries == entries && eff.cwd == cwd && |eff.err| == 1)
  {
  }

  /** After a successful cd on a non-empty store, PWD names the new directory and OLDPWD the old one. */
  lemma CdSetsPwdVars(entries: seq<Entry>, left: string, entered: string)
    requires |entries| > 0
    ensures var r := UpdatePwdVars(entries, Some(left), Some(entered));
            Lookup(r, "PWD") == Some(entered) && Lookup(r, "OLDPWD") == Some(left)
  {
    var e := SetEntry(entries, "OLDPWD", left);
    LookupAfterSet(entries, "OLDPWD", left, "OLDPWD");
    assert |e| > 0 by { SetKeys(entries, "OLDPWD", left); }
    LookupAfterSet(e, "PWD", entered, "PWD");
    LookupAfterSet(e, "PWD", entered, "OLDPWD");
  }

  /** `cd -` goes back to OLDPWD and prints it, and the two variables trade places. */
  lemma CdDashSwaps(entries: seq<Entry>, here: string, there: string, world: World)
    requires |entries| > 0
    requires Lookup(entries, "OLDPWD") == Some(there)
    requires world.enter(Some(here), there) == Entered(Some(there))
    ensures var eff := Cd(["cd", "-"], entries, Some(here), world);
            eff.status == 0 && eff.cwd == Some(there) && eff.out == [there + "\n"] &&
            Lookup(eff.entries, "PWD") == Some(there) && Lookup(eff.entries, "OLDPWD") == Some(here)
  {
    assert IsDash("-") by { DashIsMinus("-"); }
    CdSetsPwdVars(entries, here, there);
  }

  /** With a store that started empty, cd can change directory but never records PWD or OLDPWD. */
  lemma CdOnEmptyStore(args: seq<string>, cwd: Option<string>, world: World)
    requires |args| >= 1
    ensures Cd(args, [], cwd, world).entries == []
  {
  }
}
