/**
 * The export builtin. With no argument it lists the store as `declare -x KEY="VALUE"`
 * lines. Otherwise each argument `NAME=VALUE` (or a bare `NAME`, which sets the empty
 * value) whose name is a valid identifier is stored; an invalid one is reported and makes
 * the status 1, and the remaining arguments are still processed.
 */
module Export {
  import opened Wrappers
  import opened Libft
  import opened Os
  import opened EnvStore
  import opened Expander

  /** How an argument is read: split at its first '=', or the whole argument with the empty value. */
  function SplitArg(arg: string): (kv: Entry)
    ensures '=' in arg ==> arg == kv.0 + "=" + kv.1 && '=' !in kv.0
    ensures '=' !in arg ==> kv == (arg, "")
  {
    match SplitAtEq(arg)
    case Some(e) => e
    case None => (arg, "")
  }

  /** is_valid_identifier, applied to the part before the '='. */
  predicate IsValidArg(arg: string)
  {
    IsName(SplitArg(arg).0)
  }

  /** What one argument does to the store. */
  function ExportOne(entries: seq<Entry>, arg: string): seq<Entry>
  {
    if IsValidArg(arg) then SetViaCopy(entries, SplitArg(arg).0, SplitArg(arg).1) else entries
  }

  /** The store after the arguments, taken in order. */
  function ExportEntries(entries: seq<Entry>, args: seq<string>): seq<Entry>
    decreases |args|
  {
    if |args| == 0 then entries
    else ExportOne(ExportEntries(entries, args[..|args| - 1]), args[|args| - 1])
  }

  function NotValidMessage(arg: string): string
  {
    "minishell: export: `" + arg + "': not a valid identifier\n"
  }

  /** One diagnostic per invalid argument, in order. */
  function ExportErrors(args: seq<string>): seq<string>
    decreases |args|
  {
    if |args| == 0 then []
    else
      var last := args[|args| - 1];
      ExportErrors(args[..|args| - 1]) + (if IsValidArg(last) then [] else [NotValidMessage(last)])
  }

  /** 1 when some argument is invalid, else 0. */
  function ExportStatus(args: seq<string>): int
  {
    if forall k :: 0 <= k < |args| ==> IsValidArg(args[k]) then 0 else 1
  }

  /** The listing printed with no argument, one line per entry. */
  function Declarations(entries: seq<Entry>): (lines: seq<string>)
    ensures |lines| == |entries|
    ensures forall k :: 0 <= k < |entries| ==>
              lines[k] == "declare -x " + entries[k].0 + "=\"" + entries[k].1 + "\"\n"
  {
    seq(|entries|, k requires 0 <= k < |entries| =>
      "declare -x " + entries[k].0 + "=\"" + entries[k].1 + "\"\n")
  }

  // ---------------------------------------------------------------------------
  // The C loops.
  // ---------------------------------------------------------------------------

  /** is_valid_identifier: a letter or '_' first, then letters, digits and '_'. */
  method ValidIdentifier(s: string) returns (b: bool)
    ensures b == IsName(s)
  {
    if |s| == 0 || !(IsAlpha(s[0]) || s[0] == '_') {
      return false;
    }
    var i := 1;
    while i < |s|
      invariant 1 <= i <= |s|
      invariant forall k :: 0 < k < i ==> IsNameChar(s[k])
    {
      if !(IsAlnum(s[i]) || s[i] == '_') {
        return false;
      }
      i := i + 1;
    }
    return true;
  }

  /** builtin_export with no argument: one declaration line per entry, in store order. */
  method ListDeclarations(env: Env, proc: Process)
    modifies proc
    ensures proc.out == old(proc.out) + Tagged(proc.fds.output, Declarations(env.entries))
    ensures proc.err == old(proc.err) && proc.cwd == old(proc.cwd) && proc.fds == old(proc.fds)
  {
    var k := 0;
    ghost var lines := Declarations(env.entries);
    while k < |env.entries|
      invariant k <= |env.entries|
      invariant proc.err == old(proc.err) && proc.cwd == old(proc.cwd) && proc.fds == old(proc.fds)
      invariant proc.out == old(proc.out) + Tagged(proc.fds.output, lines[..k])
    {
      var line := "declare -x " + env.entries[k].0 + "=\"" + env.entries[k].1 + "\"\n";
      assert lines[..k + 1] == lines[..k] + [line];
      assert Tagged(proc.fds.output, lines[..k + 1]) == Tagged(proc.fds.output, lines[..k]) + [(proc.fds.output, line)];
      proc.Print(line);
      k := k + 1;
    }
    assert lines[..k] == lines;
  }

  /** One pass of builtin_export's loop: the argument is checked, then stored or reported. */
  method ExportArg(arg: string, env: Env, proc: Process) returns (valid: bool)
    modifies env, proc
    ensures valid == IsValidArg(arg)
    ensures env.entries == ExportOne(old(env.entries), arg)
    ensures proc.err == old(proc.err) + (if valid then [] else [NotValidMessage(arg)])
    ensures proc.out == old(proc.out) && proc.cwd == old(proc.cwd) && proc.fds == old(proc.fds)
  {
    var kv := SplitArg(arg);
    valid := ValidIdentifier(kv.0);
    if !valid {
      proc.Error(NotValidMessage(arg));
    } else {
      env.UpdateViaCopy(kv.0, kv.1);
    }
  }

  /** ExportArg at argument `i`: what the arguments before it did, extended by this one. */
  method ExportNext(args: seq<string>, i: nat, env: Env, proc: Process, status: int,
                    ghost entries0: seq<Entry>, ghost err0: seq<string>) returns (next: int)
    requires i < |args|
    requires env.entries == ExportEntries(entries0, args[..i])
    requires proc.err == err0 + ExportErrors(args[..i])
    requires status == ExportStatus(args[..i])
    modifies env, proc
    ensures env.entries == ExportEntries(entries0, args[..i + 1])
    ensures proc.err == err0 + ExportErrors(args[..i + 1])
    ensures next == ExportStatus(args[..i + 1])
    ensures proc.out == old(proc.out) && proc.cwd == old(proc.cwd) && proc.fds == old(proc.fds)
  {
    ExportStep(args, i, entries0);
    var valid := ExportArg(args[i], env, proc);
    next := if valid then status else 1;
  }

  /** builtin_export's loop over its arguments. */
  method ExportArgs(args: seq<string>, env: Env, proc: Process) returns (status: int)
    modifies env, proc
    ensures status == ExportStatus(args)
    ensures env.entries == ExportEntries(old(env.entries), args)
    ensures proc.err == old(proc.err) + ExportErrors(args)
    ensures proc.out == old(proc.out) && proc.cwd == old(proc.cwd) && proc.fds == old(proc.fds)
  {
    ghost var entries0 := env.entries;
    ghost var err0 := proc.err;
    status := 0;
    var i := 0;
    assert args[..0] == [];
    while i < |args|
      invariant i <= |args|
      invariant env.entries == ExportEntries(entries0, args[..i])
      invariant proc.err == err0 + ExportErrors(args[..i])
      invariant status == ExportStatus(args[..i])
      invariant proc.out == old(proc.out) && proc.cwd == old(proc.cwd) && proc.fds == old(proc.fds)
    {
      status := ExportNext(args, i, env, proc, status, entries0, err0);
      i := i + 1;
    }
    assert args[..i] == args;
  }

  /** builtin_export. */
  method ExportBuiltin(args: seq<string>, env: Env, proc: Process) returns (status: int)
    requires |args| >= 1
    modifies env, proc
    ensures |args| == 1 ==> status == 0 && env.entries == old(env.entries) && proc.err == old(proc.err) &&
                            proc.out == old(proc.out) + Tagged(proc.fds.output, Declarations(old(env.entries)))
    ensures |args| > 1 ==> status == ExportStatus(args[1..]) && proc.out == old(proc.out) &&
                           env.entries == ExportEntries(old(env.entries), args[1..]) &&
                           proc.err == old(proc.err) + ExportErrors(args[1..])
    ensures proc.cwd == old(proc.cwd) && proc.fds == old(proc.fds)
  {
    if |args| == 1 {
      ListDeclarations(env, proc);
      return 0;
    }
    status := ExportArgs(args[1..], env, proc);
  }

  /** One more argument: its effect comes after the effect of those before it. */
  lemma ExportStep(args: seq<string>, i: nat, entries: seq<Entry>)
    requires i < |args|
    ensures ExportStatus(args[..i + 1]) == if IsValidArg(args[i]) then ExportStatus(args[..i]) else 1
    ensures ExportErrors(args[..i + 1])
            == ExportErrors(args[..i]) + (if IsValidArg(args[i]) then [] else [NotValidMessage(args[i])])
    ensures ExportEntries(entries, args[..i + 1]) == ExportOne(ExportEntries(entries, args[..i]), args[i])
  {
    assert args[..i + 1][..i] == args[..i];
    assert args[..i + 1][i] == args[i];
  }

  // ---------------------------------------------------------------------------
  // What export promises.
  // ---------------------------------------------------------------------------

  /** Arguments in two runs act like the same arguments in one run. */
  lemma {:induction false} ExportAppend(entries: seq<Entry>, xs: seq<string>, ys: seq<string>)
    ensures ExportEntries(entries, xs + ys) == ExportEntries(ExportEntries(entries, xs), ys)
    decreases |ys|
  {
    if |ys| == 0 {
      assert xs + ys == xs;
    } else {
      assert (xs + ys)[..|xs + ys| - 1] == xs + ys[..|ys| - 1];
      ExportAppend(entries, xs, ys[..|ys| - 1]);
    }
  }

  /** An invalid argument changes nothing and does not stop the arguments after it. */
  lemma ExportSkipsInvalid(entries: seq<Entry>, xs: seq<string>, bad: string, ys: seq<string>)
    requires !IsValidArg(bad)
    ensures ExportEntries(entries, xs + [bad] + ys) == ExportEntries(entries, xs + ys)
    ensures ExportStatus(xs + [bad] + ys) == 1
  {
    ExportAppend(entries, xs + [bad], ys);
    ExportAppend(entries, xs, ys);
    assert (xs + [bad])[..|xs|] == xs;
    assert (xs + [bad] + ys)[|xs|] == bad;
  }

  /** A valid identifier holds no '='. */
  lemma NameHasNoEq(name: string)
    requires IsName(name)
    ensures '=' !in name
  {
    forall k | 0 <= k < |name| ensures name[k] != '=' {
      if k > 0 { assert IsNameChar(name[k]); }
    }
  }

  /** `export NAME=VALUE` on a non-empty store is set_env_value(NAME, VALUE). */
  lemma ExportAssignment(entries: seq<Entry>, name: string, value: string)
    requires |entries| > 0 && IsName(name)
    ensures ExportEntries(entries, [name + "=" + value]) == SetEntry(entries, name, value)
  {
    var arg := name + "=" + value;
    NameHasNoEq(name);
    SplitAtEqJoin(name, value);
    assert SplitArg(arg) == (name, value);
    assert [arg][..0] == [];
  }

  /** On a non-empty store, `export NAME=VALUE` makes NAME read VALUE, and `$NAME` expand to it. */
  lemma ExportSetsValue(entries: seq<Entry>, name: string, value: string, status: int)
    requires |entries| > 0 && IsName(name)
    ensures Lookup(ExportEntries(entries, [name + "=" + value]), name) == Some(value)
    ensures Expand("$" + name, ExportEntries(entries, [name + "=" + value]), status) == value
  {
    var r := ExportEntries(entries, [name + "=" + value]);
    ExportAssignment(entries, name, value);
    LookupAfterSet(entries, name, value, name);
    assert Lookup(r, name) == Some(value);
    NameExpands(name, r, status);
    assert ValueOf(r, name) == value;
  }

  /** Every other name keeps its value across an export of NAME. */
  lemma ExportKeepsOthers(entries: seq<Entry>, arg: string, other: string)
    requires other != SplitArg(arg).0
    ensures Lookup(ExportEntries(entries, [arg]), other) == Lookup(entries, other)
  {
    assert [arg][..0] == [];
    var kv := SplitArg(arg);
    if IsValidArg(arg) && |entries| > 0 {
      LookupAfterSet(entries, kv.0, kv.1, other);
    }
  }

  /** With a store that starts empty, export can never add a variable. */
  lemma {:induction false} ExportOnEmptyStore(args: seq<string>)
    ensures ExportEntries([], args) == []
    decreases |args|
  {
    if |args| > 0 {
      ExportOnEmptyStore(args[..|args| - 1]);
    }
  }

  /** Export never introduces a duplicate key. */
  lemma {:induction false} ExportKeepsUniqueKeys(entries: seq<Entry>, args: seq<string>)
    requires UniqueKeys(entries)
    ensures UniqueKeys(ExportEntries(entries, args))
    decreases |args|
  {
    if |args| > 0 {
      var before := ExportEntries(entries, args[..|args| - 1]);
      ExportKeepsUniqueKeys(entries, args[..|args| - 1]);
      var kv := SplitArg(args[|args| - 1]);
      UniqueKeysKept(before, kv.0, kv.1);
    }
  }

  /** There is one diagnostic for each invalid argument, and the status is 1 exactly when there is one. */
  lemma {:induction false} ExportErrorsIff(args: seq<string>)
    ensures |ExportErrors(args)| == 0 <==> ExportStatus(args) == 0
    decreases |args|
  {
    if |args| > 0 {
      ExportErrorsIff(args[..|args| - 1]);
      ExportStatusLast(args);
    }
  }

  /** The status after the last argument: 1 if it is invalid, else the status before it. */
  lemma ExportStatusLast(args: seq<string>)
    requires |args| > 0
    ensures ExportStatus(args) == if IsValidArg(args[|args| - 1]) then ExportStatus(args[..|args| - 1]) else 1
  {
    var init := args[..|args| - 1];
    assert forall k :: 0 <= k < |init| ==> init[k] == args[k];
    if forall k :: 0 <= k < |args| ==> IsValidArg(args[k]) {
      assert ExportStatus(init) == 0;
    } else if IsValidArg(args[|args| - 1]) {
      var k :| 0 <= k < |args| && !IsValidArg(args[k]);
      assert !IsValidArg(init[k]);
    }
  }
}
