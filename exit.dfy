/**
 * The exit builtin: "exit" is always written first; then the shell terminates with 0
 * (no argument), with 2 (an argument that is not a number) or with the argument's value,
 * except that with more than one argument it stays and returns 1.
 */
module Exit {
  import opened Libft
  import opened Os

  /** What builtin_exit does: end the process with a code, or return a status. */
  datatype ExitOutcome = Terminate(code: int) | Return(status: int)

  /** Where the digits of a number start: after one optional sign. */
  function SignEnd(s: string): nat
  {
    if |s| > 0 && (s[0] == '+' || s[0] == '-') then 1 else 0
  }

  /** is_valid_number: an optional sign followed by one or more decimal digits. */
  predicate IsValidNumber(s: string)
  {
    SignEnd(s) < |s| && forall k :: SignEnd(s) <= k < |s| ==> IsDigit(s[k])
  }

  /** builtin_exit's decision for `args` (args[0] being "exit"). */
  function ExitDecision(args: seq<string>): ExitOutcome
    requires |args| >= 1
  {
    if |args| < 2 then Terminate(0)
    else if |args| > 2 then Return(1)
    else if !IsValidNumber(args[1]) then Terminate(2)
    else Terminate(Atoi(args[1]))
  }

  /** The diagnostics builtin_exit writes to standard error. */
  function ExitErrors(args: seq<string>): seq<string>
    requires |args| >= 1
  {
    if |args| < 2 then []
    else if |args| > 2 then ["minishell: exit: too many arguments\n"]
    else if !IsValidNumber(args[1]) then ["minishell: exit: " + args[1] + ": numeric argument required\n"]
    else []
  }

  /** is_valid_number. */
  method ValidNumber(s: string) returns (b: bool)
    ensures b == IsValidNumber(s)
  {
    var i := 0;
    if |s| > 0 && (s[0] == '+' || s[0] == '-') {
      i := 1;
    }
    if i == |s| {
      return false;
    }
    while i < |s|
      invariant SignEnd(s) <= i <= |s|
      invariant forall k :: SignEnd(s) <= k < i ==> IsDigit(s[k])
    {
      if !IsDigit(s[i]) {
        return false;
      }
      i := i + 1;
    }
    return true;
  }

  /** builtin_exit: writes "exit", then decides. */
  method ExitBuiltin(args: seq<string>, proc: Process) returns (r: ExitOutcome)
    requires |args| >= 1
    modifies proc
    ensures r == ExitDecision(args)
    ensures proc.out == old(proc.out) + [(proc.fds.output, "exit\n")]
    ensures proc.err == old(proc.err) + ExitErrors(args)
    ensures proc.cwd == old(proc.cwd) && proc.fds == old(proc.fds)
  {
    proc.Print("exit\n");
    if |args| < 2 {
      return Terminate(0);
    }
    if |args| > 2 {
      proc.Error("minishell: exit: too many arguments\n");
      return Return(1);
    }
    var valid := ValidNumber(args[1]);
    if !valid {
      proc.Error("minishell: exit: " + args[1] + ": numeric argument required\n");
      return Terminate(2);
    }
    return Terminate(Atoi(args[1]));
  }

  // ---------------------------------------------------------------------------
  // What exit promises.
  // ---------------------------------------------------------------------------

  /** A valid number reads as its sign applied to the value of its digits. */
  lemma ValidNumberValue(s: string)
    requires IsValidNumber(s)
    ensures var v: int := DigitsValue(s[SignEnd(s)..]);
            Atoi(s) == if s[0] == '-' then -v else v
  {
    var j := SignEnd(s);
    assert !IsSpace(s[0]) by { assert IsDigit(s[0]) || s[0] == '+' || s[0] == '-'; }
    assert SpaceRunEnd(s, 0) == 0;
    DigitRunToEnd(s, j);
    assert s[j..DigitRunEnd(s, j)] == s[j..];
  }

  lemma {:induction false} DigitRunToEnd(s: string, j: nat)
    requires j <= |s| && forall k :: j <= k < |s| ==> IsDigit(s[k])
    ensures DigitRunEnd(s, j) == |s|
    decreases |s| - j
  {
    if j < |s| {
      DigitRunToEnd(s, j + 1);
    }
  }

  /** `exit n` with n written in decimal ends the shell with exactly n. */
  lemma ExitOfItoa(n: int)
    ensures ExitDecision(["exit", Itoa(n)]) == Terminate(n)
  {
    var s := Itoa(n);
    var d := NatToDecimal(if n < 0 then -n else n);
    assert s[SignEnd(s)..] == d;
    assert IsValidNumber(s);
    AtoiOfItoa(n);
  }

  /** Exit returns instead of terminating exactly when it is given more than one argument. */
  lemma ExitReturnsIff(args: seq<string>)
    requires |args| >= 1
    ensures ExitDecision(args).Return? <==> |args| > 2
  {
  }
}
