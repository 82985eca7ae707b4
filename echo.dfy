/**
 * The echo builtin: leading "-n"/"-nn…" flags suppress the final newline, a leading
 * "-e" turns on backslash escapes, and the remaining arguments are written separated
 * by single spaces.
 */
module Echo {
  import opened Libft
  import opened Os

  const BEL: char := 7 as char
  const BS: char := 8 as char
  const VT: char := 11 as char
  const FF: char := 12 as char

  /** is_n_flag: a '-' followed by one or more 'n' and nothing else. */
  predicate IsNFlag(s: string)
  {
    |s| >= 2 && s[0] == '-' && forall k :: 1 <= k < |s| ==> s[k] == 'n'
  }

  /** The "-e" test: the first two characters compare equal to "-e" and the third is the terminator. */
  predicate IsEFlag(s: string)
  {
    Strncmp(s, "-e", 2) == 0 && CharAt(s, 2) == '\0'
  }

  /** The index of the first argument at or after `i` that is not a flag. */
  function FlagEnd(args: seq<string>, i: nat): (j: nat)
    requires i <= |args|
    ensures i <= j <= |args|
    ensures forall k :: i <= k < j ==> IsNFlag(args[k]) || IsEFlag(args[k])
    ensures j == |args| || !(IsNFlag(args[j]) || IsEFlag(args[j]))
    decreases |args| - i
  {
    if i < |args| && (IsNFlag(args[i]) || IsEFlag(args[i])) then FlagEnd(args, i + 1) else i
  }

  /** What an escape `\c` writes when escapes are on. */
  function EscapeOf(c: char): string
  {
    if c == 'n' then "\n"
    else if c == 't' then "\t"
    else if c == 'r' then "\r"
    else if c == 'b' then [BS]
    else if c == 'a' then [BEL]
    else if c == 'v' then [VT]
    else if c == 'f' then [FF]
    else if c == '\\' then "\\"
    else ['\\', c]
  }

  /**
   * print_with_escape: what one argument writes. With escapes on, a backslash that is
   * not the last character combines with the next one; otherwise characters are copied.
   */
  function Render(s: string, esc: bool): string
    decreases |s|
  {
    if |s| == 0 then ""
    else if esc && s[0] == '\\' && |s| >= 2 then EscapeOf(s[1]) + Render(s[2..], esc)
    else [s[0]] + Render(s[1..], esc)
  }

  function RenderAll(words: seq<string>, esc: bool): (r: seq<string>)
    ensures |r| == |words| && forall k :: 0 <= k < |words| ==> r[k] == Render(words[k], esc)
  {
    seq(|words|, k requires 0 <= k < |words| => Render(words[k], esc))
  }

  /** builtin_echo: everything it writes for `args` (args[0] being "echo"). */
  function EchoOutput(args: seq<string>): string
    requires |args| >= 1
  {
    var j := FlagEnd(args, 1);
    var esc := exists k :: 1 <= k < j && IsEFlag(args[k]);
    var newline := !exists k :: 1 <= k < j && IsNFlag(args[k]);
    JoinWith(RenderAll(args[j..], esc), ' ') + (if newline then "\n" else "")
  }

  // ---------------------------------------------------------------------------
  // The C loops.
  // ---------------------------------------------------------------------------

  /** is_n_flag, scanning the characters after the dash. */
  method NFlag(s: string) returns (b: bool)
    ensures b == IsNFlag(s)
  {
    if |s| < 2 || s[0] != '-' || s[1] != 'n' {
      return false;
    }
    var j := 1;
    while j < |s|
      invariant 1 <= j <= |s|
      invariant forall k :: 1 <= k < j ==> s[k] == 'n'
    {
      if s[j] != 'n' {
        return false;
      }
      j := j + 1;
    }
    return true;
  }

  /** print_with_escape, collecting what it writes. */
  method RenderWord(s: string, esc: bool) returns (r: string)
    ensures r == Render(s, esc)
  {
    r := "";
    var i := 0;
    assert s[0..] == s;
    while i < |s|
      invariant i <= |s|
      invariant r + Render(s[i..], esc) == Render(s, esc)
    {
      var piece: string;
      var next: nat;
      if esc && s[i] == '\\' && i + 1 < |s| {
        piece, next := EscapeOf(s[i + 1]), i + 2;
      } else {
        piece, next := [s[i]], i + 1;
      }
      RenderAt(r, s, i, esc);
      r, i := r + piece, next;
    }
    assert r + "" == r;
  }

  /** One pass of print_with_escape's loop: an escape pair or one copied character, after what was written. */
  lemma RenderAt(r: string, s: string, i: nat, esc: bool)
    requires i < |s|
    ensures r + Render(s[i..], esc)
            == if esc && s[i] == '\\' && i + 1 < |s| then (r + EscapeOf(s[i + 1])) + Render(s[i + 2..], esc)
               else (r + [s[i]]) + Render(s[i + 1..], esc)
  {
    var rest := s[i..];
    if esc && s[i] == '\\' && i + 1 < |s| {
      assert rest[2..] == s[i + 2..];
      assert r + (EscapeOf(s[i + 1]) + Render(s[i + 2..], esc)) == (r + EscapeOf(s[i + 1])) + Render(s[i + 2..], esc);
    } else {
      assert rest[1..] == s[i + 1..];
      assert r + ([s[i]] + Render(s[i + 1..], esc)) == (r + [s[i]]) + Render(s[i + 1..], esc);
    }
  }

  /** The flag loop of builtin_echo: where the words start, and what the flags turned on and off. */
  method ScanFlags(args: seq<string>) returns (j: nat, esc: bool, newline: bool)
    requires |args| >= 1
    ensures j == FlagEnd(args, 1)
    ensures esc == exists k :: 1 <= k < j && IsEFlag(args[k])
    ensures newline == !exists k :: 1 <= k < j && IsNFlag(args[k])
  {
    newline := true;
    esc := false;
    j := 1;
    while j < |args|
      invariant 1 <= j <= |args|
      invariant FlagEnd(args, j) == FlagEnd(args, 1)
      invariant esc == exists k :: 1 <= k < j && IsEFlag(args[k])
      invariant newline == !exists k :: 1 <= k < j && IsNFlag(args[k])
    {
      var n := NFlag(args[j]);
      if n {
        newline := false;
      } else if Strncmp(args[j], "-e", 2) == 0 && CharAt(args[j], 2) == '\0' {
        esc := true;
      } else {
        break;
      }
      j := j + 1;
    }
  }

  /** The word loop of builtin_echo: each word rendered, a space between consecutive ones. */
  method RenderWords(words: seq<string>, esc: bool) returns (text: string)
    ensures text == JoinWith(RenderAll(words, esc), ' ')
  {
    text := "";
    var i := 0;
    while i < |words|
      invariant i <= |words|
      invariant text == JoinWith(RenderAll(words[..i], esc), ' ')
    {
      var piece := RenderWord(words[i], esc);
      ghost var done := RenderAll(words[..i], esc);
      assert RenderAll(words[..i + 1], esc) == done + [piece];
      if i > 0 {
        JoinSnoc(done, piece, ' ');
        text := text + " " + piece;
      } else {
        text := piece;
      }
      i := i + 1;
    }
    assert words[..i] == words;
  }

  /** builtin_echo's text: the flags, then the words, then the newline unless -n was seen. */
  method EchoText(args: seq<string>) returns (text: string)
    requires |args| >= 1
    ensures text == EchoOutput(args)
  {
    var j, esc, newline := ScanFlags(args);
    text := RenderWords(args[j..], esc);
    if newline {
      text := text + "\n";
    } else {
      assert text + "" == text;
    }
  }

  /** builtin_echo: writes the text to standard output and returns 0. */
  method EchoBuiltin(args: seq<string>, proc: Process) returns (status: int)
    requires |args| >= 1
    modifies proc
    ensures status == 0
    ensures proc.out == old(proc.out) + [(proc.fds.output, EchoOutput(args))]
    ensures proc.cwd == old(proc.cwd) && proc.fds == old(proc.fds) && proc.err == old(proc.err)
  {
    var text := EchoText(args);
    proc.Print(text);
    return 0;
  }

  // ---------------------------------------------------------------------------
  // What echo promises.
  // ---------------------------------------------------------------------------

  lemma {:induction false} JoinSnoc(parts: seq<string>, p: string, sep: char)
    requires |parts| > 0
    ensures JoinWith(parts + [p], sep) == JoinWith(parts, sep) + [sep] + p
    decreases |parts|
  {
    if |parts| > 1 {
      assert (parts + [p])[1..] == parts[1..] + [p];
      JoinSnoc(parts[1..], p, sep);
    } else {
      assert (parts + [p])[1..] == [p];
    }
  }

  /** The "-e" test is string equality with "-e" on C strings. */
  lemma EFlagIsDashE(s: string)
    requires NoNul(s)
    ensures IsEFlag(s) <==> s == "-e"
  {
    if |s| >= 2 && s[0] == '-' && s[1] == 'e' {
      assert Strncmp(s, "-e", 2) == Strncmp(s[1..], "e", 1);
      assert Strncmp(s[1..], "e", 1) == Strncmp(s[2..], "", 0);
      if |s| == 2 { assert s == "-e"; }
    }
  }

  /** Without escapes, and with escapes on a word without backslashes, a word is written as is. */
  lemma {:induction false} RenderVerbatim(s: string, esc: bool)
    requires !esc || '\\' !in s
    ensures Render(s, esc) == s
    decreases |s|
  {
    if |s| > 0 {
      assert '\\' in s ==> '\\' in s[1..] || s[0] == '\\';
      RenderVerbatim(s[1..], esc);
      assert s == [s[0]] + s[1..];
    }
  }

  /** The encoding of one character that escape interpretation turns back into it. */
  function Encode(c: char): string
  {
    if c == '\n' then "\\n"
    else if c == '\t' then "\\t"
    else if c == '\r' then "\\r"
    else if c == BS then "\\b"
    else if c == BEL then "\\a"
    else if c == VT then "\\v"
    else if c == FF then "\\f"
    else if c == '\\' then "\\\\"
    else [c]
  }

  function Escape(s: string): string
    decreases |s|
  {
    if |s| == 0 then "" else Encode(s[0]) + Escape(s[1..])
  }

  /** Escape interpretation undoes Escape: every control character of the table survives the round trip. */
  lemma {:induction false} RenderOfEscape(s: string)
    ensures Render(Escape(s), true) == s
    decreases |s|
  {
    if |s| > 0 {
      RenderOfEscape(s[1..]);
      RenderOfEncode(s[0], Escape(s[1..]));
      assert s == [s[0]] + s[1..];
    }
  }

  /** Escaped text reads back as itself, whatever follows it. */
  lemma {:induction false} RenderOfEscapeThen(t: string, rest: string)
    ensures Render(Escape(t) + rest, true) == t + Render(rest, true)
    decreases |t|
  {
    if |t| == 0 {
      assert Escape(t) + rest == rest;
    } else {
      var x := Escape(t[1..]) + rest;
      RenderOfEscapeThen(t[1..], rest);
      assert Escape(t) + rest == Encode(t[0]) + x;
      RenderOfEncode(t[0], x);
      calc {
        Render(Escape(t) + rest, true);
        [t[0]] + Render(x, true);
        [t[0]] + (t[1..] + Render(rest, true));
        ([t[0]] + t[1..]) + Render(rest, true);
        { assert [t[0]] + t[1..] == t; }
        t + Render(rest, true);
      }
    }
  }

  /** A backslash that ends the word has nothing to combine with and is printed as is. */
  lemma TrailingBackslashKept(t: string)
    ensures Render(Escape(t) + "\\", true) == t + "\\"
  {
    RenderOfEscapeThen(t, "\\");
    assert Render("\\", true) == "\\" + Render("", true);
  }

  /** A backslash before a character outside `ntrbavf\` prints both, and the rest is read on. */
  lemma UnknownEscapeKept(c: char, rest: string)
    requires c !in "ntrbavf\\"
    ensures Render(['\\', c] + rest, true) == ['\\', c] + Render(rest, true)
  {
    var s := ['\\', c] + rest;
    assert s[0] == '\\' && s[1] == c && s[2..] == rest;
  }

  /** Escape interpretation reads one encoded character back, whatever follows it. */
  lemma RenderOfEncode(c: char, rest: string)
    ensures Render(Encode(c) + rest, true) == [c] + Render(rest, true)
  {
    var e := Encode(c);
    var t := e + rest;
    if |e| == 1 {
      assert t[0] == c && c != '\\';
      assert t[1..] == rest;
    } else {
      EscapeOfEncode(c);
      assert t[0] == '\\' && t[2..] == rest;
    }
  }

  lemma EscapeOfEncode(c: char)
    ensures |Encode(c)| == 1 <==> Encode(c) == [c] && c != '\\'
    ensures |Encode(c)| != 1 ==> |Encode(c)| == 2 && Encode(c)[0] == '\\' && EscapeOf(Encode(c)[1]) == [c]
  {
  }

  /** Plain arguments are written separated by spaces and followed by a newline. */
  lemma EchoWords(words: seq<string>)
    requires |words| > 0 ==> !IsNFlag(words[0]) && !IsEFlag(words[0])
    ensures EchoOutput(["echo"] + words) == JoinWith(words, ' ') + "\n"
  {
    var args := ["echo"] + words;
    assert FlagEnd(args, 1) == 1;
    assert args[1..] == words;
    forall k | 0 <= k < |words| ensures Render(words[k], false) == words[k] {
      RenderVerbatim(words[k], false);
    }
    assert RenderAll(words, false) == words;
  }

  /** A leading -n (or -nnn) drops the final newline and is not itself written. */
  lemma EchoSuppressNewline(flag: string, words: seq<string>)
    requires IsNFlag(flag)
    requires |words| > 0 ==> !IsNFlag(words[0]) && !IsEFlag(words[0])
    ensures EchoOutput(["echo", flag] + words) == JoinWith(words, ' ')
  {
    var args := ["echo", flag] + words;
    assert args[1] == flag;
    assert FlagEnd(args, 2) == 2;
    assert FlagEnd(args, 1) == 2;
    assert args[2..] == words;
    assert !exists k :: 1 <= k < 2 && IsEFlag(args[k]) by {
      assert flag[1] == 'n';
      assert Strncmp(flag[1..], "e", 1) != 0;
    }
    forall k | 0 <= k < |words| ensures Render(words[k], false) == words[k] {
      RenderVerbatim(words[k], false);
    }
    assert RenderAll(words, false) == words;
    assert JoinWith(words, ' ') + "" == JoinWith(words, ' ');
  }

  /** With -e, the escaped form of any text is written back as that text. */
  lemma EchoEscapes(s: string)
    requires !IsNFlag(Escape(s)) && !IsEFlag(Escape(s))
    ensures EchoOutput(["echo", "-e", Escape(s)]) == s + "\n"
  {
    var args := ["echo", "-e", Escape(s)];
    assert IsEFlag(args[1]) by { EFlagIsDashE("-e"); }
    assert !IsNFlag(args[1]);
    assert FlagEnd(args, 2) == 2;
    assert FlagEnd(args, 1) == 2;
    assert args[2..] == [Escape(s)];
    RenderOfEscape(s);
    assert RenderAll(args[2..], true) == [s];
  }
}
