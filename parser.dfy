/**
 * The parser: a token list to a command tree. Words and redirections up to a pipe form
 * one simple command; a pipe makes the command so far the left side of a pipeline whose
 * right side is the parse of everything after it.
 *
 * ParseSimpleCmd and ParseTokens follow the C loop and the C recursion over the token
 * list; they are proved equal to SimpleFrom and Parse. SimpleFrom is related to an
 * index-wise reading of the tokens (ArgsIn, RedirsIn, NextStop), and the shape and the
 * failure cases of Parse are proved about the functions.
 */
module Parser {
  import opened Wrappers
  import opened Lexer

  datatype RedirKind = RedirIn | RedirOut | RedirHeredoc | RedirAppend

  datatype Redir = Redir(kind: RedirKind, file: string)

  /** A simple command: its arguments (empty for the C NULL array) and its redirections in order. */
  datatype SimpleCmd = SimpleCmd(args: seq<string>, redirs: seq<Redir>)

  datatype Command = Simple(cmd: SimpleCmd) | PipeCmd(left: Command, right: Command)

  predicate IsRedirOp(k: TokenKind)
  {
    k == RedirectIn || k == RedirectOut || k == Heredoc || k == Append
  }

  function RedirOf(k: TokenKind): RedirKind
    requires IsRedirOp(k)
  {
    match k
    case RedirectIn => RedirIn
    case RedirectOut => RedirOut
    case Heredoc => RedirHeredoc
    case Append => RedirAppend
  }

  /** A token that ends a simple command: a pipe, or one the loop does not know. */
  predicate EndsSimple(t: Token) { t.kind == Pipe || t.kind == Eof }

  /**
   * parse_simple_cmd from index `i`: the command and the index it stops at. A word is an
   * argument; a redirection operator takes the next token as its file when that is a word
   * and is dropped otherwise.
   */
  function SimpleFrom(ts: seq<Token>, i: nat): (r: (SimpleCmd, nat))
    requires i <= |ts|
    ensures i <= r.1 <= |ts|
    decreases |ts| - i
  {
    if i == |ts| || EndsSimple(ts[i]) then (SimpleCmd([], []), i)
    else if ts[i].kind == Word then
      var (c, j) := SimpleFrom(ts, i + 1);
      (SimpleCmd([ts[i].value] + c.args, c.redirs), j)
    else if i + 1 < |ts| && ts[i + 1].kind == Word then
      var (c, j) := SimpleFrom(ts, i + 2);
      (SimpleCmd(c.args, [Redir(RedirOf(ts[i].kind), ts[i + 1].value)] + c.redirs), j)
    else SimpleFrom(ts, i + 1)
  }

  /** parse from index `i`: None when there is nothing to parse, or nothing after a pipe. */
  function Parse(ts: seq<Token>, i: nat): Option<Command>
    requires i <= |ts|
    decreases |ts| - i
  {
    if i == |ts| then None
    else
      var (c, j) := SimpleFrom(ts, i);
      if j < |ts| && ts[j].kind == Pipe then
        match Parse(ts, j + 1)
        case None => None
        case Some(right) => Some(PipeCmd(Simple(c), right))
      else Some(Simple(c))
  }

  // ---------------------------------------------------------------------------
  // The C loop and recursion.
  // ---------------------------------------------------------------------------

  /** `c` with `args` and `redirs` in front of its own. */
  function Before(args: seq<string>, redirs: seq<Redir>, r: (SimpleCmd, nat)): (SimpleCmd, nat)
  {
    (SimpleCmd(args + r.0.args, redirs + r.0.redirs), r.1)
  }

  lemma BeforeTwice(a: seq<string>, rd: seq<Redir>, a2: seq<string>, rd2: seq<Redir>, r: (SimpleCmd, nat))
    ensures Before(a, rd, Before(a2, rd2, r)) == Before(a + a2, rd + rd2, r)
  {
    assert a + (a2 + r.0.args) == (a + a2) + r.0.args;
    assert rd + (rd2 + r.0.redirs) == (rd + rd2) + r.0.redirs;
  }

  /** parse_simple_cmd: the command read from `start` and the index of the token it stopped at. */
  method ParseSimpleCmd(ts: seq<Token>, start: nat) returns (c: SimpleCmd, next: nat)
    requires start <= |ts|
    ensures (c, next) == SimpleFrom(ts, start)
  {
    var args: seq<string> := [];
    var redirs: seq<Redir> := [];
    var i := start;
    ghost var whole := SimpleFrom(ts, start);
    assert [] + whole.0.args == whole.0.args && [] + whole.0.redirs == whole.0.redirs;
    assert Before([], [], whole) == whole;
    while i < |ts| && !EndsSimple(ts[i])
      invariant start <= i <= |ts|
      invariant Before(args, redirs, SimpleFrom(ts, i)) == SimpleFrom(ts, start)
      decreases |ts| - i
    {
      if ts[i].kind == Word {
        BeforeTwice(args, redirs, [ts[i].value], [], SimpleFrom(ts, i + 1));
        args := args + [ts[i].value];
        i := i + 1;
      } else {
        var kind := RedirOf(ts[i].kind);
        i := i + 1;
        if i < |ts| && ts[i].kind == Word {
          BeforeTwice(args, redirs, [], [Redir(kind, ts[i].value)], SimpleFrom(ts, i + 1));
          redirs := redirs + [Redir(kind, ts[i].value)];
          i := i + 1;
        }
      }
    }
    assert args + [] == args && redirs + [] == redirs;
    c := SimpleCmd(args, redirs);
    next := i;
  }

  /** parse. */
  method ParseTokens(ts: seq<Token>, i: nat) returns (r: Option<Command>)
    requires i <= |ts|
    ensures r == Parse(ts, i)
    decreases |ts| - i
  {
    if i == |ts| {
      return None;
    }
    var c, j := ParseSimpleCmd(ts, i);
    if j < |ts| && ts[j].kind == Pipe {
      var right := ParseTokens(ts, j + 1);
      if right.None? {
        return None;
      }
      return Some(PipeCmd(Simple(c), right.value));
    }
    return Some(Simple(c));
  }

  // ---------------------------------------------------------------------------
  // An index-wise reading of a simple command.
  // ---------------------------------------------------------------------------

  /** The first index at or after `i` whose token ends a simple command, or |ts|. */
  function NextStop(ts: seq<Token>, i: nat): (j: nat)
    requires i <= |ts|
    ensures i <= j <= |ts|
    ensures forall k :: i <= k < j ==> !EndsSimple(ts[k])
    ensures j == |ts| || EndsSimple(ts[j])
    decreases |ts| - i
  {
    if i == |ts| || EndsSimple(ts[i]) then i else NextStop(ts, i + 1)
  }

  /** The word at `k` is a redirection's file: the token before it is an operator. */
  predicate IsTarget(ts: seq<Token>, k: nat)
    requires k < |ts|
  {
    k > 0 && IsRedirOp(ts[k - 1].kind) && ts[k].kind == Word
  }

  /** The words of ts[i..j] that are not redirection files, in order. */
  function ArgsIn(ts: seq<Token>, i: nat, j: nat): seq<string>
    requires i <= j <= |ts|
    decreases j - i
  {
    if i == j then []
    else (if ts[i].kind == Word && !IsTarget(ts, i) then [ts[i].value] else []) + ArgsIn(ts, i + 1, j)
  }

  /** The operators of ts[i..j] that have a word after them inside the range, with that word. */
  function RedirsIn(ts: seq<Token>, i: nat, j: nat): seq<Redir>
    requires i <= j <= |ts|
    decreases j - i
  {
    if i == j then []
    else
      (if IsRedirOp(ts[i].kind) && i + 1 < j && ts[i + 1].kind == Word
       then [Redir(RedirOf(ts[i].kind), ts[i + 1].value)] else [])
      + RedirsIn(ts, i + 1, j)
  }

  /**
   * A simple command read from the start of the list or after a pipe stops at the first
   * pipe (or unknown token); its arguments are the words there that do not follow an
   * operator, and its redirections are the operators that have a word after them.
   */
  lemma SimpleCmdContents(ts: seq<Token>, i: nat)
    requires i <= |ts| && (i == 0 || ts[i - 1].kind == Pipe)
    ensures var stop := NextStop(ts, i);
            SimpleFrom(ts, i) == (SimpleCmd(ArgsIn(ts, i, stop), RedirsIn(ts, i, stop)), stop)
  {
    SimpleFromRef(ts, i);
  }

  /** SimpleFrom from `i` agrees with the reference reading of ts[i..NextStop(ts, i)]. */
  predicate AgreesWithRef(ts: seq<Token>, i: nat)
    requires i <= |ts|
  {
    var stop := NextStop(ts, i);
    SimpleFrom(ts, i) == (SimpleCmd(ArgsIn(ts, i, stop), RedirsIn(ts, i, stop)), stop)
  }

  /** A word that does not follow an operator is an argument. */
  lemma WordAgrees(ts: seq<Token>, i: nat)
    requires i < |ts| && !EndsSimple(ts[i]) && ts[i].kind == Word
    requires i > 0 ==> !IsRedirOp(ts[i - 1].kind)
    requires AgreesWithRef(ts, i + 1)
    ensures AgreesWithRef(ts, i)
  {
    var stop := NextStop(ts, i);
    var r := SimpleFrom(ts, i + 1);
    assert NextStop(ts, i + 1) == stop;
    assert SimpleFrom(ts, i) == (SimpleCmd([ts[i].value] + r.0.args, r.0.redirs), r.1);
    assert ArgsIn(ts, i, stop) == [ts[i].value] + ArgsIn(ts, i + 1, stop);
    assert RedirsIn(ts, i, stop) == [] + RedirsIn(ts, i + 1, stop) == RedirsIn(ts, i + 1, stop);
  }

  /** An operator followed by a word is a redirection, and the word is not an argument. */
  lemma RedirAgrees(ts: seq<Token>, i: nat)
    requires i + 1 < |ts| && !EndsSimple(ts[i]) && ts[i].kind != Word && ts[i + 1].kind == Word
    requires AgreesWithRef(ts, i + 2)
    ensures AgreesWithRef(ts, i)
  {
    var stop := NextStop(ts, i);
    assert ArgsIn(ts, i, stop) == ArgsIn(ts, i + 2, stop);
    assert RedirsIn(ts, i + 1, stop) == RedirsIn(ts, i + 2, stop);
  }

  /** An operator with no word after it is skipped. */
  lemma LoneOperatorAgrees(ts: seq<Token>, i: nat)
    requires i < |ts| && !EndsSimple(ts[i]) && ts[i].kind != Word && !(i + 1 < |ts| && ts[i + 1].kind == Word)
    requires AgreesWithRef(ts, i + 1)
    ensures AgreesWithRef(ts, i)
  {
    var stop := NextStop(ts, i);
    assert NextStop(ts, i + 1) == stop;
    assert SimpleFrom(ts, i) == SimpleFrom(ts, i + 1);
    assert ArgsIn(ts, i, stop) == [] + ArgsIn(ts, i + 1, stop) == ArgsIn(ts, i + 1, stop);
    assert RedirsIn(ts, i, stop) == [] + RedirsIn(ts, i + 1, stop) == RedirsIn(ts, i + 1, stop);
  }

  lemma {:induction false} SimpleFromRef(ts: seq<Token>, i: nat)
    requires i <= |ts|
    requires i < |ts| && i > 0 && ts[i].kind == Word ==> !IsRedirOp(ts[i - 1].kind)
    ensures var stop := NextStop(ts, i);
            SimpleFrom(ts, i) == (SimpleCmd(ArgsIn(ts, i, stop), RedirsIn(ts, i, stop)), stop)
    decreases |ts| - i
  {
    if i == |ts| || EndsSimple(ts[i]) {
    } else if ts[i].kind == Word {
      SimpleFromRef(ts, i + 1);
      WordAgrees(ts, i);
    } else if i + 1 < |ts| && ts[i + 1].kind == Word {
      SimpleFromRef(ts, i + 2);
      RedirAgrees(ts, i);
    } else {
      SimpleFromRef(ts, i + 1);
      LoneOperatorAgrees(ts, i);
    }
  }

  // ---------------------------------------------------------------------------
  // The shape of the tree and when parse fails.
  // ---------------------------------------------------------------------------

  /** A pipeline as parse builds it: every left side is a simple command. */
  predicate RightLeaning(c: Command)
  {
    match c
    case Simple(_) => true
    case PipeCmd(l, r) => l.Simple? && RightLeaning(r)
  }

  /** The simple commands of a right-leaning pipeline, left to right. */
  function Stages(c: Command): seq<SimpleCmd>
  {
    match c
    case Simple(s) => [s]
    case PipeCmd(l, r) => (if l.Simple? then [l.cmd] else []) + Stages(r)
  }

  function PipeCount(ts: seq<Token>, i: nat): nat
    requires i <= |ts|
    decreases |ts| - i
  {
    if i == |ts| then 0 else (if ts[i].kind == Pipe then 1 else 0) + PipeCount(ts, i + 1)
  }

  predicate NoEof(ts: seq<Token>) { forall k :: 0 <= k < |ts| ==> ts[k].kind != Eof }

  /** The simple command stops at the next pipe, or at the end when there is none. */
  lemma {:induction false} SimpleStopsAtPipe(ts: seq<Token>, i: nat)
    requires i <= |ts| && NoEof(ts)
    ensures var j := SimpleFrom(ts, i).1;
            (j == |ts| || ts[j].kind == Pipe) && PipeCount(ts, i) == PipeCount(ts, j)
    decreases |ts| - i
  {
    if i == |ts| || EndsSimple(ts[i]) {
    } else if ts[i].kind == Word {
      SimpleStopsAtPipe(ts, i + 1);
    } else if i + 1 < |ts| && ts[i + 1].kind == Word {
      SimpleStopsAtPipe(ts, i + 2);
    } else {
      SimpleStopsAtPipe(ts, i + 1);
    }
  }

  /**
   * On tokens without an end marker, parse fails exactly when there is nothing to parse
   * or the last token is a pipe; otherwise it builds a right-leaning pipeline with one
   * stage per pipe plus one.
   */
  lemma {:induction false} ParseShape(ts: seq<Token>, i: nat)
    requires i <= |ts| && NoEof(ts)
    ensures Parse(ts, i).None? <==> i == |ts| || ts[|ts| - 1].kind == Pipe
    ensures Parse(ts, i).Some? ==>
              RightLeaning(Parse(ts, i).value) && |Stages(Parse(ts, i).value)| == PipeCount(ts, i) + 1
    decreases |ts| - i
  {
    if i < |ts| {
      var j := SimpleFrom(ts, i).1;
      SimpleStopsAtPipe(ts, i);
      if j < |ts| {
        ParseShape(ts, j + 1);
      } else {
        PipeCountEnd(ts, i);
      }
    }
  }

  lemma {:induction false} PipeCountEnd(ts: seq<Token>, i: nat)
    requires i <= |ts| && NoEof(ts)
    requires SimpleFrom(ts, i).1 == |ts|
    ensures i == |ts| || ts[|ts| - 1].kind != Pipe
    decreases |ts| - i
  {
    if i < |ts| && !EndsSimple(ts[i]) {
      if ts[i].kind == Word {
        PipeCountEnd(ts, i + 1);
      } else if i + 1 < |ts| && ts[i + 1].kind == Word {
        PipeCountEnd(ts, i + 2);
      } else {
        PipeCountEnd(ts, i + 1);
      }
    }
  }

  /** `ls -l | wc` parses to the two-stage pipeline of those words. */
  lemma TwoStagePipeline()
    ensures var ts := [Token("ls", Word, Unquoted), Token("-l", Word, Unquoted), Token("|", Pipe, Unquoted),
                       Token("wc", Word, Unquoted)];
            Parse(ts, 0) == Some(PipeCmd(Simple(SimpleCmd(["ls", "-l"], [])), Simple(SimpleCmd(["wc"], []))))
  {
    var ts := [Token("ls", Word, Unquoted), Token("-l", Word, Unquoted), Token("|", Pipe, Unquoted),
               Token("wc", Word, Unquoted)];
    assert SimpleFrom(ts, 2) == (SimpleCmd([], []), 2);
    assert SimpleFrom(ts, 1) == (SimpleCmd(["-l"] + [], []), 2);
    assert ["-l"] + [] == ["-l"];
    assert SimpleFrom(ts, 0) == (SimpleCmd(["ls"] + ["-l"], []), 2);
    assert ["ls"] + ["-l"] == ["ls", "-l"];
    assert SimpleFrom(ts, 4) == (SimpleCmd([], []), 4);
    assert SimpleFrom(ts, 3) == (SimpleCmd(["wc"] + [], []), 4);
    assert ["wc"] + [] == ["wc"];
  }

  /** `< in cat > out` reads the files in order and keeps `cat` as the only argument. */
  lemma RedirectionsAroundCommand()
    ensures var ts := [Token("<", RedirectIn, Unquoted), Token("in", Word, Unquoted), Token("cat", Word, Unquoted),
                       Token(">", RedirectOut, Unquoted), Token("out", Word, Unquoted)];
            Parse(ts, 0) == Some(Simple(SimpleCmd(["cat"], [Redir(RedirIn, "in"), Redir(RedirOut, "out")])))
  {
    var ts := [Token("<", RedirectIn, Unquoted), Token("in", Word, Unquoted), Token("cat", Word, Unquoted),
               Token(">", RedirectOut, Unquoted), Token("out", Word, Unquoted)];
    var rin := Redir(RedirIn, "in");
    var rout := Redir(RedirOut, "out");
    assert SimpleFrom(ts, 5) == (SimpleCmd([], []), 5);
    assert SimpleFrom(ts, 3) == (SimpleCmd([], [rout] + []), 5);
    assert [rout] + [] == [rout];
    assert SimpleFrom(ts, 2) == (SimpleCmd(["cat"] + [], [rout]), 5);
    assert ["cat"] + [] == ["cat"];
    assert SimpleFrom(ts, 0) == (SimpleCmd(["cat"], [rin] + [rout]), 5);
    assert [rin] + [rout] == [rin, rout];
  }
}
