/**
 * The lexer: one input line to an ordered sequence of tokens, or no sequence at all
 * when a quote is left open.
 *
 * The scanning methods (Lex, ExtractWord, ExtractQuoted) follow the C loops over the
 * shared index; each is proved equal to a specification function that reads the same
 * line recursively (TokensOf, WordFrom, QuoteEnd). What the lexer promises is then
 * proved about those functions, against an independent reading of the line as a
 * two-state quote automaton (StateAfter, Dequote, Openers).
 */
module Lexer {
  import opened Wrappers

  datatype TokenKind = Word | Pipe | RedirectIn | RedirectOut | Heredoc | Append | Eof

  /** How a word was written: the C quote_type 0, 1, 2 and 3. */
  datatype Quoting = Unquoted | Single | Double | Mixed

  datatype Token = Token(value: string, kind: TokenKind, quoting: Quoting)

  predicate IsWhitespace(c: char) { c == ' ' || c == '\t' || c == '\n' }

  predicate IsMetachar(c: char) { c == '|' || c == '<' || c == '>' }

  predicate IsQuote(c: char) { c == '\'' || c == '"' }

  /** A character that continues an unquoted run inside a word. */
  predicate IsPlain(c: char) { !IsWhitespace(c) && !IsMetachar(c) && !IsQuote(c) }

  /** Position `i` is where a word stops when no quote is open. */
  predicate IsWordEnd(line: string, i: nat)
    requires i <= |line|
  {
    i == |line| || IsWhitespace(line[i]) || IsMetachar(line[i])
  }

  /** The literal text of each operator token. */
  function OperatorText(k: TokenKind): string
  {
    match k
    case Pipe => "|"
    case RedirectIn => "<"
    case RedirectOut => ">"
    case Heredoc => "<<"
    case Append => ">>"
    case _ => ""
  }

  // ---------------------------------------------------------------------------
  // Specification functions: the line read recursively from an index.
  // ---------------------------------------------------------------------------

  function SkipWhitespace(line: string, i: nat): (j: nat)
    requires i <= |line|
    ensures i <= j <= |line|
    ensures forall k :: i <= k < j ==> IsWhitespace(line[k])
    ensures j == |line| || !IsWhitespace(line[j])
    decreases |line| - i
  {
    if i < |line| && IsWhitespace(line[i]) then SkipWhitespace(line, i + 1) else i
  }

  /** End of the unquoted run starting at `i`. */
  function RunEnd(line: string, i: nat): (j: nat)
    requires i <= |line|
    ensures i <= j <= |line|
    ensures forall k :: i <= k < j ==> IsPlain(line[k])
    ensures j == |line| || !IsPlain(line[j])
    decreases |line| - i
  {
    if i < |line| && IsPlain(line[i]) then RunEnd(line, i + 1) else i
  }

  /** The first position at or after `i` holding the quote `q`, or |line| if there is none. */
  function QuoteEnd(line: string, i: nat, q: char): (j: nat)
    requires i <= |line|
    ensures i <= j <= |line|
    ensures forall k :: i <= k < j ==> line[k] != q
    ensures j == |line| || line[j] == q
    decreases |line| - i
  {
    if i < |line| && line[i] != q then QuoteEnd(line, i + 1, q) else i
  }

  function QuoteClass(q: char): Quoting
  {
    if q == '\'' then Single else Double
  }

  /** The update of quote_type when a quoted run opened by `q` is met. */
  function AddQuote(qt: Quoting, q: char): Quoting
  {
    if qt == Unquoted then QuoteClass(q)
    else if qt != QuoteClass(q) then Mixed
    else qt
  }

  /** A word read so far: its text, its quoting and the position after it. */
  datatype Scanned = Scanned(text: string, quoting: Quoting, next: nat)

  /** `r` with `s` in front of its text. */
  function PrefixText(s: string, r: Option<Scanned>): Option<Scanned>
  {
    if r.None? then None else Some(r.value.(text := s + r.value.text))
  }

  /**
   * The piece of a word that starts at `i`: the contents of a quoted run, with the quoting
   * the run adds, or a run of plain characters. None when the quote is never closed.
   */
  function Piece(line: string, i: nat, qt: Quoting): (r: Option<Scanned>)
    requires i <= |line| && !IsWordEnd(line, i)
    ensures r.Some? ==> i < r.value.next <= |line|
  {
    if IsQuote(line[i]) then
      var j := QuoteEnd(line, i + 1, line[i]);
      if j == |line| then None else Some(Scanned(line[i + 1..j], AddQuote(qt, line[i]), j + 1))
    else
      var j := RunEnd(line, i);
      Some(Scanned(line[i..j], qt, j))
  }

  /**
   * The rest of the word from `i`, given the quoting `qt` gathered so far: its pieces in
   * turn, until whitespace or a metacharacter is reached outside quotes. None when a quote
   * is never closed.
   */
  function WordFrom(line: string, i: nat, qt: Quoting): (r: Option<Scanned>)
    requires i <= |line|
    ensures r.Some? ==> i <= r.value.next <= |line| && IsWordEnd(line, r.value.next)
    ensures r.Some? && !IsWordEnd(line, i) ==> r.value.next > i
    decreases |line| - i
  {
    if IsWordEnd(line, i) then Some(Scanned("", qt, i))
    else
      var p := Piece(line, i, qt);
      if p.None? then None
      else PrefixText(p.value.text, WordFrom(line, p.value.next, p.value.quoting))
  }

  /**
   * get_redirect_type: the redirection operator at `i` and the position after it.
   * A doubled `<` or `>` is taken as one two-character operator (longest match).
   */
  function RedirectAt(line: string, i: nat): (r: (TokenKind, nat))
    requires i < |line| && (line[i] == '<' || line[i] == '>')
    ensures i < r.1 <= |line| && line[i..r.1] == OperatorText(r.0)
    ensures r.0 == Heredoc <==> line[i] == '<' && i + 1 < |line| && line[i + 1] == '<'
    ensures r.0 == Append <==> line[i] == '>' && i + 1 < |line| && line[i + 1] == '>'
    ensures r.0 == RedirectIn <==> line[i] == '<' && !(i + 1 < |line| && line[i + 1] == '<')
    ensures r.0 == RedirectOut <==> line[i] == '>' && !(i + 1 < |line| && line[i + 1] == '>')
  {
    var doubled := i + 1 < |line| && line[i + 1] == line[i];
    if line[i] == '<' then (if doubled then (Heredoc, i + 2) else (RedirectIn, i + 1))
    else (if doubled then (Append, i + 2) else (RedirectOut, i + 1))
  }

  function Cons(t: Token, rest: Option<seq<Token>>): Option<seq<Token>>
  {
    if rest.None? then None else Some([t] + rest.value)
  }

  function Prepend(ts: seq<Token>, rest: Option<seq<Token>>): Option<seq<Token>>
  {
    if rest.None? then None else Some(ts + rest.value)
  }

  /** The token that starts at `k`, past the blanks, and the position after it; None on an unclosed quote. */
  function TokenAt(line: string, k: nat): (r: Option<(Token, nat)>)
    requires k < |line| && !IsWhitespace(line[k])
    ensures r.Some? ==> k < r.value.1 <= |line|
  {
    if line[k] == '|' then Some((Token("|", Pipe, Unquoted), k + 1))
    else if IsMetachar(line[k]) then
      var (kind, j) := RedirectAt(line, k);
      Some((Token(OperatorText(kind), kind, Unquoted), j))
    else
      match WordFrom(line, k, Unquoted)
      case None => None
      case Some(w) => Some((Token(w.text, Word, w.quoting), w.next))
  }

  /** The tokens of the line from position `i` on. */
  function TokensFrom(line: string, i: nat): Option<seq<Token>>
    requires i <= |line|
    decreases |line| - i
  {
    var k := SkipWhitespace(line, i);
    if k == |line| then Some([])
    else
      var next := TokenAt(line, k);
      if next.None? then None else Cons(next.value.0, TokensFrom(line, next.value.1))
  }

  function TokensOf(line: string): Option<seq<Token>>
  {
    TokensFrom(line, 0)
  }

  // ---------------------------------------------------------------------------
  // The scanning methods.
  // ---------------------------------------------------------------------------

  /**
   * extract_quoted_content: `line[i]` is the opening quote `q`. Returns the text up to
   * the matching quote and the position after it, or None when it is never closed.
   */
  method ExtractQuoted(line: string, i: nat, q: char) returns (r: Option<(string, nat)>)
    requires i < |line| && line[i] == q
    ensures r.None? <==> QuoteEnd(line, i + 1, q) == |line|
    ensures r.Some? ==> var j := QuoteEnd(line, i + 1, q);
                        r.value == (line[i + 1..j], j + 1)
  {
    var k := i + 1;
    var start := k;
    while k < |line| && line[k] != q
      invariant start <= k <= |line|
      invariant QuoteEnd(line, k, q) == QuoteEnd(line, start, q)
      decreases |line| - k
    {
      k := k + 1;
    }
    if k == |line| {
      return None;
    }
    r := Some((line[start..k], k + 1));
  }

  /** One pass of extract_word_with_quotes' loop: a quoted run or a run of plain characters. */
  method ReadPiece(line: string, i: nat, qt: Quoting) returns (r: Option<Scanned>)
    requires i <= |line| && !IsWordEnd(line, i)
    ensures r == Piece(line, i, qt)
  {
    if IsQuote(line[i]) {
      var content := ExtractQuoted(line, i, line[i]);
      if content.None? {
        return None;
      }
      r := Some(Scanned(content.value.0, AddQuote(qt, line[i]), content.value.1));
    } else {
      var j := i;
      while j < |line| && IsPlain(line[j])
        invariant i <= j <= |line|
        invariant RunEnd(line, j) == RunEnd(line, i)
        decreases |line| - j
      {
        j := j + 1;
      }
      r := Some(Scanned(line[i..j], qt, j));
    }
  }

  /** extract_word_with_quotes: the word at `start`, its quoting and the position after it. */
  method ExtractWord(line: string, start: nat) returns (r: Option<Scanned>)
    requires start <= |line|
    ensures r == WordFrom(line, start, Unquoted)
  {
    var result := "";
    var qt := Unquoted;
    var i := start;
    if WordFrom(line, start, Unquoted).Some? {
      assert "" + WordFrom(line, start, Unquoted).value.text == WordFrom(line, start, Unquoted).value.text;
    }
    while !IsWordEnd(line, i)
      invariant start <= i <= |line|
      invariant WordFrom(line, start, Unquoted) == PrefixText(result, WordFrom(line, i, qt))
      decreases |line| - i
    {
      var piece := ReadPiece(line, i, qt);
      if piece.None? {
        return None;
      }
      PrefixTwice(result, piece.value.text, WordFrom(line, piece.value.next, piece.value.quoting));
      result := result + piece.value.text;
      qt := piece.value.quoting;
      i := piece.value.next;
    }
    assert result + "" == result;
    r := Some(Scanned(result, qt, i));
  }

  lemma PrefixTwice(a: string, b: string, r: Option<Scanned>)
    ensures PrefixText(a, PrefixText(b, r)) == PrefixText(a + b, r)
  {
    if r.Some? {
      assert a + (b + r.value.text) == (a + b) + r.value.text;
    }
  }

  lemma PrependCons(ts: seq<Token>, t: Token, rest: Option<seq<Token>>)
    ensures Prepend(ts, Cons(t, rest)) == Prepend(ts + [t], rest)
  {
    if rest.Some? {
      assert ts + ([t] + rest.value) == (ts + [t]) + rest.value;
    }
  }

  /** lexer's skip over spaces and tabs: the tokens read from `i` are those read after them. */
  method SkipBlanks(line: string, i: nat) returns (j: nat)
    requires i <= |line|
    ensures j == SkipWhitespace(line, i)
    ensures TokensFrom(line, j) == TokensFrom(line, i)
  {
    j := i;
    while j < |line| && IsWhitespace(line[j])
      invariant i <= j <= |line|
      invariant SkipWhitespace(line, j) == SkipWhitespace(line, i)
      decreases |line| - j
    {
      j := j + 1;
    }
    assert SkipWhitespace(line, j) == j;
  }

  /** One pass of lexer's loop past the blanks: the token at `k` and the position after it. */
  method ReadToken(line: string, k: nat) returns (r: Option<(Token, nat)>)
    requires k < |line| && !IsWhitespace(line[k])
    ensures r == TokenAt(line, k)
  {
    if line[k] == '|' {
      r := Some((Token("|", Pipe, Unquoted), k + 1));
    } else if IsMetachar(line[k]) {
      var (kind, j) := RedirectAt(line, k);
      r := Some((Token(OperatorText(kind), kind, Unquoted), j));
    } else {
      var w := ExtractWord(line, k);
      if w.None? {
        return None;
      }
      r := Some((Token(w.value.text, Word, w.value.quoting), w.value.next));
    }
  }

  /** lexer: the tokens of the line in order, or None on an unclosed quote. */
  method Lex(line: string) returns (r: Option<seq<Token>>)
    ensures r == TokensOf(line)
  {
    var tokens: seq<Token> := [];
    var i := 0;
    if TokensOf(line).Some? {
      assert [] + TokensOf(line).value == TokensOf(line).value;
    }
    while i < |line|
      invariant i <= |line|
      invariant TokensOf(line) == Prepend(tokens, TokensFrom(line, i))
      decreases |line| - i
    {
      i := SkipBlanks(line, i);
      if i == |line| {
        break;
      }
      var next := ReadToken(line, i);
      if next.None? {
        return None;
      }
      var t := next.value.0;
      i := next.value.1;
      PrependCons(tokens, t, TokensFrom(line, i));
      tokens := tokens + [t];
    }
    assert tokens + [] == tokens;
    r := Some(tokens);
  }

  // ---------------------------------------------------------------------------
  // The line as a quote automaton: an independent account of quoting.
  // ---------------------------------------------------------------------------

  datatype QuoteState = Outside | Inside(q: char)

  /** One character read: a quote opens a run outside quotes, the same quote closes it. */
  function QStep(st: QuoteState, c: char): QuoteState
  {
    match st
    case Outside => if IsQuote(c) then Inside(c) else Outside
    case Inside(q) => if c == q then Outside else st
  }

  function StateAfter(line: string, i: nat, st: QuoteState): QuoteState
    requires i <= |line|
    decreases |line| - i
  {
    if i == |line| then st else StateAfter(line, i + 1, QStep(st, line[i]))
  }

  /** The line ends inside a quoted run. */
  predicate HasUnclosedQuote(line: string)
  {
    StateAfter(line, 0, Outside) != Outside
  }

  /** The characters of line[i..j] read from state `st`, without the quotes that open or close runs. */
  function Dequote(line: string, i: nat, j: nat, st: QuoteState): string
    requires i <= j <= |line|
    decreases j - i
  {
    if i == j then ""
    else (if QStep(st, line[i]) == st then [line[i]] else "") + Dequote(line, i + 1, j, QStep(st, line[i]))
  }

  /** The quote characters that open a quoted run in line[i..j], read from state `st`. */
  function Openers(line: string, i: nat, j: nat, st: QuoteState): set<char>
    requires i <= j <= |line|
    decreases j - i
  {
    if i == j then {}
    else (if st == Outside && IsQuote(line[i]) then {line[i]} else {}) + Openers(line, i + 1, j, QStep(st, line[i]))
  }

  /** The quote kinds a quoting class records. */
  function Kinds(qt: Quoting): set<char>
  {
    match qt
    case Unquoted => {}
    case Single => {'\''}
    case Double => {'"'}
    case Mixed => {'\'', '"'}
  }

  /** The quoting class of a word whose quoted runs used exactly the quotes in `s`. */
  function ClassOf(s: set<char>): Quoting
  {
    if '\'' in s && '"' in s then Mixed
    else if '\'' in s then Single
    else if '"' in s then Double
    else Unquoted
  }

  lemma {:induction false} OutsideSkipsNonQuotes(line: string, i: nat, j: nat, n: nat)
    requires i <= j <= n <= |line|
    requires forall k :: i <= k < j ==> !IsQuote(line[k])
    ensures StateAfter(line, i, Outside) == StateAfter(line, j, Outside)
    ensures Dequote(line, i, n, Outside) == line[i..j] + Dequote(line, j, n, Outside)
    ensures Openers(line, i, n, Outside) == Openers(line, j, n, Outside)
    decreases j - i
  {
    if i < j {
      OutsideSkipsNonQuotes(line, i + 1, j, n);
      assert line[i..j] == [line[i]] + line[i + 1..j];
    }
  }

  lemma {:induction false} InsideSkipsToClose(line: string, i: nat, j: nat, n: nat, q: char)
    requires i <= j < n <= |line| && line[j] == q
    requires forall k :: i <= k < j ==> line[k] != q
    ensures StateAfter(line, i, Inside(q)) == StateAfter(line, j + 1, Outside)
    ensures Dequote(line, i, n, Inside(q)) == line[i..j] + Dequote(line, j + 1, n, Outside)
    ensures Openers(line, i, n, Inside(q)) == Openers(line, j + 1, n, Outside)
    decreases j - i
  {
    if i < j {
      InsideSkipsToClose(line, i + 1, j, n, q);
      assert line[i..j] == [line[i]] + line[i + 1..j];
    }
  }

  lemma {:induction false} InsideToEnd(line: string, i: nat, q: char)
    requires i <= |line|
    requires forall k :: i <= k < |line| ==> line[k] != q
    ensures StateAfter(line, i, Inside(q)) == Inside(q)
    decreases |line| - i
  {
    if i < |line| {
      InsideToEnd(line, i + 1, q);
    }
  }

  lemma AddQuoteKinds(qt: Quoting, q: char)
    requires IsQuote(q)
    ensures Kinds(AddQuote(qt, q)) == Kinds(qt) + {q}
  {
  }

  /** A piece fails only with a quote left open; one that is read leaves the quote state as it found it. */
  lemma PieceBalanced(line: string, i: nat, qt: Quoting)
    requires i <= |line| && !IsWordEnd(line, i)
    ensures Piece(line, i, qt).None? ==> StateAfter(line, i, Outside) != Outside
    ensures Piece(line, i, qt).Some? ==> StateAfter(line, i, Outside) == StateAfter(line, Piece(line, i, qt).value.next, Outside)
  {
    if IsQuote(line[i]) {
      var q := line[i];
      var j := QuoteEnd(line, i + 1, q);
      if j == |line| {
        InsideToEnd(line, i + 1, q);
      } else {
        InsideSkipsToClose(line, i + 1, j, j + 1, q);
      }
    } else {
      OutsideSkipsNonQuotes(line, i, RunEnd(line, i), RunEnd(line, i));
    }
  }

  /** A piece's text is its span without the quotes around it. */
  lemma PieceText(line: string, i: nat, qt: Quoting, n: nat)
    requires i <= |line| && !IsWordEnd(line, i)
    requires Piece(line, i, qt).Some? && Piece(line, i, qt).value.next <= n <= |line|
    ensures Dequote(line, i, n, Outside) == Piece(line, i, qt).value.text + Dequote(line, Piece(line, i, qt).value.next, n, Outside)
  {
    var p := Piece(line, i, qt).value;
    if IsQuote(line[i]) {
      var j := QuoteEnd(line, i + 1, line[i]);
      assert p.text == line[i + 1..j] && p.next == j + 1;
      InsideSkipsToClose(line, i + 1, j, n, line[i]);
    } else {
      var j := RunEnd(line, i);
      assert p.text == line[i..j] && p.next == j;
      OutsideSkipsNonQuotes(line, i, j, n);
    }
  }

  /** The quoting after a piece adds exactly the quote that opened it, if any. */
  lemma PieceQuoting(line: string, i: nat, qt: Quoting, n: nat)
    requires i <= |line| && !IsWordEnd(line, i)
    requires Piece(line, i, qt).Some? && Piece(line, i, qt).value.next <= n <= |line|
    ensures Kinds(qt) + Openers(line, i, n, Outside)
            == Kinds(Piece(line, i, qt).value.quoting) + Openers(line, Piece(line, i, qt).value.next, n, Outside)
  {
    var p := Piece(line, i, qt).value;
    if IsQuote(line[i]) {
      InsideSkipsToClose(line, i + 1, QuoteEnd(line, i + 1, line[i]), n, line[i]);
      QuotedRunKinds(line, i, n, qt, Openers(line, p.next, n, Outside));
    } else {
      OutsideSkipsNonQuotes(line, i, RunEnd(line, i), n);
    }
  }

  lemma QuotedRunKinds(line: string, i: nat, n: nat, qt: Quoting, rest: set<char>)
    requires i < n <= |line| && IsQuote(line[i])
    requires Openers(line, i + 1, n, Inside(line[i])) == rest
    ensures Kinds(AddQuote(qt, line[i])) + rest == Kinds(qt) + Openers(line, i, n, Outside)
  {
    AddQuoteKinds(qt, line[i]);
  }

  /** A quoted piece makes the word quoted; an unquoted one is a non-empty run of plain characters. */
  lemma PieceShape(line: string, i: nat, qt: Quoting)
    requires i <= |line| && !IsWordEnd(line, i)
    ensures Piece(line, i, qt).Some? ==>
              var p := Piece(line, i, qt).value;
              (qt != Unquoted ==> p.quoting != Unquoted) &&
              (p.quoting == Unquoted ==> |p.text| > 0 && forall k :: 0 <= k < |p.text| ==> IsPlain(p.text[k]))
  {
    if !IsQuote(line[i]) {
      var j := RunEnd(line, i);
      assert forall k :: 0 <= k < j - i ==> line[i..j][k] == line[i + k];
    }
  }

  /** A word that fails ends the line inside a quoted run; one that succeeds leaves the quote state as it found it. */
  lemma {:induction false} WordBalanced(line: string, i: nat, qt: Quoting)
    requires i <= |line|
    ensures WordFrom(line, i, qt).None? ==> StateAfter(line, i, Outside) != Outside
    ensures WordFrom(line, i, qt).Some? ==>
              StateAfter(line, i, Outside) == StateAfter(line, WordFrom(line, i, qt).value.next, Outside)
    decreases |line| - i
  {
    if !IsWordEnd(line, i) {
      PieceBalanced(line, i, qt);
      var p := Piece(line, i, qt);
      if p.Some? {
        WordBalanced(line, p.value.next, p.value.quoting);
      }
    }
  }

  /** A word's text is its source span with the quotes that delimit quoted runs dropped. */
  lemma {:induction false} WordText(line: string, i: nat, qt: Quoting)
    requires i <= |line|
    ensures WordFrom(line, i, qt).Some? ==>
              var w := WordFrom(line, i, qt).value;
              w.text == Dequote(line, i, w.next, Outside)
    decreases |line| - i
  {
    var r := WordFrom(line, i, qt);
    if r.Some? && !IsWordEnd(line, i) {
      var p := Piece(line, i, qt).value;
      var w := WordFrom(line, p.next, p.quoting).value;
      WordText(line, p.next, p.quoting);
      PieceText(line, i, qt, r.value.next);
      assert r.value.text == p.text + w.text && r.value.next == w.next;
      assert p.text + (w.text) == p.text + Dequote(line, p.next, w.next, Outside);
    }
  }

  /** A word's quoting class records exactly which quote characters opened a quoted run. */
  lemma {:induction false} WordQuoting(line: string, i: nat, qt: Quoting)
    requires i <= |line|
    ensures WordFrom(line, i, qt).Some? ==>
              var w := WordFrom(line, i, qt).value;
              w.quoting == ClassOf(Kinds(qt) + Openers(line, i, w.next, Outside))
    decreases |line| - i
  {
    var r := WordFrom(line, i, qt);
    if r.None? {
    } else if IsWordEnd(line, i) {
      assert Kinds(qt) + {} == Kinds(qt);
    } else {
      var p := Piece(line, i, qt).value;
      var w := WordFrom(line, p.next, p.quoting).value;
      assert r.value.quoting == w.quoting && r.value.next == w.next;
      WordQuoting(line, p.next, p.quoting);
      PieceQuoting(line, i, qt, w.next);
    }
  }

  /**
   * Once a quoted run has been seen the word is quoted; a word read as unquoted is made of
   * plain characters only, and is not empty when it starts at a word character.
   */
  lemma {:induction false} WordShape(line: string, i: nat, qt: Quoting)
    requires i <= |line|
    ensures WordFrom(line, i, qt).Some? ==>
              var w := WordFrom(line, i, qt).value;
              (qt != Unquoted ==> w.quoting != Unquoted) &&
              (w.quoting == Unquoted ==> forall k :: 0 <= k < |w.text| ==> IsPlain(w.text[k])) &&
              (w.quoting == Unquoted && !IsWordEnd(line, i) ==> |w.text| > 0)
    decreases |line| - i
  {
    var r := WordFrom(line, i, qt);
    if r.Some? && !IsWordEnd(line, i) {
      var p := Piece(line, i, qt).value;
      var w := WordFrom(line, p.next, p.quoting).value;
      PieceShape(line, i, qt);
      WordShape(line, p.next, p.quoting);
      assert r.value.text == p.text + w.text && r.value.quoting == w.quoting;
      if w.quoting == Unquoted {
        forall k | 0 <= k < |r.value.text|
          ensures IsPlain(r.value.text[k])
        {
          if k < |p.text| {
            assert r.value.text[k] == p.text[k];
          } else {
            assert r.value.text[k] == w.text[k - |p.text|];
          }
        }
      }
    }
  }

  // ---------------------------------------------------------------------------
  // What the lexer promises.
  // ---------------------------------------------------------------------------

  /** A token fails only with a quote left open, and one that is read leaves the quote state as it found it. */
  lemma TokenBalanced(line: string, k: nat)
    requires k < |line| && !IsWhitespace(line[k])
    ensures TokenAt(line, k).None? ==> StateAfter(line, k, Outside) != Outside
    ensures TokenAt(line, k).Some? ==> StateAfter(line, k, Outside) == StateAfter(line, TokenAt(line, k).value.1, Outside)
  {
    if line[k] == '|' {
      OutsideSkipsNonQuotes(line, k, k + 1, k + 1);
    } else if IsMetachar(line[k]) {
      var j := RedirectAt(line, k).1;
      assert forall m :: k <= m < j ==> line[m] == line[k];
      OutsideSkipsNonQuotes(line, k, j, j);
    } else {
      WordBalanced(line, k, Unquoted);
    }
  }

  /** The tokens read from `i` fail exactly when the rest of the line leaves a quote open. */
  lemma {:induction false} TokensFailIffOpen(line: string, i: nat)
    requires i <= |line|
    ensures TokensFrom(line, i).None? <==> StateAfter(line, i, Outside) != Outside
    decreases |line| - i
  {
    var k := SkipWhitespace(line, i);
    OutsideSkipsNonQuotes(line, i, k, k);
    if k < |line| {
      TokenBalanced(line, k);
      var next := TokenAt(line, k);
      if next.Some? {
        TokensFailIffOpen(line, next.value.1);
      }
    }
  }

  /** lexer returns no token list exactly when the line ends inside a quoted run. */
  lemma LexFailsIffUnclosed(line: string)
    ensures TokensOf(line).None? <==> HasUnclosedQuote(line)
  {
    TokensFailIffOpen(line, 0);
  }

  /** A line of whitespace only, and no other line, gives the empty token list. */
  lemma BlankLineNoTokens(line: string)
    ensures TokensOf(line) == Some([]) <==> forall k :: 0 <= k < |line| ==> IsWhitespace(line[k])
  {
    var k := SkipWhitespace(line, 0);
    if k < |line| {
      assert !IsWhitespace(line[k]);
    }
  }

  /**
   * A token as the lexer builds it: never the end marker, an operator carrying its own
   * text unquoted, and an unquoted word a non-empty run of plain characters.
   */
  predicate WellFormed(t: Token)
  {
    t.kind != Eof &&
    (t.kind != Word ==> t.value == OperatorText(t.kind) && t.quoting == Unquoted) &&
    (t.kind == Word && t.quoting == Unquoted ==>
       |t.value| > 0 && forall k :: 0 <= k < |t.value| ==> IsPlain(t.value[k]))
  }

  /** The token read at `k` is well formed. */
  lemma TokenWellFormed(line: string, k: nat)
    requires k < |line| && !IsWhitespace(line[k])
    ensures TokenAt(line, k).Some? ==> WellFormed(TokenAt(line, k).value.0)
  {
    if line[k] != '|' && !IsMetachar(line[k]) {
      WordShape(line, k, Unquoted);
    }
  }

  lemma {:induction false} TokensWellFormed(line: string, i: nat)
    requires i <= |line|
    ensures TokensFrom(line, i).Some? ==>
              forall k :: 0 <= k < |TokensFrom(line, i).value| ==> WellFormed(TokensFrom(line, i).value[k])
    decreases |line| - i
  {
    var k := SkipWhitespace(line, i);
    if k < |line| {
      TokenWellFormed(line, k);
      var next := TokenAt(line, k);
      if next.Some? {
        TokensWellFormed(line, next.value.1);
      }
    }
  }
}
