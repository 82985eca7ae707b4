/**
 * The expander: `$NAME` and `$?` in word tokens replaced by the variable's value and
 * the last exit status, then the words that became empty dropped from the list.
 *
 * ExpandVariable follows the C loop over the word and is proved equal to Expand, which
 * reads the word recursively; the promised behaviour is proved about Expand.
 */
module Expander {
  import opened Wrappers
  import opened Libft
  import opened Lexer
  import opened EnvStore

  predicate IsNameStart(c: char) { IsAlpha(c) || c == '_' }

  predicate IsNameChar(c: char) { IsAlnum(c) || c == '_' }

  /** A variable name: a letter or '_' and then letters, digits and '_'. */
  predicate IsName(s: string)
  {
    |s| > 0 && IsNameStart(s[0]) && forall k :: 0 < k < |s| ==> IsNameChar(s[k])
  }

  /** End of the run of name characters starting at `i`. */
  function NameEnd(s: string, i: nat): (j: nat)
    requires i <= |s|
    ensures i <= j <= |s|
    ensures forall k :: i <= k < j ==> IsNameChar(s[k])
    ensures j == |s| || !IsNameChar(s[j])
    decreases |s| - i
  {
    if i < |s| && IsNameChar(s[i]) then NameEnd(s, i + 1) else i
  }

  /** The value `$NAME` stands for: the variable's value, or nothing when it is unset. */
  function ValueOf(entries: seq<Entry>, name: string): string
  {
    Lookup(entries, name).GetOr("")
  }

  /**
   * One round of expand_variable at `i`: the text it appends and where it goes on. A `$`
   * followed by `?` gives the status in decimal, followed by a name start gives the longest
   * name's value, at the very end stays `$`, and followed by any other character stays as
   * written together with that character. Any other character is copied.
   */
  function Step(s: string, i: nat, entries: seq<Entry>, status: int): (r: (string, nat))
    requires i < |s|
    ensures i < r.1 <= |s|
  {
    if s[i] != '$' then ([s[i]], i + 1)
    else if i + 1 == |s| then ("$", i + 1)
    else if s[i + 1] == '?' then (Itoa(status), i + 2)
    else if IsNameStart(s[i + 1]) then
      var j := NameEnd(s, i + 1);
      (ValueOf(entries, s[i + 1..j]), j)
    else (['$', s[i + 1]], i + 2)
  }

  /** expand_variable from index `i`: the rounds up to the end of the word, joined. */
  function ExpandFrom(s: string, i: nat, entries: seq<Entry>, status: int): string
    requires i <= |s|
    decreases |s| - i
  {
    if i == |s| then ""
    else
      var r := Step(s, i, entries, status);
      r.0 + ExpandFrom(s, r.1, entries, status)
  }

  function Expand(s: string, entries: seq<Entry>, status: int): string
  {
    ExpandFrom(s, 0, entries, status)
  }

  /** expand_string: a word written in single quotes only is left alone; all others expand. */
  function ExpandWord(s: string, q: Quoting, entries: seq<Entry>, status: int): string
  {
    if q == Single then s else Expand(s, entries, status)
  }

  function ExpandToken(t: Token, entries: seq<Entry>, status: int): Token
  {
    if t.kind == Word then t.(value := ExpandWord(t.value, t.quoting, entries, status)) else t
  }

  /** expand_tokens: every token in place, words expanded and operators untouched. */
  function ExpandAll(ts: seq<Token>, entries: seq<Entry>, status: int): (r: seq<Token>)
    ensures |r| == |ts|
    ensures forall k :: 0 <= k < |ts| ==>
              r[k].kind == ts[k].kind && r[k].quoting == ts[k].quoting &&
              (ts[k].kind != Word || ts[k].quoting == Single ==> r[k] == ts[k])
  {
    seq(|ts|, k requires 0 <= k < |ts| => ExpandToken(ts[k], entries, status))
  }

  predicate IsEmptyWord(t: Token) { t.kind == Word && |t.value| == 0 }

  /** compact_empty_tokens: the list without its empty words, order kept. */
  function Compact(ts: seq<Token>): (r: seq<Token>)
    ensures |r| <= |ts|
    ensures forall k :: 0 <= k < |r| ==> !IsEmptyWord(r[k]) && r[k] in ts
    ensures forall t :: t in ts && !IsEmptyWord(t) ==> t in r
  {
    if |ts| == 0 then []
    else
      var rest := Compact(ts[1..]);
      assert forall t :: t in ts[1..] ==> t in ts;
      if IsEmptyWord(ts[0]) then rest else [ts[0]] + rest
  }

  // ---------------------------------------------------------------------------
  // The C loops.
  // ---------------------------------------------------------------------------

  lemma Regroup(r: string, piece: string, rest: string)
    ensures r + (piece + rest) == (r + piece) + rest
  {
  }

  /** expand_variable over the store `env`. */
  method ExpandVariable(s: string, env: Env, status: int) returns (r: string)
    ensures r == Expand(s, env.entries, status)
  {
    r := "";
    var i := 0;
    assert "" + Expand(s, env.entries, status) == Expand(s, env.entries, status);
    while i < |s|
      invariant i <= |s|
      invariant r + ExpandFrom(s, i, env.entries, status) == Expand(s, env.entries, status)
      decreases |s| - i
    {
      var piece: string;
      ghost var i0 := i;
      if s[i] == '$' {
        i := i + 1;
        if i < |s| && s[i] == '?' {
          piece := Itoa(status);
          i := i + 1;
        } else if i < |s| && IsNameStart(s[i]) {
          var start := i;
          while i < |s| && IsNameChar(s[i])
            invariant start <= i <= |s|
            invariant NameEnd(s, i) == NameEnd(s, start)
            decreases |s| - i
          {
            i := i + 1;
          }
          var value := env.Get(s[start..i]);
          piece := if value.Some? then value.value else "";
        } else if i == |s| {
          piece := "$";
        } else {
          piece := ['$', s[i]];
          i := i + 1;
        }
      } else {
        piece := [s[i]];
        i := i + 1;
      }
      assert Step(s, i0, env.entries, status) == (piece, i);
      Regroup(r, piece, ExpandFrom(s, i, env.entries, status));
      r := r + piece;
    }
    assert r + "" == r;
  }

  /** expand_string. */
  method ExpandString(s: string, env: Env, status: int, q: Quoting) returns (r: string)
    ensures r == ExpandWord(s, q, env.entries, status)
  {
    if q == Single {
      r := s;
    } else {
      r := ExpandVariable(s, env, status);
    }
  }

  /** expand_tokens: each word token's value replaced, one node after the other. */
  method ExpandTokens(tokens: seq<Token>, env: Env, status: int) returns (r: seq<Token>)
    ensures r == ExpandAll(tokens, env.entries, status)
  {
    r := tokens;
    var i := 0;
    while i < |r|
      invariant |r| == |tokens| && i <= |r|
      invariant forall k :: 0 <= k < i ==> r[k] == ExpandToken(tokens[k], env.entries, status)
      invariant forall k :: i <= k < |r| ==> r[k] == tokens[k]
    {
      if r[i].kind == Word {
        var expanded := ExpandString(r[i].value, env, status, r[i].quoting);
        r := r[i := r[i].(value := expanded)];
      }
      i := i + 1;
    }
  }

  /** One node of the pass: an empty word is unlinked, any other token kept after those kept before it. */
  lemma CompactStep(r: seq<Token>, ts: seq<Token>, i: nat)
    requires i < |ts|
    ensures r + Compact(ts[i..]) == (if IsEmptyWord(ts[i]) then r else r + [ts[i]]) + Compact(ts[i + 1..])
  {
    assert ts[i..][1..] == ts[i + 1..];
    if !IsEmptyWord(ts[i]) {
      assert Compact(ts[i..]) == [ts[i]] + Compact(ts[i + 1..]);
      assert r + ([ts[i]] + Compact(ts[i + 1..])) == (r + [ts[i]]) + Compact(ts[i + 1..]);
    }
  }

  /** compact_empty_tokens: the nodes holding empty words unlinked in one pass. */
  method CompactEmptyTokens(tokens: seq<Token>) returns (r: seq<Token>)
    ensures r == Compact(tokens)
  {
    r := [];
    var i := 0;
    while i < |tokens|
      invariant i <= |tokens|
      invariant r + Compact(tokens[i..]) == Compact(tokens)
    {
      CompactStep(r, tokens, i);
      if !IsEmptyWord(tokens[i]) {
        r := r + [tokens[i]];
      }
      i := i + 1;
    }
    assert r + [] == r;
  }

  // ---------------------------------------------------------------------------
  // What expansion promises.
  // ---------------------------------------------------------------------------

  /** A word without `$` expands to itself. */
  lemma {:induction false} NoDollarUnchanged(s: string, i: nat, entries: seq<Entry>, status: int)
    requires i <= |s| && '$' !in s[i..]
    ensures ExpandFrom(s, i, entries, status) == s[i..]
    decreases |s| - i
  {
    if i < |s| {
      assert s[i] == s[i..][0];
      assert s[i + 1..] == s[i..][1..];
      NoDollarUnchanged(s, i + 1, entries, status);
      assert s[i..] == [s[i]] + s[i + 1..];
    }
  }

  /** `$?` stands for the last status in decimal, and ft_atoi reads that status back. */
  lemma StatusExpands(rest: string, entries: seq<Entry>, status: int)
    ensures Expand("$?" + rest, entries, status) == Itoa(status) + Expand(rest, entries, status)
    ensures Atoi(Expand("$?", entries, status)) == status
  {
    var s := "$?" + rest;
    assert Step(s, 0, entries, status) == (Itoa(status), 2);
    ShiftFrom("$?", rest, 0, entries, status);
    assert Step("$?", 0, entries, status) == (Itoa(status), 2);
    assert Expand("$?", entries, status) == Itoa(status) + ExpandFrom("$?", 2, entries, status);
    assert Itoa(status) + "" == Itoa(status);
    AtoiOfItoa(status);
  }

  /** `$NAME` stands for the variable's whole value, or for nothing when it is unset. */
  lemma NameExpands(name: string, entries: seq<Entry>, status: int)
    requires IsName(name)
    ensures Expand("$" + name, entries, status) == ValueOf(entries, name)
  {
    var s := "$" + name;
    assert forall k :: 1 <= k < |s| ==> s[k] == name[k - 1];
    NameRunTo(s, 1, |s|);
    assert s[1..|s|] == name;
    assert Step(s, 0, entries, status) == (ValueOf(entries, name), |s|);
    assert Expand(s, entries, status) == ValueOf(entries, name) + ExpandFrom(s, |s|, entries, status);
    assert ValueOf(entries, name) + "" == ValueOf(entries, name);
  }

  /** The name is the longest run: the characters after it are not part of it. */
  lemma NameThenSeparator(name: string, rest: string, entries: seq<Entry>, status: int)
    requires IsName(name) && (|rest| == 0 || !IsNameChar(rest[0]))
    ensures Expand("$" + name + rest, entries, status)
            == ValueOf(entries, name) + Expand(rest, entries, status)
  {
    var s := "$" + name + rest;
    var n := 1 + |name|;
    assert forall k :: 1 <= k < n ==> s[k] == name[k - 1];
    NameRunTo(s, 1, n);
    assert s[1..n] == name;
    assert Step(s, 0, entries, status) == (ValueOf(entries, name), n);
    assert s == ("$" + name) + rest;
    ShiftFrom("$" + name, rest, 0, entries, status);
  }

  /** `$` before any character that starts neither `$?` nor a name (`$$`, `$1`, `$-`) is kept with that character. */
  lemma DollarOtherKept(c: char, rest: string, entries: seq<Entry>, status: int)
    requires !IsNameStart(c) && c != '?'
    ensures Expand("$" + [c] + rest, entries, status) == "$" + [c] + Expand(rest, entries, status)
  {
    var s := "$" + [c] + rest;
    assert s[0] == '$' && s[1] == c;
    assert Step(s, 0, entries, status) == (['$', c], 2);
    ShiftFrom("$" + [c], rest, 0, entries, status);
    assert s == ("$" + [c]) + rest;
  }

  lemma {:induction false} NameRunTo(s: string, i: nat, j: nat)
    requires i <= j <= |s|
    requires forall k :: i <= k < j ==> IsNameChar(s[k])
    requires j == |s| || !IsNameChar(s[j])
    ensures NameEnd(s, i) == j
    decreases j - i
  {
    if i < j {
      NameRunTo(s, i + 1, j);
    }
  }

  /** A `$` with nothing after it is kept as written, whatever precedes it. */
  lemma TrailingDollarKept(s: string, entries: seq<Entry>, status: int)
    ensures Expand(s + "$", entries, status) == Expand(s, entries, status) + "$"
  {
    TrailingDollarFrom(s, 0, entries, status);
  }

  lemma {:induction false} TrailingDollarFrom(s: string, i: nat, entries: seq<Entry>, status: int)
    requires i <= |s|
    ensures ExpandFrom(s + "$", i, entries, status) == ExpandFrom(s, i, entries, status) + "$"
    decreases |s| - i
  {
    var t := s + "$";
    if i == |s| {
      assert Step(t, i, entries, status) == ("$", i + 1);
    } else if s[i] == '$' && i + 1 == |s| {
      assert Step(t, i, entries, status) == (['$', '$'], i + 2);
      assert ['$', '$'] + "" == "$" + "$";
    } else {
      StepInPrefix(s, "$", i, entries, status);
      var r := Step(s, i, entries, status);
      TrailingDollarFrom(s, r.1, entries, status);
      assert r.0 + (ExpandFrom(s, r.1, entries, status) + "$")
          == (r.0 + ExpandFrom(s, r.1, entries, status)) + "$";
    }
  }

  /**
   * One round inside `a` reads the same in `a + b`, unless it is a `$` that ends `a`.
   * A `$` never continues a name, so the name run stops at the end of `a` whenever `b`
   * starts with '$' or with a character that ends every `$` form.
   */
  lemma StepInPrefix(a: string, b: string, i: nat, entries: seq<Entry>, status: int)
    requires i < |a| && !(a[i] == '$' && i + 1 == |a|)
    requires |b| == 0 || b[0] == '$' || IsBreak(b[0])
    ensures Step(a + b, i, entries, status) == Step(a, i, entries, status)
  {
    var t := a + b;
    if a[i] == '$' && IsNameStart(a[i + 1]) {
      var j := NameEnd(a, i + 1);
      assert forall k :: i + 1 <= k < j ==> t[k] == a[k];
      assert j == |a| ==> j == |t| || t[j] == b[0];
      NameRunTo(t, i + 1, j);
      assert t[i + 1..j] == a[i + 1..j];
    }
  }

  /** A round in the part after `p` reads the same as in the word on its own, shifted by |p|. */
  lemma StepShift(p: string, s: string, i: nat, entries: seq<Entry>, status: int)
    requires i < |s|
    ensures Step(p + s, |p| + i, entries, status)
            == (Step(s, i, entries, status).0, |p| + Step(s, i, entries, status).1)
  {
    var t := p + s;
    var n := |p|;
    if s[i] == '$' && i + 1 < |s| && IsNameStart(s[i + 1]) {
      var j := NameEnd(s, i + 1);
      assert forall k :: n + i + 1 <= k < n + j ==> t[k] == s[k - n];
      NameRunTo(t, n + i + 1, n + j);
      assert t[n + i + 1..n + j] == s[i + 1..j];
    }
  }

  /**
   * A character that ends every `$` form before it and starts none of its own: the
   * expansion of a word split in front of such a character is the two expansions joined.
   */
  predicate IsBreak(c: char) { !IsNameChar(c) && c != '?' && c != '$' }

  lemma ExpandSplits(a: string, b: string, entries: seq<Entry>, status: int)
    requires |b| == 0 || IsBreak(b[0])
    ensures Expand(a + b, entries, status) == Expand(a, entries, status) + Expand(b, entries, status)
  {
    SplitAt(a, b, 0, entries, status);
    ShiftFrom(a, b, 0, entries, status);
    assert |a| + 0 == |a|;
  }

  lemma {:induction false} SplitAt(a: string, b: string, i: nat, entries: seq<Entry>, status: int)
    requires i <= |a|
    requires |b| == 0 || IsBreak(b[0])
    ensures ExpandFrom(a + b, i, entries, status)
            == ExpandFrom(a, i, entries, status) + ExpandFrom(a + b, |a|, entries, status)
    decreases |a| - i
  {
    var t := a + b;
    var tail := ExpandFrom(t, |a|, entries, status);
    if i == |a| {
    } else if a[i] == '$' && i + 1 == |a| {
      DollarAtJoin(a, b, entries, status);
    } else {
      StepInPrefix(a, b, i, entries, status);
      var r := Step(a, i, entries, status);
      SplitAt(a, b, r.1, entries, status);
      assert r.0 + (ExpandFrom(a, r.1, entries, status) + tail)
          == (r.0 + ExpandFrom(a, r.1, entries, status)) + tail;
    }
  }

  /** A `$` that ends `a` stays literal, whether or not a break character follows it. */
  lemma DollarAtJoin(a: string, b: string, entries: seq<Entry>, status: int)
    requires |a| > 0 && a[|a| - 1] == '$'
    requires |b| == 0 || IsBreak(b[0])
    ensures ExpandFrom(a + b, |a| - 1, entries, status)
            == ExpandFrom(a, |a| - 1, entries, status) + ExpandFrom(a + b, |a|, entries, status)
  {
    var t := a + b;
    var i := |a| - 1;
    if |b| > 0 {
      assert Step(t, i, entries, status) == (['$', b[0]], i + 2);
      assert Step(t, |a|, entries, status) == ([b[0]], |a| + 1);
      assert ['$', b[0]] + ExpandFrom(t, i + 2, entries, status)
          == "$" + ([b[0]] + ExpandFrom(t, i + 2, entries, status));
    }
  }

  /** Expanding the part of `p + s` after `p` is expanding `s`. */
  lemma {:induction false} ShiftFrom(p: string, s: string, i: nat, entries: seq<Entry>, status: int)
    requires i <= |s|
    ensures ExpandFrom(p + s, |p| + i, entries, status) == ExpandFrom(s, i, entries, status)
    decreases |s| - i
  {
    if i < |s| {
      var r := Step(s, i, entries, status);
      StepShift(p, s, i, entries, status);
      ShiftFrom(p, s, r.1, entries, status);
      assert ExpandFrom(p + s, |p| + i, entries, status) == r.0 + ExpandFrom(p + s, |p| + r.1, entries, status);
    }
  }

  /** Dropping empty words twice drops nothing more. */
  lemma {:induction false} CompactIdempotent(ts: seq<Token>)
    ensures Compact(Compact(ts)) == Compact(ts)
  {
    NoEmptyCompactsToItself(Compact(ts));
  }

  /** A list without empty words is its own compaction. */
  lemma {:induction false} NoEmptyCompactsToItself(ts: seq<Token>)
    requires forall k :: 0 <= k < |ts| ==> !IsEmptyWord(ts[k])
    ensures Compact(ts) == ts
    decreases |ts|
  {
    if |ts| > 0 {
      NoEmptyCompactsToItself(ts[1..]);
      assert [ts[0]] + ts[1..] == ts;
    }
  }

  /** Compaction keeps every token that is not an empty word, in the original order. */
  lemma {:induction false} CompactOfAppend(a: seq<Token>, b: seq<Token>)
    ensures Compact(a + b) == Compact(a) + Compact(b)
    decreases |a|
  {
    if |a| > 0 {
      assert (a + b)[1..] == a[1..] + b;
      CompactOfAppend(a[1..], b);
    } else {
      assert a + b == b;
    }
  }
}
