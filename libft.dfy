/**
 * The few libft helpers the shell relies on (ft_isalpha, ft_isdigit, ft_isalnum,
 * ft_itoa, ft_atoi, ft_split). libft itself is not part of this model; these are the
 * usual definitions of those helpers, written out so that the rest of the model can
 * state what it does with their results.
 */
module Libft {
  import opened Wrappers

  predicate IsAlpha(c: char) { 'a' <= c <= 'z' || 'A' <= c <= 'Z' }

  predicate IsDigit(c: char) { '0' <= c <= '9' }

  predicate IsAlnum(c: char) { IsAlpha(c) || IsDigit(c) }

  /** The characters ft_atoi skips before the number (isspace in the C locale). */
  predicate IsSpace(c: char)
  {
    c == ' ' || c == '\t' || c == '\n' || c == '\r' || c == '\U{000B}' || c == '\U{000C}'
  }

  function DigitChar(d: nat): (c: char)
    requires d < 10
    ensures IsDigit(c) && (c as int) - ('0' as int) == d
  {
    ((d + '0' as int) as char)
  }

  /** Decimal digits of a natural number, most significant first, no leading zeros. */
  function NatToDecimal(n: nat): (s: string)
    ensures |s| > 0
    ensures forall k :: 0 <= k < |s| ==> IsDigit(s[k])
    decreases n
  {
    if n < 10 then [DigitChar(n)] else NatToDecimal(n / 10) + [DigitChar(n % 10)]
  }

  /** ft_itoa: decimal text of an int, with a leading '-' when negative. */
  function Itoa(n: int): string
  {
    if n < 0 then "-" + NatToDecimal(-n) else NatToDecimal(n)
  }

  /** Value of a string of decimal digits, read left to right. */
  function DigitsValue(s: string): nat
    requires forall k :: 0 <= k < |s| ==> IsDigit(s[k])
    decreases |s|
  {
    if s == [] then 0
    else DigitsValue(s[..|s| - 1]) * 10 + DigitValue(s[|s| - 1])
  }

  function DigitValue(c: char): nat
    requires IsDigit(c)
  {
    (c as int) - ('0' as int)
  }

  /** The first index at or after `i` that is not a decimal digit (or |s|). */
  function DigitRunEnd(s: string, i: nat): (j: nat)
    requires i <= |s|
    ensures i <= j <= |s|
    ensures forall k :: i <= k < j ==> IsDigit(s[k])
    ensures j == |s| || !IsDigit(s[j])
    decreases |s| - i
  {
    if i < |s| && IsDigit(s[i]) then DigitRunEnd(s, i + 1) else i
  }

  function SpaceRunEnd(s: string, i: nat): (j: nat)
    requires i <= |s|
    ensures i <= j <= |s|
    ensures j == |s| || !IsSpace(s[j])
    decreases |s| - i
  {
    if i < |s| && IsSpace(s[i]) then SpaceRunEnd(s, i + 1) else i
  }

  /**
   * ft_atoi: skip leading white space, read one optional sign, then the longest run
   * of digits. Integers are unbounded here, so the C overflow is not modelled.
   */
  function Atoi(s: string): int
  {
    var i := SpaceRunEnd(s, 0);
    var neg := i < |s| && s[i] == '-';
    var j := if i < |s| && (s[i] == '-' || s[i] == '+') then i + 1 else i;
    var v: int := DigitsValue(s[j..DigitRunEnd(s, j)]);
    if neg then -v else v
  }

  lemma {:induction false} DigitsValueOfDecimal(n: nat)
    ensures DigitsValue(NatToDecimal(n)) == n
    decreases n
  {
    var s := NatToDecimal(n);
    if n >= 10 {
      DigitsValueOfDecimal(n / 10);
      assert s[..|s| - 1] == NatToDecimal(n / 10);
    }
  }

  /** ft_atoi reads back exactly what ft_itoa wrote. */
  lemma AtoiOfItoa(n: int)
    ensures Atoi(Itoa(n)) == n
  {
    var s := Itoa(n);
    var d := NatToDecimal(if n < 0 then -n else n);
    var j := if n < 0 then 1 else 0;
    assert s[j..] == d;
    assert SpaceRunEnd(s, 0) == 0;
    assert DigitRunEnd(s, j) == |s|;
    assert s[j..DigitRunEnd(s, j)] == d;
    DigitsValueOfDecimal(if n < 0 then -n else n);
  }

  /**
   * ft_split(s, sep) from index `i`: the maximal runs of characters other than `sep`,
   * in order. Empty fields are dropped, as libft's ft_split does.
   */
  function SplitFrom(s: string, sep: char, i: nat): (fields: seq<string>)
    requires i <= |s|
    ensures forall f :: f in fields ==> |f| > 0 && sep !in f
    decreases |s| - i
  {
    if i == |s| then []
    else if s[i] == sep then SplitFrom(s, sep, i + 1)
    else
      var j := FieldEnd(s, sep, i);
      [s[i..j]] + SplitFrom(s, sep, j)
  }

  function FieldEnd(s: string, sep: char, i: nat): (j: nat)
    requires i <= |s|
    ensures i <= j <= |s|
    ensures forall k :: i <= k < j ==> s[k] != sep
    ensures j == |s| || s[j] == sep
    decreases |s| - i
  {
    if i < |s| && s[i] != sep then FieldEnd(s, sep, i + 1) else i
  }

  function Split(s: string, sep: char): seq<string>
  {
    SplitFrom(s, sep, 0)
  }

  /** Joins `parts` with `sep` between consecutive ones. */
  function JoinWith(parts: seq<string>, sep: char): string
  {
    if |parts| == 0 then ""
    else if |parts| == 1 then parts[0]
    else parts[0] + [sep] + JoinWith(parts[1..], sep)
  }

  /** ft_split undoes a join of non-empty fields that do not contain the separator. */
  lemma SplitOfJoin(parts: seq<string>, sep: char)
    requires forall k :: 0 <= k < |parts| ==> |parts[k]| > 0 && sep !in parts[k]
    ensures Split(JoinWith(parts, sep), sep) == parts
  {
    assert [] + JoinWith(parts, sep) == JoinWith(parts, sep);
    SplitFromJoin([], parts, sep);
  }

  lemma {:induction false} SplitFromJoin(pre: string, parts: seq<string>, sep: char)
    requires forall k :: 0 <= k < |parts| ==> |parts[k]| > 0 && sep !in parts[k]
    ensures SplitFrom(pre + JoinWith(parts, sep), sep, |pre|) == parts
    decreases |parts|
  {
    if |parts| == 0 {
      assert pre + JoinWith(parts, sep) == pre;
    } else if |parts| == 1 {
      LastField(pre, parts[0], sep);
      assert [parts[0]] == parts;
    } else {
      var rest := JoinWith(parts[1..], sep);
      var pre' := pre + parts[0] + [sep];
      assert pre + JoinWith(parts, sep) == pre' + rest;
      InnerField(pre, parts[0], sep, rest);
      SplitFromJoin(pre', parts[1..], sep);
      assert [parts[0]] + parts[1..] == parts;
    }
  }

  lemma LastField(pre: string, p: string, sep: char)
    requires |p| > 0 && sep !in p
    ensures SplitFrom(pre + p, sep, |pre|) == [p]
  {
    FieldOf(pre, p, sep, "");
    assert pre + p + "" == pre + p;
  }

  lemma InnerField(pre: string, p: string, sep: char, rest: string)
    requires |p| > 0 && sep !in p
    ensures SplitFrom(pre + p + [sep] + rest, sep, |pre|)
            == [p] + SplitFrom(pre + p + [sep] + rest, sep, |pre + p + [sep]|)
  {
    var s := pre + p + [sep] + rest;
    FieldOf(pre, p, sep, [sep] + rest);
    assert pre + p + ([sep] + rest) == s;
    assert s[|pre| + |p|] == sep;
  }

  /** Reading the field `p` that follows `pre` and is followed by `tail`. */
  lemma FieldOf(pre: string, p: string, sep: char, tail: string)
    requires |p| > 0 && sep !in p
    requires |tail| == 0 || tail[0] == sep
    ensures var s := pre + p + tail;
            SplitFrom(s, sep, |pre|) == [p] + SplitFrom(s, sep, |pre| + |p|)
  {
    var s := pre + p + tail;
    var i := |pre|;
    var j := |pre| + |p|;
    assert forall k :: i <= k < j ==> s[k] == p[k - i];
    assert j == |s| || s[j] == sep;
    FieldEndScan(s, sep, i, j);
    assert s[i..j] == p;
  }

  lemma {:induction false} FieldEndScan(s: string, sep: char, i: nat, j: nat)
    requires i <= j <= |s|
    requires forall k :: i <= k < j ==> s[k] != sep
    requires j == |s| || s[j] == sep
    ensures FieldEnd(s, sep, i) == j
    decreases j - i
  {
    if i < j {
      FieldEndScan(s, sep, i + 1, j);
    }
  }

  /** The character C reads at index `i`: past the end lies the terminating NUL. */
  function CharAt(s: string, i: nat): char
  {
    if i < |s| then s[i] else '\0'
  }

  predicate NoNul(s: string) { forall k :: 0 <= k < |s| ==> s[k] != '\0' }

  /**
   * ft_strncmp on NUL-terminated strings: the difference of the first differing
   * characters among the first `n`, stopping at the terminator.
   */
  function Strncmp(a: string, b: string, n: nat): int
    decreases n
  {
    if n == 0 then 0
    else if CharAt(a, 0) != CharAt(b, 0) then (CharAt(a, 0) as int) - (CharAt(b, 0) as int)
    else if CharAt(a, 0) == '\0' then 0
    else Strncmp(a[1..], b[1..], n - 1)
  }

  /** Comparing one character past the end of `b` tells equal strings from all others. */
  lemma {:induction false} StrncmpPastEnd(a: string, b: string)
    requires NoNul(a) && NoNul(b)
    ensures Strncmp(a, b, |b| + 1) == 0 <==> a == b
    decreases |b|
  {
    if |a| > 0 && |b| > 0 && a[0] == b[0] {
      StrncmpPastEnd(a[1..], b[1..]);
      if a[1..] == b[1..] {
        assert a == [a[0]] + a[1..];
        assert b == [b[0]] + b[1..];
      }
    }
  }

  /**
   * The key test used throughout the environment code: ft_strncmp over the length of
   * `key`, then equal lengths. On NUL-free strings it is string equality.
   */
  lemma {:induction false} KeyTestIsEquality(entry: string, key: string)
    requires NoNul(entry) && NoNul(key)
    ensures (Strncmp(entry, key, |key|) == 0 && |entry| == |key|) <==> entry == key
    decreases |key|
  {
    if |key| > 0 && |entry| > 0 && entry[0] == key[0] {
      KeyTestIsEquality(entry[1..], key[1..]);
      if entry[1..] == key[1..] {
        assert entry == [entry[0]] + entry[1..];
        assert key == [key[0]] + key[1..];
      }
    }
  }

  /** The index of the first `c` in `s` (ft_strchr), if any. */
  function IndexOf(s: string, c: char): (r: Option<nat>)
    ensures r.Some? ==> r.value < |s| && s[r.value] == c && c !in s[..r.value]
    ensures r.None? ==> c !in s
  {
    if |s| == 0 then None
    else if s[0] == c then Some(0)
    else
      var r := IndexOf(s[1..], c);
      if r.None? then None
      else (assert s[..r.value + 1] == [s[0]] + s[1..][..r.value]; Some(r.value + 1))
  }
}
