/**
 * The environment store: the ordered key/value list the shell keeps for its variables
 * (t_env), built from envp at start-up and then read by the expander and executor and
 * changed by export, unset and cd.
 *
 * The linked list is a sequence of entries, first node first. Keys are compared with
 * ft_strncmp over the key's length plus a length check, which is string equality on
 * C strings (Libft.KeyTestIsEquality); the model compares with `==`.
 */
module EnvStore {
  import opened Wrappers
  import opened Libft

  /** One node of the list: its key and its value. */
  type Entry = (string, string)

  /** The index of the first entry at or after `i` whose key is `key`. */
  function FindKeyFrom(entries: seq<Entry>, key: string, i: nat): (r: Option<nat>)
    requires i <= |entries|
    ensures r.Some? ==> i <= r.value < |entries| && entries[r.value].0 == key &&
                        forall j :: i <= j < r.value ==> entries[j].0 != key
    ensures r.None? ==> forall j :: i <= j < |entries| ==> entries[j].0 != key
    decreases |entries| - i
  {
    if i == |entries| then None
    else if entries[i].0 == key then Some(i)
    else FindKeyFrom(entries, key, i + 1)
  }

  function FindKey(entries: seq<Entry>, key: string): Option<nat>
  {
    FindKeyFrom(entries, key, 0)
  }

  /** get_env_value: the value of the first entry with that key. */
  function Lookup(entries: seq<Entry>, key: string): (r: Option<string>)
    ensures r.None? <==> forall j :: 0 <= j < |entries| ==> entries[j].0 != key
    ensures r.Some? ==> exists j :: 0 <= j < |entries| && entries[j] == (key, r.value) &&
                                    forall i :: 0 <= i < j ==> entries[i].0 != key
  {
    match FindKey(entries, key)
    case None => None
    case Some(i) => Some(entries[i].1)
  }

  /**
   * set_env_value on a store reached through its head: the first entry with that key
   * gets the new value; with no such entry a new one is appended at the tail.
   */
  function SetEntry(entries: seq<Entry>, key: string, value: string): seq<Entry>
  {
    match FindKey(entries, key)
    case Some(i) => entries[i := (key, value)]
    case None => entries + [(key, value)]
  }

  /**
   * set_env_value as export and cd call it: through the address of their own copy of the
   * head pointer. On an empty store the new node is linked only into that copy, so the
   * store the shell keeps stays empty.
   */
  function SetViaCopy(entries: seq<Entry>, key: string, value: string): (r: seq<Entry>)
    ensures |entries| == 0 ==> r == []
    ensures |entries| > 0 ==> Lookup(r, key) == Some(value)
    ensures |entries| > 0 ==> forall k :: k != key ==> Lookup(r, k) == Lookup(entries, k)
    ensures |entries| > 0 ==> Keys(r) == if key in Keys(entries) then Keys(entries) else Keys(entries) + [key]
  {
    if |entries| == 0 then entries
    else
      SetMeaning(entries, key, value);
      SetEntry(entries, key, value)
  }

  /**
   * remove_env_var: the first entry with that key leaves the list. The head node is
   * never unlinked: with a successor it takes over the successor's contents, and as the
   * only node it is emptied to ("", "").
   */
  function RemoveEntry(entries: seq<Entry>, key: string): seq<Entry>
  {
    match FindKey(entries, key)
    case None => entries
    case Some(i) =>
      if i == 0 && |entries| == 1 then [("", "")]
      else entries[..i] + entries[i + 1..]
  }

  function Keys(entries: seq<Entry>): (ks: seq<string>)
    ensures |ks| == |entries| && forall j :: 0 <= j < |entries| ==> ks[j] == entries[j].0
  {
    seq(|entries|, j requires 0 <= j < |entries| => entries[j].0)
  }

  predicate UniqueKeys(entries: seq<Entry>)
  {
    forall j, k :: 0 <= j < k < |entries| ==> entries[j].0 != entries[k].0
  }

  /** One envp string split at its first '='; strings without one are skipped. */
  function SplitAtEq(s: string): (r: Option<Entry>)
    ensures r.Some? <==> '=' in s
    ensures r.Some? ==> '=' !in r.value.0 && s == r.value.0 + "=" + r.value.1
  {
    match IndexOf(s, '=')
    case None => None
    case Some(i) =>
      assert s == s[..i] + "=" + s[i + 1..];
      Some((s[..i], s[i + 1..]))
  }

  /** A key without '=' joined to its value by '=' splits back into the two. */
  lemma SplitAtEqJoin(key: string, value: string)
    requires '=' !in key
    ensures SplitAtEq(key + "=" + value) == Some((key, value))
  {
    var s := key + "=" + value;
    assert s[|key|] == '=';
    assert s[..|key|] == key && s[|key| + 1..] == value;
    assert IndexOf(s, '=') == Some(|key|) by {
      var i := IndexOf(s, '=').value;
      assert s[..i + 1][i] == '=';
      assert '=' in s[..|key| + 1];
    }
  }

  /** init_env: one entry per envp string holding '=', in envp order. */
  function InitEntries(envp: seq<string>): (r: seq<Entry>)
    ensures |r| <= |envp|
    ensures forall j :: 0 <= j < |r| ==> '=' !in r[j].0
  {
    if |envp| == 0 then []
    else
      var init := InitEntries(envp[..|envp| - 1]);
      match SplitAtEq(envp[|envp| - 1])
      case None => init
      case Some(e) => init + [e]
  }

  // ---------------------------------------------------------------------------
  // The store as the C code changes it in place.
  // ---------------------------------------------------------------------------

  class Env {
    var entries: seq<Entry>

    /** init_env: the store holding the envp strings that have a '='. */
    constructor Init(envp: seq<string>)
      ensures entries == InitEntries(envp)
    {
      var list: seq<Entry> := [];
      var i := 0;
      while i < |envp|
        invariant i <= |envp|
        invariant list == InitEntries(envp[..i])
      {
        assert envp[..i + 1][..i] == envp[..i];
        var e := SplitAtEq(envp[i]);
        if e.Some? {
          list := list + [e.value];
        }
        i := i + 1;
      }
      assert envp[..i] == envp;
      entries := list;
    }

    /** A second store with the same entries: the copy a forked child works on. */
    constructor Copy(other: Env)
      ensures entries == other.entries
    {
      entries := other.entries;
    }

    /** get_env_value. */
    method Get(key: string) returns (r: Option<string>)
      ensures r == Lookup(entries, key)
    {
      var i := 0;
      while i < |entries|
        invariant i <= |entries|
        invariant FindKeyFrom(entries, key, i) == FindKey(entries, key)
      {
        if entries[i].0 == key {
          return Some(entries[i].1);
        }
        i := i + 1;
      }
      return None;
    }

    /** set_env_value. */
    method Set(key: string, value: string)
      modifies this
      ensures entries == SetEntry(old(entries), key, value)
    {
      var i := 0;
      while i < |entries|
        invariant i <= |entries|
        invariant FindKeyFrom(entries, key, i) == FindKey(entries, key)
      {
        if entries[i].0 == key {
          entries := entries[i := (entries[i].0, value)];
          return;
        }
        i := i + 1;
      }
      entries := entries + [(key, value)];
    }

    /** set_env_value called with the address of a copy of the head pointer. */
    method UpdateViaCopy(key: string, value: string)
      modifies this
      ensures entries == SetViaCopy(old(entries), key, value)
    {
      if |entries| > 0 {
        Set(key, value);
      }
    }

    /** remove_env_var. */
    method Remove(key: string)
      modifies this
      ensures entries == RemoveEntry(old(entries), key)
    {
      var i := 0;
      while i < |entries|
        invariant i <= |entries|
        invariant FindKeyFrom(entries, key, i) == FindKey(entries, key)
      {
        if entries[i].0 == key {
          if i > 0 {
            entries := entries[..i] + entries[i + 1..];
          } else if i + 1 < |entries| {
            entries := entries[1..];
          } else {
            entries := [("", "")];
          }
          return;
        }
        i := i + 1;
      }
    }
  }

  // ---------------------------------------------------------------------------
  // What the store operations promise.
  // ---------------------------------------------------------------------------

  /** After setting `key`, it reads back the new value and every other key reads as before. */
  lemma LookupAfterSet(entries: seq<Entry>, key: string, value: string, other: string)
    ensures Lookup(SetEntry(entries, key, value), other)
            == if other == key then Some(value) else Lookup(entries, other)
  {
    var r := SetEntry(entries, key, value);
    match FindKey(entries, key)
    case Some(i) =>
      assert FindKey(r, key) == Some(i) by { FindKeyExact(r, key, i); }
      if other != key {
        FindKeyUnchanged(entries, r, other, i);
      }
    case None =>
      if other == key {
        FindKeyExact(r, key, |entries|);
      } else {
        FindKeyAppend(entries, (key, value), other);
      }
  }

  /** Every key reads as LookupAfterSet says, and the keys are as SetKeys says. */
  lemma SetMeaning(entries: seq<Entry>, key: string, value: string)
    ensures Lookup(SetEntry(entries, key, value), key) == Some(value)
    ensures forall k :: k != key ==> Lookup(SetEntry(entries, key, value), k) == Lookup(entries, k)
    ensures Keys(SetEntry(entries, key, value))
            == if key in Keys(entries) then Keys(entries) else Keys(entries) + [key]
  {
    LookupAfterSet(entries, key, value, key);
    forall k | k != key
      ensures Lookup(SetEntry(entries, key, value), k) == Lookup(entries, k)
    {
      LookupAfterSet(entries, key, value, k);
    }
    SetKeys(entries, key, value);
  }

  /** Setting keeps the order of the keys and adds `key` at the tail only when it is new. */
  lemma SetKeys(entries: seq<Entry>, key: string, value: string)
    ensures Keys(SetEntry(entries, key, value))
            == if key in Keys(entries) then Keys(entries) else Keys(entries) + [key]
  {
    match FindKey(entries, key)
    case Some(i) =>
      assert Keys(entries)[i] == key;
    case None =>
      assert key !in Keys(entries);
  }

  /** Removing `key` leaves every other non-empty key reading as before. */
  lemma LookupAfterRemove(entries: seq<Entry>, key: string, other: string)
    requires other != key && other != ""
    ensures Lookup(RemoveEntry(entries, key), other) == Lookup(entries, other)
  {
    match FindKey(entries, key)
    case None =>
    case Some(i) =>
      if !(i == 0 && |entries| == 1) {
        FindKeyDelete(entries, other, i);
      }
  }

  /** With unique keys, a removed non-empty key no longer reads at all. */
  lemma LookupAfterRemoveGone(entries: seq<Entry>, key: string)
    requires UniqueKeys(entries) && key != ""
    ensures Lookup(RemoveEntry(entries, key), key).None?
  {
    var r := RemoveEntry(entries, key);
    match FindKey(entries, key)
    case None =>
    case Some(i) =>
      if !(i == 0 && |entries| == 1) {
        forall j | 0 <= j < |r|
          ensures r[j].0 != key
        {
          if j < i { assert r[j] == entries[j]; } else { assert r[j] == entries[j + 1]; }
        }
      }
  }

  /** Neither operation brings in a duplicate key. */
  lemma UniqueKeysKept(entries: seq<Entry>, key: string, value: string)
    requires UniqueKeys(entries)
    ensures UniqueKeys(SetEntry(entries, key, value))
    ensures UniqueKeys(RemoveEntry(entries, key))
  {
    match FindKey(entries, key)
    case None =>
    case Some(i) =>
      var r := RemoveEntry(entries, key);
      if !(i == 0 && |entries| == 1) {
        forall j, k | 0 <= j < k < |r|
          ensures r[j].0 != r[k].0
        {
          var j' := if j < i then j else j + 1;
          var k' := if k < i then k else k + 1;
          assert r[j] == entries[j'] && r[k] == entries[k'];
        }
      }
  }

  /**
   * set_env_value changes no entry with another key; it keeps the length when the key is
   * present and adds one entry, at the tail, when it is not.
   */
  lemma SetEntryShape(entries: seq<Entry>, key: string, value: string)
    ensures var r := SetEntry(entries, key, value);
            |r| == (if key in Keys(entries) then |entries| else |entries| + 1) &&
            (forall j :: 0 <= j < |entries| && entries[j].0 != key ==> r[j] == entries[j]) &&
            (key !in Keys(entries) ==> r[|entries|] == (key, value) && r == entries + [(key, value)]) &&
            (key in Keys(entries) ==>
               exists i :: 0 <= i < |entries| && entries[i].0 == key &&
                           (forall j :: 0 <= j < i ==> entries[j].0 != key) &&
                           r == entries[i := (key, value)])
  {
    if FindKey(entries, key).Some? {
      var i := FindKey(entries, key).value;
      assert Keys(entries)[i] == key;
      assert entries[i].0 == key && forall j :: 0 <= j < i ==> entries[j].0 != key;
    } else {
      assert key !in Keys(entries);
    }
  }

  /**
   * remove_env_var takes out only the first entry with the key, keeping the others in
   * order; an absent key changes nothing, and the sole entry is blanked instead.
   */
  lemma RemoveEntryShape(entries: seq<Entry>, key: string)
    ensures key !in Keys(entries) ==> RemoveEntry(entries, key) == entries
    ensures key in Keys(entries) && |entries| > 1 ==>
              exists i :: 0 <= i < |entries| && entries[i].0 == key &&
                          (forall j :: 0 <= j < i ==> entries[j].0 != key) &&
                          RemoveEntry(entries, key) == entries[..i] + entries[i + 1..]
    ensures |entries| == 1 && entries[0].0 == key ==> RemoveEntry(entries, key) == [("", "")]
  {
    match FindKey(entries, key)
    case None =>
    case Some(i) =>
      assert Keys(entries)[i] == key;
      if |entries| > 1 {
        assert entries[i].0 == key && forall j :: 0 <= j < i ==> entries[j].0 != key;
      }
  }

  /** init_env reads envp front to back: the entries of a concatenation are the concatenation of entries. */
  lemma {:induction false} InitEntriesAppend(a: seq<string>, b: seq<string>)
    ensures InitEntries(a + b) == InitEntries(a) + InitEntries(b)
    decreases |b|
  {
    if |b| == 0 {
      assert a + b == a;
    } else {
      var b' := b[..|b| - 1];
      assert (a + b)[..|a + b| - 1] == a + b';
      assert (a + b)[|a + b| - 1] == b[|b| - 1];
      InitEntriesAppend(a, b');
    }
  }

  lemma {:induction false} FindKeyExact(entries: seq<Entry>, key: string, i: nat)
    requires i < |entries| && entries[i].0 == key
    requires forall j :: 0 <= j < i ==> entries[j].0 != key
    ensures FindKey(entries, key) == Some(i)
  {
    FindKeyFromExact(entries, key, 0, i);
  }

  lemma {:induction false} FindKeyFromExact(entries: seq<Entry>, key: string, s: nat, i: nat)
    requires s <= i < |entries| && entries[i].0 == key
    requires forall j :: s <= j < i ==> entries[j].0 != key
    ensures FindKeyFrom(entries, key, s) == Some(i)
    decreases i - s
  {
    if s < i {
      FindKeyFromExact(entries, key, s + 1, i);
    }
  }

  lemma FindKeyAbsent(entries: seq<Entry>, key: string)
    requires forall j :: 0 <= j < |entries| ==> entries[j].0 != key
    ensures FindKey(entries, key).None?
  {
  }

  /** Changing the value at `i` to a key other than `key`'s match does not move `key`. */
  lemma FindKeyUnchanged(entries: seq<Entry>, r: seq<Entry>, key: string, i: nat)
    requires i < |entries| && |r| == |entries| && entries[i].0 != key && r[i].0 != key
    requires forall j :: 0 <= j < |entries| && j != i ==> r[j] == entries[j]
    ensures Lookup(r, key) == Lookup(entries, key)
  {
    match FindKey(entries, key)
    case Some(m) => FindKeyExact(r, key, m);
    case None => FindKeyAbsent(r, key);
  }

  lemma FindKeyAppend(entries: seq<Entry>, e: Entry, key: string)
    requires e.0 != key
    ensures Lookup(entries + [e], key) == Lookup(entries, key)
  {
    var r := entries + [e];
    match FindKey(entries, key)
    case Some(m) => FindKeyExact(r, key, m);
    case None => FindKeyAbsent(r, key);
  }

  lemma FindKeyDelete(entries: seq<Entry>, key: string, i: nat)
    requires i < |entries| && entries[i].0 != key
    ensures Lookup(entries[..i] + entries[i + 1..], key) == Lookup(entries, key)
  {
    var r := entries[..i] + entries[i + 1..];
    assert forall j :: 0 <= j < i ==> r[j] == entries[j];
    assert forall j :: i <= j < |r| ==> r[j] == entries[j + 1];
    match FindKey(entries, key)
    case Some(m) =>
      FindKeyExact(r, key, if m < i then m else m - 1);
    case None =>
      FindKeyAbsent(r, key);
  }
}
