/**
 * The unset builtin: each argument, in order, is removed from the store with
 * remove_env_var; the status is always 0.
 */
module Unset {
  import opened Wrappers
  import opened EnvStore

  /** The store after removing each argument in turn. */
  function UnsetEntries(entries: seq<Entry>, args: seq<string>): seq<Entry>
    decreases |args|
  {
    if |args| == 0 then entries
    else RemoveEntry(UnsetEntries(entries, args[..|args| - 1]), args[|args| - 1])
  }

  /** builtin_unset (args[0] being "unset"). */
  method UnsetBuiltin(args: seq<string>, env: Env) returns (status: int)
    requires |args| >= 1
    modifies env
    ensures status == 0
    ensures env.entries == UnsetEntries(old(env.entries), args[1..])
  {
    if |args| == 1 {
      assert args[1..] == [];
      return 0;
    }
    var i := 1;
    while i < |args|
      invariant 1 <= i <= |args|
      invariant env.entries == UnsetEntries(old(env.entries), args[1..i])
    {
      assert args[1..i + 1][..i - 1] == args[1..i];
      env.Remove(args[i]);
      i := i + 1;
    }
    assert args[1..i] == args[1..];
    return 0;
  }

  // ---------------------------------------------------------------------------
  // What unset promises.
  // ---------------------------------------------------------------------------

  /** Unset never introduces a duplicate key. */
  lemma {:induction false} UnsetKeepsUniqueKeys(entries: seq<Entry>, args: seq<string>)
    requires UniqueKeys(entries)
    ensures UniqueKeys(UnsetEntries(entries, args))
    decreases |args|
  {
    if |args| > 0 {
      UnsetKeepsUniqueKeys(entries, args[..|args| - 1]);
      UniqueKeysKept(UnsetEntries(entries, args[..|args| - 1]), args[|args| - 1], "");
    }
  }

  /** A non-empty name given to unset reads as unset afterwards, when keys are unique. */
  lemma {:induction false} UnsetRemoves(entries: seq<Entry>, args: seq<string>, key: string)
    requires UniqueKeys(entries) && key != "" && key in args
    ensures Lookup(UnsetEntries(entries, args), key).None?
    decreases |args|
  {
    var init := args[..|args| - 1];
    var last := args[|args| - 1];
    var before := UnsetEntries(entries, init);
    UnsetKeepsUniqueKeys(entries, init);
    if last == key {
      LookupAfterRemoveGone(before, key);
    } else {
      assert key in init by {
        var k :| 0 <= k < |args| && args[k] == key;
        assert k < |args| - 1 && init[k] == key;
      }
      UnsetRemoves(entries, init, key);
      LookupAfterRemove(before, last, key);
    }
  }

  /** A non-empty name not given to unset keeps its value. */
  lemma {:induction false} UnsetKeepsOthers(entries: seq<Entry>, args: seq<string>, key: string)
    requires key != "" && key !in args
    ensures Lookup(UnsetEntries(entries, args), key) == Lookup(entries, key)
    decreases |args|
  {
    if |args| > 0 {
      var init := args[..|args| - 1];
      assert key !in init;
      UnsetKeepsOthers(entries, init, key);
      LookupAfterRemove(UnsetEntries(entries, init), args[|args| - 1], key);
    }
  }
}
