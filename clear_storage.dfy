/** Clearing the secure store (utils/clearStorage.ts). */
module ClearStorage {
  import opened SecureStore

  /** The keys clearSecureStore deletes, in the order it deletes them. */
  const ClearedKeys: seq<string> := [UserNameKey, RawPasswordKey, AccessTokenKey, RefreshTokenKey]

  /** The flag it returns, the store afterwards and the deletions that completed. */
  datatype ClearRun = ClearRun(ok: bool, items: Items, events: seq<Event>)

  /** Deletes `keys` one after another; deleteItemAsync throws for a key in `failing`,
      which ends the loop with `false`. */
  function DeleteAll(items: Items, keys: seq<string>, failing: set<string>): ClearRun
    decreases keys
  {
    if keys == [] then ClearRun(true, items, [])
    else if keys[0] in failing then ClearRun(false, items, [])
    else
      var rest := DeleteAll(items - {keys[0]}, keys[1..], failing);
      ClearRun(rest.ok, rest.items, [Deleted(keys[0])] + rest.events)
  }

  /** What DeleteAll does, for any list of keys. */
  lemma {:induction false} DeleteAllDeletesPrefix(items: Items, keys: seq<string>, failing: set<string>)
    ensures var run := DeleteAll(items, keys, failing);
      // it reports success exactly when no key fails
      && (run.ok <==> forall k :: k in keys ==> k !in failing)
      // the deletions done are those of a prefix of `keys`, in order, none of them failing ...
      && |run.events| <= |keys|
      && (forall j :: 0 <= j < |run.events| ==> run.events[j] == Deleted(keys[j]) && keys[j] !in failing)
      // ... all of `keys` on success, else up to the first failing key
      && (run.ok ==> |run.events| == |keys|)
      && (!run.ok ==> |run.events| < |keys| && keys[|run.events|] in failing)
      // and the store loses exactly the keys of that prefix
      && run.items == items - set k | k in keys[..|run.events|]
    decreases keys
  {
    if keys != [] && keys[0] !in failing {
      var rest := DeleteAll(items - {keys[0]}, keys[1..], failing);
      DeleteAllDeletesPrefix(items - {keys[0]}, keys[1..], failing);
      assert keys[..|rest.events| + 1] == [keys[0]] + keys[1..][..|rest.events|];
    }
  }

  /** clearSecureStore over the four keys. */
  function ClearSecureStoreRun(items: Items, failing: set<string>): (run: ClearRun)
    ensures run.ok <==> forall k :: k in ClearedKeys ==> k !in failing
    ensures |run.events| <= |ClearedKeys|
    // success leaves none of the four keys
    ensures run.ok ==> forall k :: k in ClearedKeys ==> k !in run.items
    // any other key keeps its value
    ensures forall k :: k !in ClearedKeys ==> Get(run.items, k) == Get(items, k)
    // the keys are deleted in the listed order; those after a failure are left as they were
    ensures forall j :: 0 <= j < |run.events| ==> run.events[j] == Deleted(ClearedKeys[j]) && ClearedKeys[j] !in run.items
    ensures forall j :: |run.events| <= j < |ClearedKeys| ==> Get(run.items, ClearedKeys[j]) == Get(items, ClearedKeys[j])
    // every delete done succeeded, and a failure ends the loop at the failing key
    ensures forall j :: 0 <= j < |run.events| ==> ClearedKeys[j] !in failing
    ensures !run.ok ==> |run.events| < |ClearedKeys| && ClearedKeys[|run.events|] in failing
  {
    DeleteAllDeletesPrefix(items, ClearedKeys, failing);
    DeleteAll(items, ClearedKeys, failing)
  }

  /** Clearing twice leaves the store that clearing once leaves, whichever deletes fail. */
  lemma {:induction false} DeleteAllIdempotent(items: Items, keys: seq<string>, failing: set<string>)
    ensures var once := DeleteAll(items, keys, failing);
      DeleteAll(once.items, keys, failing) == ClearRun(once.ok, once.items, once.events)
    decreases keys
  {
    if keys != [] && keys[0] !in failing {
      var rest := DeleteAll(items - {keys[0]}, keys[1..], failing);
      DeleteAllIdempotent(items - {keys[0]}, keys[1..], failing);
      DeleteAllDeletesPrefix(items - {keys[0]}, keys[1..], failing);
      assert rest.items - {keys[0]} == rest.items;
    }
  }

  /** One step of the loop: DeleteAll unfolded once. */
  lemma DeleteAllUnfold(items: Items, keys: seq<string>, failing: set<string>)
    requires keys != []
    ensures keys[0] in failing ==> DeleteAll(items, keys, failing) == ClearRun(false, items, [])
    ensures keys[0] !in failing ==>
      var rest := DeleteAll(items - {keys[0]}, keys[1..], failing);
      DeleteAll(items, keys, failing) == ClearRun(rest.ok, rest.items, [Deleted(keys[0])] + rest.events)
  {
  }

  /** clearSecureStore */
  method ClearSecureStore(d: Device, failing: set<string>) returns (ok: bool)
    modifies d
    ensures var run := ClearSecureStoreRun(old(d.items), failing);
      ok == run.ok && d.items == run.items && d.trace == old(d.trace) + run.events
  {
    var keys := ClearedKeys;
    ghost var whole := DeleteAll(d.items, keys, failing);
    for i := 0 to |keys|
      invariant DeleteAll(d.items, keys[i..], failing).ok == whole.ok
      invariant DeleteAll(d.items, keys[i..], failing).items == whole.items
      invariant d.trace + DeleteAll(d.items, keys[i..], failing).events == old(d.trace) + whole.events
    {
      DeleteAllUnfold(d.items, keys[i..], failing);
      assert keys[i..][1..] == keys[i + 1..];
      var deleted := d.DeleteItem(keys[i], keys[i] !in failing);
      if !deleted {
        return false;
      }
    }
    assert keys[|keys|..] == [];
    return true;
  }
}
