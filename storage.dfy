/**
 * The add-on's local storage, a flat map from option name to value, and the
 * two writing calls made on it: `set`, which merges items into the store,
 * and `remove`, which deletes keys.  The asynchronous calls themselves are
 * not modelled; an operation returns the list of calls it issues, and
 * `ApplyAll` gives the store those calls leave behind.
 */
module Storage {
  import opened Values

  type Store = map<string, Value>

  datatype StoreOp = Set(items: Store) | Remove(keys: set<string>)

  /** The effect of one storage call. */
  function Apply(store: Store, op: StoreOp): (r: Store)
    ensures op.Set? ==> r.Keys == store.Keys + op.items.Keys
    ensures op.Set? ==> forall k :: k in op.items ==> r[k] == op.items[k]
    ensures op.Set? ==> forall k :: k in store && k !in op.items ==> r[k] == store[k]
    ensures op.Remove? ==> r.Keys == store.Keys - op.keys
    ensures op.Remove? ==> forall k :: k in r ==> r[k] == store[k]
  {
    match op
    case Set(items) => store + items
    case Remove(keys) => store - keys
  }

  /** The effect of a list of storage calls, issued in order. */
  function ApplyAll(store: Store, ops: seq<StoreOp>): (r: Store)
    decreases |ops|
  {
    if ops == [] then store else ApplyAll(Apply(store, ops[0]), ops[1..])
  }

  /** Issuing `a` and then `b` is issuing `a + b`. */
  lemma {:induction false} ApplyAllAppend(store: Store, a: seq<StoreOp>, b: seq<StoreOp>)
    ensures ApplyAll(store, a + b) == ApplyAll(ApplyAll(store, a), b)
    decreases |a|
  {
    if a == [] {
      assert a + b == b;
    } else {
      assert (a + b)[0] == a[0];
      assert (a + b)[1..] == a[1..] + b;
      ApplyAllAppend(Apply(store, a[0]), a[1..], b);
    }
  }

  /** The set of names in a key list, as `remove` reads it. */
  function KeySet(keys: seq<string>): (s: set<string>)
    ensures forall k :: k in s <==> k in keys
  {
    set k | k in keys
  }
}
