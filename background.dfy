/**
 * The background script: on installation or upgrade it reconciles the local
 * storage with the table of known options, and on a fresh, permanent install
 * it opens the onboarding page.  The table of known options is a parameter
 * (name to default); `Common.OptionDefaults` is the table the add-on uses.
 */
module Background {
  import opened Values
  import opened Storage
  import Common

  /** The known options missing from the store, with their defaults: what is written. */
  function MissingDefaults(options: Store, store: Store): (on: Store)
    ensures forall k :: k in on <==> k in options && k !in store
    ensures forall k :: k in on ==> on[k] == options[k]
  {
    map k | k in options && k !in store :: options[k]
  }

  /** The stored keys that name no known option: what is removed. */
  function UnknownKeys(options: Store, store: Store): (u: set<string>)
    ensures forall k :: k in u <==> k in store && k !in options
  {
    store.Keys - options.Keys
  }

  /**
   * The storage calls of the reconciliation: one write of the missing
   * defaults if any are missing, then one removal of the unknown keys if
   * there are any.
   */
  function ReconcileOps(options: Store, store: Store): (ops: seq<StoreOp>)
  {
    var on := MissingDefaults(options, store);
    var unknown := UnknownKeys(options, store);
    (if |on| > 0 then [Set(on)] else []) + (if |unknown| > 0 then [Remove(unknown)] else [])
  }

  /**
   * maintainAddOnOptions: walks the known options, deleting each one found
   * from a copy of the store and collecting each one missing with its
   * default; then writes what was collected and removes what is left.
   */
  method MaintainAddOnOptions(options: Store, store: Store) returns (ops: seq<StoreOp>)
    ensures ops == ReconcileOps(options, store)
  {
    var oo := store;
    var on: Store := map[];
    var todo := options.Keys;
    while todo != {}
      invariant todo <= options.Keys
      invariant forall k :: k in oo <==> k in store && (k in options ==> k in todo)
      invariant forall k :: k in oo ==> oo[k] == store[k]
      invariant forall k :: k in on <==> k in options && k !in todo && k !in store
      invariant forall k :: k in on ==> on[k] == options[k]
      decreases todo
    {
      var option :| option in todo;
      if option in oo {
        oo := oo - {option};
      } else {
        on := on[option := options[option]];
      }
      todo := todo - {option};
    }
    assert on == MissingDefaults(options, store);
    assert oo.Keys == UnknownKeys(options, store);
    ops := [];
    if |on| > 0 {
      ops := ops + [Set(on)];
    }
    if |oo.Keys| > 0 {
      ops := ops + [Remove(oo.Keys)];
    }
  }

  /**
   * The store the reconciliation leaves: every known option, stored ones
   * with their stored value, missing ones with their default, nothing else.
   */
  lemma ReconcileEffect(options: Store, store: Store)
    ensures var after := ApplyAll(store, ReconcileOps(options, store));
      && (forall k :: k in after <==> k in options)
      && (forall k :: k in options ==> after[k] == if k in store then store[k] else options[k])
  {
    var on := MissingDefaults(options, store);
    var unknown := UnknownKeys(options, store);
    var writes: seq<StoreOp> := if |on| > 0 then [Set(on)] else [];
    var removes: seq<StoreOp> := if |unknown| > 0 then [Remove(unknown)] else [];
    assert ReconcileOps(options, store) == writes + removes;
    ApplyAllAppend(store, writes, removes);
    var mid := ApplyAll(store, writes);
    var after := ApplyAll(mid, removes);
    if |on| > 0 {
      ApplyOne(store, Set(on));
    } else {
      assert forall k :: k !in on by {
        assert |on.Keys| == 0;
      }
    }
    assert forall k :: k in mid <==> k in store || k in on;
    assert forall k :: k in mid ==> mid[k] == if k in store then store[k] else options[k];
    if |unknown| > 0 {
      ApplyOne(mid, Remove(unknown));
    } else {
      assert unknown == {};
    }
    assert forall k :: k in after <==> k in mid && k !in unknown;
    assert forall k :: k in after ==> after[k] == mid[k];
  }

  lemma ApplyOne(store: Store, op: StoreOp)
    ensures ApplyAll(store, [op]) == Apply(store, op)
  {
  }

  /** Afterwards the store holds exactly the known options. */
  lemma ReconciledKeys(options: Store, store: Store)
    ensures ApplyAll(store, ReconcileOps(options, store)).Keys == options.Keys
  {
    ReconcileEffect(options, store);
  }

  /**
   * The write and the removal touch disjoint keys, there is no write when
   * nothing is missing and no removal when nothing is unknown.
   */
  lemma ReconcileOpsShape(options: Store, store: Store)
    ensures var ops := ReconcileOps(options, store);
      && (Set(MissingDefaults(options, store)) in ops <==> MissingDefaults(options, store) != map[])
      && (Remove(UnknownKeys(options, store)) in ops <==> UnknownKeys(options, store) != {})
      && (forall op :: op in ops ==> op == Set(MissingDefaults(options, store)) || op == Remove(UnknownKeys(options, store)))
      && MissingDefaults(options, store).Keys !! UnknownKeys(options, store)
  {
  }

  /** A second reconciliation right after the first issues no storage call. */
  lemma ReconcileIdempotent(options: Store, store: Store)
    ensures ReconcileOps(options, ApplyAll(store, ReconcileOps(options, store))) == []
  {
    var after := ApplyAll(store, ReconcileOps(options, store));
    ReconciledKeys(options, store);
    assert MissingDefaults(options, after) == map[];
    assert UnknownKeys(options, after) == {};
  }

  /**
   * With the add-on's own option table the reconciliation does not change
   * what a cooked load reads.
   */
  lemma ReconcileKeepsCookedOptions(store: Store)
    ensures Common.CookedOptions(ApplyAll(store, ReconcileOps(Common.OptionDefaults, store)))
         == Common.CookedOptions(store)
  {
    var after := ApplyAll(store, ReconcileOps(Common.OptionDefaults, store));
    ReconcileEffect(Common.OptionDefaults, store);
    forall o | o in Common.OptionDefaults
      ensures Common.CookedValue(after, o) == Common.CookedValue(store, o)
    {
      if o !in store {
        assert Common.Sane(o, Common.OptionDefaults[o]);
      }
    }
  }

  /**
   * A store holding an unknown key `foo` and lacking trim_triple_clicks is
   * normalised to hold that option's default and no `foo`.
   */
  lemma ReconcileExample()
    ensures var store := map[
        "foo" := VStr("bar"),
        Common.IN_INPUT_ELEMENTS := VBool(true),
        Common.USE_NATIVE_COPY := VBool(false),
        Common.MULTI_RANGE_SEP := VStr("%20")];
      var after := ApplyAll(store, ReconcileOps(Common.OptionDefaults, store));
      && "foo" !in after
      && Common.TRIM_TRIPLE_CLICKS in after && after[Common.TRIM_TRIPLE_CLICKS] == VBool(true)
      && Common.IN_INPUT_ELEMENTS in after && after[Common.IN_INPUT_ELEMENTS] == VBool(true)
  {
    var store := map[
        "foo" := VStr("bar"),
        Common.IN_INPUT_ELEMENTS := VBool(true),
        Common.USE_NATIVE_COPY := VBool(false),
        Common.MULTI_RANGE_SEP := VStr("%20")];
    ReconciledKeys(Common.OptionDefaults, store);
    ReconcileEffect(Common.OptionDefaults, store);
  }

  /** The installation details the lifecycle event carries. */
  datatype InstallDetails = InstallDetails(reason: string, temporary: bool)

  /** showOnboardingPage: the onboarding tab is opened only for a permanent fresh install. */
  function ShowOnboardingPage(details: InstallDetails): (open: bool)
    ensures open <==> !details.temporary && details.reason == "install"
  {
    if details.temporary then false
    else if details.reason != "install" then false
    else true
  }

  /** The installation listener: reconcile the options, then decide on the onboarding tab. */
  method OnInstalled(options: Store, store: Store, details: InstallDetails)
    returns (ops: seq<StoreOp>, openOnboarding: bool)
    ensures ApplyAll(store, ops).Keys == options.Keys
    ensures ops == ReconcileOps(options, store)
    ensures openOnboarding <==> !details.temporary && details.reason == "install"
  {
    ops := MaintainAddOnOptions(options, store);
    ReconciledKeys(options, store);
    openOnboarding := ShowOnboardingPage(details);
  }
}
