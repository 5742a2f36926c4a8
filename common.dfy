/**
 * The option library shared by every script of the add-on: the option table
 * with its defaults, the validator of the multi-range separator, and the
 * sanitising load and save of the options in local storage.
 */
module Common {
  import opened Values
  import opened Storage

  // ---------------------------------------------------------------------
  // The option table
  // ---------------------------------------------------------------------

  const IN_INPUT_ELEMENTS: string := "in_input_elements"
  const USE_NATIVE_COPY: string := "use_native_copy"
  const TRIM_TRIPLE_CLICKS: string := "trim_triple_clicks"
  const MULTI_RANGE_SEP: string := "multi_range_sep"

  /** The percent-encoded newline, lower-cased: "\n" encodes as "%0A". */
  const DEFAULT_MULTI_RANGE_SEP: string := "%0a"

  /**
   * The defaults of the option table.  The type of each default is the type
   * every stored value of that option must have.
   */
  const OptionDefaults: Store := map[
    IN_INPUT_ELEMENTS := VBool(false),
    USE_NATIVE_COPY := VBool(false),
    TRIM_TRIPLE_CLICKS := VBool(true),
    MULTI_RANGE_SEP := VStr(DEFAULT_MULTI_RANGE_SEP)
  ]

  /** A value `v` may be stored for `option`: the option is known and `v` has its default's type. */
  predicate Sane(option: string, v: Value) {
    option in OptionDefaults && SameType(v, OptionDefaults[option])
  }

  /** The table holds the four options; the separator defaults to the encoded newline. */
  lemma DefaultsTable()
    ensures OptionDefaults.Keys == {IN_INPUT_ELEMENTS, USE_NATIVE_COPY, TRIM_TRIPLE_CLICKS, MULTI_RANGE_SEP}
    ensures OptionDefaults[MULTI_RANGE_SEP] == VStr("%0a")
    ensures OptionDefaults[IN_INPUT_ELEMENTS] == VBool(false)
    ensures OptionDefaults[TRIM_TRIPLE_CLICKS] == VBool(true)
    ensures forall o :: o in OptionDefaults ==> Sane(o, OptionDefaults[o])
  {
  }

  // ---------------------------------------------------------------------
  // The validator of multi_range_sep
  // ---------------------------------------------------------------------

  /** What `decodeURIComponent` does with a string: yields the decoded text or throws a URIError. */
  datatype DecodeOutcome = Decoded(text: string) | UriError(message: string)

  /**
   * The `check` handler of multi_range_sep: `[true, null]` when the value
   * percent-decodes, `[false, message]` with the decoder's message otherwise.
   * The decoder is a parameter; the handler's second argument, the old value,
   * is ignored by the handler and left out.
   */
  function CheckMultiRangeSep(value: string, decode: string -> DecodeOutcome): (r: (bool, Option<string>))
    ensures r.0 <==> decode(value).Decoded?
    ensures r.0 ==> r.1 == None
    ensures !r.0 ==> r.1 == Some(decode(value).message)
  {
    match decode(value)
    case Decoded(_) => (true, None)
    case UriError(message) => (false, Some(message))
  }

  // ---------------------------------------------------------------------
  // The calling convention of loadOptions and saveOptions
  // ---------------------------------------------------------------------

  /** An argument passed to loadOptions or saveOptions. */
  datatype Arg = ABool(b: bool) | ARecord(fields: Store) | AKeys(keys: seq<string>) | AOther

  datatype Mode = Cooked | Raw

  datatype Selected = Selected(mode: Mode, rest: seq<Arg>)

  /**
   * The mode test at the head of both functions: a leading boolean argument
   * is always shifted off, and only the value `true` selects raw mode.
   */
  function SelectMode(args: seq<Arg>): (s: Selected)
    ensures s.mode == Raw <==> |args| > 0 && args[0] == ABool(true)
    ensures |args| > 0 && args[0].ABool? ==> s.rest == args[1..]
    ensures !(|args| > 0 && args[0].ABool?) ==> s.rest == args
  {
    if |args| == 0 || !args[0].ABool? then Selected(Cooked, args)
    else if args[0].b then Selected(Raw, args[1..])
    else Selected(Cooked, args[1..])
  }

  // ---------------------------------------------------------------------
  // Loading
  // ---------------------------------------------------------------------

  /** The cooked value of a known option: the stored one when present and well typed, else the default. */
  function CookedValue(store: Store, option: string): (v: Value)
    requires option in OptionDefaults
    ensures Sane(option, v)
    ensures option in store && Sane(option, store[option]) ==> v == store[option]
    ensures !(option in store && Sane(option, store[option])) ==> v == OptionDefaults[option]
  {
    if option !in store then OptionDefaults[option]
    else if !SameType(store[option], OptionDefaults[option]) then OptionDefaults[option]
    else store[option]
  }

  /** The cooked options read from a store. */
  function CookedOptions(store: Store): (on: Store)
    ensures on.Keys == OptionDefaults.Keys
    ensures forall o :: o in on ==> on[o] == CookedValue(store, o)
  {
    map o | o in OptionDefaults :: CookedValue(store, o)
  }

  /**
   * loadOptions: in raw mode the whole store, unchanged; in cooked mode a
   * record with exactly the known options, each sanitised.
   */
  method LoadOptions(args: seq<Arg>, store: Store) returns (r: Store)
    ensures SelectMode(args).mode == Raw ==> r == store
    ensures SelectMode(args).mode == Cooked ==> r == CookedOptions(store)
  {
    var cooked := SelectMode(args).mode == Cooked;
    var oo := store;
    if cooked {
      var on: Store := map[];
      var todo := OptionDefaults.Keys;
      while todo != {}
        invariant todo <= OptionDefaults.Keys
        invariant on.Keys == OptionDefaults.Keys - todo
        invariant forall o :: o in on ==> on[o] == CookedValue(oo, o)
        decreases todo
      {
        var option :| option in todo;
        var defval := OptionDefaults[option];
        if option !in oo {
          on := on[option := defval];
        } else if !SameType(oo[option], defval) {
          on := on[option := defval];
        } else {
          on := on[option := oo[option]];
        }
        todo := todo - {option};
      }
      r := on;
    } else {
      r := oo;
    }
  }

  /** Reading the cooked options back as if they were the store gives them unchanged. */
  lemma CookedOptionsIdempotent(store: Store)
    ensures CookedOptions(CookedOptions(store)) == CookedOptions(store)
  {
  }

  /** An empty store loads as the defaults. */
  lemma EmptyStoreLoadsDefaults()
    ensures CookedOptions(map[]) == OptionDefaults
  {
  }

  // ---------------------------------------------------------------------
  // Saving
  // ---------------------------------------------------------------------

  /** The entries of a proposed record that are known and correctly typed. */
  function SaneEntries(oo: Store): (on: Store)
    ensures on.Keys <= oo.Keys && on.Keys <= OptionDefaults.Keys
    ensures forall o :: o in on ==> on[o] == oo[o]
    ensures forall o :: o in oo ==> (o in on <==> Sane(o, oo[o]))
  {
    map o | o in oo && Sane(o, oo[o]) :: oo[o]
  }

  /** Why a call of saveOptions fails: an argument it reads has the wrong shape. */
  datatype SaveError =
    | NotARecord   // the options argument is missing or not an object
    | NotAKeyList  // raw mode: the list of keys to remove is missing or not an array

  /** The loop of the cooked branch of saveOptions. */
  method SaneSubset(oo: Store) returns (on: Store)
    ensures on == SaneEntries(oo)
  {
    on := map[];
    var todo := oo.Keys;
    while todo != {}
      invariant todo <= oo.Keys
      invariant forall o :: o in on <==> o in oo && o !in todo && Sane(o, oo[o])
      invariant forall o :: o in on ==> on[o] == oo[o]
      decreases todo
    {
      var option :| option in todo;
      var value := oo[option];
      if option !in OptionDefaults {
      } else if !SameType(value, OptionDefaults[option]) {
      } else {
        on := on[option := value];
      }
      todo := todo - {option};
    }
    assert on.Keys == SaneEntries(oo).Keys;
  }

  /**
   * saveOptions: the storage calls it issues and whether it fails.  Cooked
   * mode writes the sane subset of its one argument; raw mode writes its
   * first argument as is and then removes the keys listed in its second.
   */
  method SaveOptions(args: seq<Arg>) returns (ops: seq<StoreOp>, error: Option<SaveError>)
    ensures var s := SelectMode(args);
      s.mode == Cooked ==>
        if |s.rest| > 0 && s.rest[0].ARecord?
        then ops == [Set(SaneEntries(s.rest[0].fields))] && error == None
        else ops == [] && error == Some(NotARecord)
    ensures var s := SelectMode(args);
      s.mode == Raw ==>
        if |s.rest| == 0 || !s.rest[0].ARecord? then ops == [] && error == Some(NotARecord)
        else if |s.rest| > 1 && s.rest[1].AKeys?
        then ops == [Set(s.rest[0].fields), Remove(KeySet(s.rest[1].keys))] && error == None
        else ops == [Set(s.rest[0].fields)] && error == Some(NotAKeyList)
  {
    var s := SelectMode(args);
    var cooked := s.mode == Cooked;
    if |s.rest| == 0 || !s.rest[0].ARecord? {
      return [], Some(NotARecord);
    }
    var oo := s.rest[0].fields;
    if cooked {
      var on := SaneSubset(oo);
      ops, error := [Set(on)], None;
    } else {
      ops := [Set(oo)];
      if |s.rest| > 1 && s.rest[1].AKeys? {
        ops, error := ops + [Remove(KeySet(s.rest[1].keys))], None;
      } else {
        error := Some(NotAKeyList);
      }
    }
  }

  /**
   * A cooked save followed by a cooked load: every sane entry of the record
   * is read back unaltered, every other option reads as before the save.
   */
  lemma SaveThenLoad(store: Store, oo: Store)
    ensures var after := CookedOptions(Apply(store, Set(SaneEntries(oo))));
      forall o :: o in OptionDefaults ==>
        after[o] == if o in oo && Sane(o, oo[o]) then oo[o] else CookedOptions(store)[o]
  {
  }

  /** What a cooked load returns, a cooked save accepts whole. */
  lemma CookedOptionsAreSane(store: Store)
    ensures SaneEntries(CookedOptions(store)) == CookedOptions(store)
  {
  }

  /** A raw save of `oo` removing `or`: merges `oo` into the store, then no key of `or` remains. */
  lemma RawSaveEffect(store: Store, oo: Store, or: seq<string>)
    ensures var after := ApplyAll(store, [Set(oo), Remove(KeySet(or))]);
      && after.Keys == (store.Keys + oo.Keys) - KeySet(or)
      && (forall k :: k in after && k in oo ==> after[k] == oo[k])
      && (forall k :: k in after && k !in oo ==> after[k] == store[k])
  {
    var mid := Apply(store, Set(oo));
    assert ApplyAll(store, [Set(oo), Remove(KeySet(or))]) == ApplyAll(mid, [Remove(KeySet(or))]);
    assert ApplyAll(mid, [Remove(KeySet(or))]) == ApplyAll(Apply(mid, Remove(KeySet(or))), []);
  }
}
