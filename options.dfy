/** Option defaulting, the common shape of every actor's `fix_options`: for each option the
    actor declares, in order, "if the key is absent, store the default". A value the caller
    supplied is never overwritten, and running the defaulting again changes nothing. */
module Options {
  import opened Values

  /** An actor's option dictionary: option name to configured value. */
  type OptionMap = map<string, Value>

  /** The options an actor declares, each with its default, in the order `fix_options` sets them. */
  type Defaults = seq<(string, Value)>

  /** `if key not in options: options[key] = default`. */
  function SetDefault(options: OptionMap, key: string, default: Value): OptionMap
  {
    if key in options then options else options[key := default]
  }

  function ApplyDefaults(options: OptionMap, defaults: Defaults): OptionMap
    decreases |defaults|
  {
    if defaults == [] then options
    else ApplyDefaults(SetDefault(options, defaults[0].0, defaults[0].1), defaults[1..])
  }

  /** The option names a declaration list covers. */
  function DeclaredKeys(defaults: Defaults): set<string>
    decreases |defaults|
  {
    if defaults == [] then {} else {defaults[0].0} + DeclaredKeys(defaults[1..])
  }

  /** The default of `key`: the first declaration that names it. */
  function DefaultOf(defaults: Defaults, key: string): Value
    requires key in DeclaredKeys(defaults)
    decreases |defaults|
  {
    if defaults[0].0 == key then defaults[0].1 else DefaultOf(defaults[1..], key)
  }

  /** The declaration at position i, when no earlier one names the same option, is the one
      that gives that option its default. */
  lemma {:induction false} DeclaredEntry(defaults: Defaults, i: nat)
    requires i < |defaults|
    requires forall j :: 0 <= j < i ==> defaults[j].0 != defaults[i].0
    ensures defaults[i].0 in DeclaredKeys(defaults)
    ensures DefaultOf(defaults, defaults[i].0) == defaults[i].1
    decreases i
  {
    if i > 0 {
      var rest := defaults[1..];
      assert rest[i - 1] == defaults[i];
      forall j | 0 <= j < i - 1
        ensures rest[j].0 != rest[i - 1].0
      {
        assert rest[j] == defaults[j + 1];
      }
      DeclaredEntry(rest, i - 1);
      assert defaults[0].0 != defaults[i].0;
    }
  }

  /** `fixed` is `options` completed with `defaults`: the declared keys are added, the
      supplied values are kept, and each added key holds its default. */
  ghost predicate Defaulted(options: OptionMap, defaults: Defaults, fixed: OptionMap)
  {
    && fixed.Keys == options.Keys + DeclaredKeys(defaults)
    && (forall k :: k in options ==> fixed[k] == options[k])
    && (forall k :: k in DeclaredKeys(defaults) && k !in options ==> fixed[k] == DefaultOf(defaults, k))
  }

  lemma {:induction false} ApplyDefaultsIsDefaulted(options: OptionMap, defaults: Defaults)
    ensures Defaulted(options, defaults, ApplyDefaults(options, defaults))
    decreases |defaults|
  {
    if defaults != [] {
      var (key, default) := defaults[0];
      var next := SetDefault(options, key, default);
      ApplyDefaultsIsDefaulted(next, defaults[1..]);
      var fixed := ApplyDefaults(options, defaults);
      assert fixed == ApplyDefaults(next, defaults[1..]);
      forall k | k in DeclaredKeys(defaults) && k !in options
        ensures fixed[k] == DefaultOf(defaults, k)
      {
        if k != key {
          assert k in DeclaredKeys(defaults[1..]) && k !in next;
        }
      }
    }
  }

  /** Defaulting options that already hold every declared key changes nothing. */
  lemma {:induction false} ApplyDefaultsWhenComplete(options: OptionMap, defaults: Defaults)
    requires DeclaredKeys(defaults) <= options.Keys
    ensures ApplyDefaults(options, defaults) == options
    decreases |defaults|
  {
    if defaults != [] {
      assert SetDefault(options, defaults[0].0, defaults[0].1) == options;
      ApplyDefaultsWhenComplete(options, defaults[1..]);
    }
  }

  /** `fix_options(fix_options(o)) == fix_options(o)`. */
  lemma ApplyDefaultsIdempotent(options: OptionMap, defaults: Defaults)
    ensures ApplyDefaults(ApplyDefaults(options, defaults), defaults) == ApplyDefaults(options, defaults)
  {
    ApplyDefaultsIsDefaulted(options, defaults);
    ApplyDefaultsWhenComplete(ApplyDefaults(options, defaults), defaults);
  }

  /** The contract every actor's `fix_options` meets, for its own declaration list. */
  function FixWith(options: OptionMap, defaults: Defaults): (fixed: OptionMap)
    ensures Defaulted(options, defaults, fixed)
    ensures ApplyDefaults(fixed, defaults) == fixed
  {
    ApplyDefaultsIsDefaulted(options, defaults);
    ApplyDefaultsIdempotent(options, defaults);
    ApplyDefaults(options, defaults)
  }
}
