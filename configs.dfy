/**
 * Configurations of configs.py as maps from parameter names to Python values, and
 * `derive_config`, which overrides some of the entries of a configuration.
 */
module Configs {

  /** A Python value held in a configuration. */
  datatype Value = IntV(i: int) | RealV(r: real) | BoolV(b: bool) | StrV(s: string) | NoneV

  type Config = map<string, Value>

  /**
   * What `derive_config` returns: a copy of `original` in which every overruled key has the
   * overruling value; all other keys keep their original value, and no key disappears.
   */
  function Derived(original: Config, overrules: Config): (derived: Config)
    ensures derived.Keys == original.Keys + overrules.Keys
    ensures forall k :: k in overrules ==> derived[k] == overrules[k]
    ensures forall k :: k in original && k !in overrules ==> derived[k] == original[k]
  {
    original + overrules
  }

  /** `derive_config`: copy the original, then assign the overruling values one key at a time. */
  method DeriveConfig(original: Config, overrules: Config) returns (derived: Config)
    ensures derived == Derived(original, overrules)
  {
    derived := original;
    var remaining, done := overrules.Keys, {};
    while remaining != {}
      invariant remaining + done == overrules.Keys && remaining !! done
      invariant derived == original + Restrict(overrules, done)
      decreases |remaining|
    {
      var k :| k in remaining;
      derived := derived[k := overrules[k]];
      RestrictStep(original, overrules, done, k);
      remaining, done := remaining - {k}, done + {k};
    }
    RestrictAll(overrules, done);
  }

  function Restrict(m: Config, keys: set<string>): Config
  {
    map k | k in keys && k in m :: m[k]
  }

  lemma RestrictStep(original: Config, m: Config, done: set<string>, k: string)
    requires k in m
    ensures original + Restrict(m, done + {k}) == (original + Restrict(m, done))[k := m[k]]
  {
  }

  lemma RestrictAll(m: Config, keys: set<string>)
    requires keys == m.Keys
    ensures Restrict(m, keys) == m
  {
  }

  /** Overruling nothing gives back the original. */
  lemma DeriveNothing(original: Config)
    ensures Derived(original, map[]) == original
  {
  }

  /** Deriving twice is deriving once with the later overrules winning. */
  lemma DeriveTwice(original: Config, first: Config, second: Config)
    ensures Derived(Derived(original, first), second) == Derived(original, Derived(first, second))
  {
  }
}
