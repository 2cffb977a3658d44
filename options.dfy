/**
 * The UCX option dictionary handed to `init`, and the configuration the
 * native library derives from it and from the process environment.
 */
module Options {

  /** A Python dict of UCX options, which `init` filters in place. */
  class OptionDict {
    var entries: map<string, string>

    constructor (entries: map<string, string>)
      ensures this.entries == entries
    {
      this.entries := entries;
    }
  }

  /** `options` without the keys in `keys`; the remaining keys keep their values. */
  function Filtered(options: map<string, string>, keys: set<string>): map<string, string>
  {
    options - keys
  }

  /**
   * The configuration a native context created with `options` runs with:
   * environment variables, overridden by the options passed explicitly.
   */
  function Effective(env: map<string, string>, options: map<string, string>): map<string, string>
  {
    env + options
  }

  /** Filtering removes exactly the listed keys and changes no value. */
  lemma FilteredExactly(options: map<string, string>, keys: set<string>)
    ensures forall k :: k in Filtered(options, keys) <==> k in options && k !in keys
    ensures forall k :: k in Filtered(options, keys) ==> Filtered(options, keys)[k] == options[k]
  {
  }

  /**
   * When the environment's keys are first dropped from the options, every
   * environment variable wins and every other option keeps its value.
   */
  lemma EnvironmentWins(env: map<string, string>, options: map<string, string>)
    ensures var cfg := Effective(env, Filtered(options, env.Keys));
      && cfg.Keys == env.Keys + options.Keys
      && (forall k :: k in env ==> cfg[k] == env[k])
      && (forall k :: k in options && k !in env ==> cfg[k] == options[k])
  {
  }

  /** Options passed unfiltered override the environment. */
  lemma ExplicitOptionsWin(env: map<string, string>, options: map<string, string>)
    ensures var cfg := Effective(env, options);
      && cfg.Keys == env.Keys + options.Keys
      && (forall k :: k in options ==> cfg[k] == options[k])
      && (forall k :: k in env && k !in options ==> cfg[k] == env[k])
  {
  }
}
