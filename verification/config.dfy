/**
  The configuration merger of resque-pool: a raw configuration maps worker
  keys to counts and environment names to blocks of counts; merging it with
  the resolved environment yields the flat effective configuration.
 */
module Config {
  import opened Options

  /** A top-level value: a worker count, or one environment block.
      Blocks hold counts only, so nesting never goes deeper than one level. */
  datatype Value = Count(n: int) | Block(entries: map<string, int>)

  /** Keys are opaque strings: a comma-grouped key such as "foo,bar" is one key. */
  type RawConfig = map<string, Value>

  type EffectiveConfig = map<string, int>

  /** `k` is a top-level default, i.e. bound to a count rather than a block. */
  predicate IsDefault(raw: RawConfig, k: string)
  {
    k in raw && raw[k].Count?
  }

  /** No top-level entry of `raw` is an environment block. */
  predicate NoBlocks(raw: RawConfig)
  {
    forall k :: k in raw ==> raw[k].Count?
  }

  /** The integer entries of a raw configuration; blocks are dropped. */
  function IntegerEntries(m: RawConfig): EffectiveConfig
  {
    map k | k in m && m[k].Count? :: m[k].n
  }

  /** A flat configuration seen as a raw one without blocks. */
  function Lift(m: EffectiveConfig): RawConfig
  {
    map k | k in m :: Count(m[k])
  }

  /** The block named by the environment, or nothing when no environment is
      resolved or its name is not bound to a block. */
  function SelectedBlock(raw: RawConfig, env: Option<string>): map<string, int>
  {
    if env.Some? && env.value in raw && raw[env.value].Block?
    then raw[env.value].entries
    else map[]
  }

  /** Reference meaning of the effective configuration, one key at a time:
      the selected block's entry wins, otherwise the default, otherwise nil. */
  function Entry(raw: RawConfig, env: Option<string>, k: string): Option<int>
  {
    var block := SelectedBlock(raw, env);
    if k in block then Some(block[k])
    else if IsDefault(raw, k) then Some(raw[k].n)
    else None
  }

  /** The effective configuration: copy the raw configuration, overwrite it
      with the selected block, then drop every remaining block. */
  function Merge(raw: RawConfig, env: Option<string>): (r: EffectiveConfig)
    ensures forall k :: k in r <==> Entry(raw, env, k).Some?
    ensures forall k :: k in r ==> Entry(raw, env, k) == Some(r[k])
  {
    IntegerEntries(raw + Lift(SelectedBlock(raw, env)))
  }

  /** Step one of the merge: start empty and copy every top-level default. */
  method CopyDefaults(raw: RawConfig) returns (r: EffectiveConfig)
    ensures forall k :: k in r <==> IsDefault(raw, k)
    ensures forall k :: k in r ==> k in raw && raw[k] == Count(r[k])
  {
    r := map[];
    var todo := raw.Keys;
    while todo != {}
      invariant todo <= raw.Keys
      invariant forall k :: k in r <==> k in raw && k !in todo && raw[k].Count?
      invariant forall k :: k in r ==> k in raw && raw[k] == Count(r[k])
      decreases |todo|
    {
      var k :| k in todo;
      if raw[k].Count? {
        r := r[k := raw[k].n];
      }
      todo := todo - {k};
    }
  }

  /** Step two of the merge: copy every entry of a block over a flat
      configuration, each entry replacing the one with the same key. */
  method Overlay(base: EffectiveConfig, block: map<string, int>) returns (r: EffectiveConfig)
    ensures forall k :: k in r <==> k in base || k in block
    ensures forall k :: k in r ==> r[k] == (if k in block then block[k] else base[k])
  {
    r := base;
    var rest := block.Keys;
    while rest != {}
      invariant rest <= block.Keys
      invariant forall k :: k in r <==> k in base || (k in block && k !in rest)
      invariant forall k :: k in r ==> r[k] == (if k in block && k !in rest then block[k] else base[k])
      decreases |rest|
    {
      var k :| k in rest;
      r := r[k := block[k]];
      rest := rest - {k};
    }
  }

  /** The merge as a sequence of steps: copy the defaults, then copy the
      selected block's entries over them. */
  method MergeInSteps(raw: RawConfig, env: Option<string>) returns (r: EffectiveConfig)
    ensures r == Merge(raw, env)
  {
    var defaults := CopyDefaults(raw);
    r := Overlay(defaults, SelectedBlock(raw, env));
    var m := Merge(raw, env);
    assert forall k :: k in r <==> k in m;
    assert forall k :: k in r ==> r[k] == m[k];
  }

  /** Without environment blocks the result is the input, whatever the environment. */
  lemma NoBlocksMergeIsIdentity(raw: RawConfig, env: Option<string>)
    requires NoBlocks(raw)
    ensures Lift(Merge(raw, env)) == raw
  {
  }

  /** A top-level default is present under every environment, and keeps its
      value unless the selected block rebinds the same key. */
  lemma DefaultAlwaysPresent(raw: RawConfig, env: Option<string>, k: string)
    requires IsDefault(raw, k)
    ensures k in Merge(raw, env)
    ensures k !in SelectedBlock(raw, env) ==> Merge(raw, env)[k] == raw[k].n
  {
  }

  /** The entries of the block named by the environment appear in the result
      with the block's value, overriding (not adding to) any default. */
  lemma SelectedBlockWins(raw: RawConfig, e: string, k: string)
    requires e in raw && raw[e].Block? && k in raw[e].entries
    ensures k in Merge(raw, Some(e)) && Merge(raw, Some(e))[k] == raw[e].entries[k]
  {
  }

  /** Entries of blocks other than the selected one never leak: a key that
      is neither a default nor in the selected block is absent. This is the
      "only if" half of the key clause of `Merge`. */
  lemma OtherBlocksDoNotLeak(raw: RawConfig, env: Option<string>, k: string)
    requires !IsDefault(raw, k) && k !in SelectedBlock(raw, env)
    ensures k !in Merge(raw, env)
  {
  }

  /** Every key of the result is a default or an entry of the selected block,
      taken verbatim: keys are never split on commas or reordered. */
  lemma ResultKeysAreInputKeys(raw: RawConfig, env: Option<string>)
    ensures Merge(raw, env).Keys == IntegerEntries(raw).Keys + SelectedBlock(raw, env).Keys
  {
  }

  /** With no environment resolved the result is exactly the defaults. */
  lemma NoEnvironmentGivesDefaults(raw: RawConfig)
    ensures Merge(raw, None) == IntegerEntries(raw)
  {
  }

  /** An environment that names no block is not an error: it yields the defaults. */
  lemma UnmatchedEnvironmentGivesDefaults(raw: RawConfig, e: string)
    requires e !in raw || raw[e].Count?
    ensures Merge(raw, Some(e)) == IntegerEntries(raw)
  {
  }

  /** An empty raw configuration has no worker types. */
  lemma EmptyConfigGivesEmpty(env: Option<string>)
    ensures Merge(map[], env) == map[]
  {
  }

  /** Merging an effective configuration again, under any environment,
      changes nothing: the result is a fixed point of the merge. */
  lemma MergeIsIdempotent(raw: RawConfig, env: Option<string>, env': Option<string>)
    ensures Merge(Lift(Merge(raw, env)), env') == Merge(raw, env)
  {
  }
}
