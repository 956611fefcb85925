/**
  The behaviour the pool's examples assert, on their literal configurations,
  stated for an instance in any prior state (the instance is a singleton
  reused from one example to the next). Two lemmas go beyond the examples:
  `RailsEnvConstantOutranksRackEnvOnLoad` relies on the resolver order, and
  `FailingHookStopsTheRun` relies on the fail-fast run.
 */
module PoolExamples {
  import opened Options
  import opened Config
  import opened Environment
  import opened Hooks
  import opened ResquePool

  /** Four worker keys, two of them comma-grouped in either order. */
  const SimpleConfig: RawConfig :=
    map["foo" := Count(1), "bar" := Count(2), "foo,bar" := Count(3), "bar,foo" := Count(4)]

  /** A default plus a `test` and a `development` block. */
  const HashConfig: RawConfig :=
    map[
      "foo" := Count(8),
      "test" := Block(map["bar" := 10, "foo,bar" := 12]),
      "development" := Block(map["baz" := 14, "foo,bar" := 16])
    ]

  /** The effective configuration after loading an in-memory mapping. */
  function Loaded(p: Pool, raw: RawConfig, signals: Signals): EffectiveConfig
  {
    InitConfig(p, Inline(raw), map[], signals).pool.config
  }

  /** The counts of `SimpleConfig`, which has no blocks. */
  const SimpleCounts: EffectiveConfig :=
    map["foo" := 1, "bar" := 2, "foo,bar" := 3, "bar,foo" := 4]

  /** Merging `SimpleConfig` under any environment gives its own counts. */
  lemma SimpleConfigMergesAsIs(env: Option<string>)
    ensures Merge(SimpleConfig, env) == SimpleCounts
  {
    assert IntegerEntries(SimpleConfig) == SimpleCounts;
    match env
    case None => NoEnvironmentGivesDefaults(SimpleConfig);
    case Some(e) => UnmatchedEnvironmentGivesDefaults(SimpleConfig, e);
  }

  /** A mapping without blocks loads unchanged whatever the signals, including
      none at all; "foo,bar" and "bar,foo" keep their own counts. */
  lemma SimpleConfigLoadsAsIs(p: Pool, signals: Signals)
    ensures Loaded(p, SimpleConfig, signals) == SimpleCounts
  {
    SimpleConfigMergesAsIs(Resolve(signals));
  }

  /** The `test` block layered over the defaults, `development` ignored. */
  predicate TestEnvironmentConfig(c: EffectiveConfig)
  {
    && "foo" in c && c["foo"] == 8
    && "bar" in c && c["bar"] == 10
    && "foo,bar" in c && c["foo,bar"] == 12
    && "baz" !in c
  }

  /** Merging `HashConfig` under `test` gives the `test` layering. */
  lemma TestBlockMerged()
    ensures TestEnvironmentConfig(Merge(HashConfig, Some("test")))
  {
    var env := Some("test");
    DefaultAlwaysPresent(HashConfig, env, "foo");
    SelectedBlockWins(HashConfig, "test", "bar");
    SelectedBlockWins(HashConfig, "test", "foo,bar");
    OtherBlocksDoNotLeak(HashConfig, env, "baz");
  }

  /** `RAILS_ENV = "test"` selects the `test` block. */
  lemma RailsEnvConstantSelectsTest(p: Pool)
    ensures TestEnvironmentConfig(Loaded(p, HashConfig, NoSignals.(railsEnvConstant := Some("test"))))
  {
    SoleSignalResolves(NoSignals.(railsEnvConstant := Some("test")), 0, "test");
    TestBlockMerged();
  }

  /** `Rails.env == "test"` selects the `test` block. */
  lemma RailsAppEnvSelectsTest(p: Pool)
    ensures TestEnvironmentConfig(Loaded(p, HashConfig, NoSignals.(railsAppEnv := Some("test"))))
  {
    SoleSignalResolves(NoSignals.(railsAppEnv := Some("test")), 3, "test");
    TestBlockMerged();
  }

  /** With `RAILS_ENV = "test"` and `ENV['RACK_ENV'] = "development"` both set,
      the constant wins and the `test` block is selected. */
  lemma RailsEnvConstantOutranksRackEnvOnLoad(p: Pool)
    ensures TestEnvironmentConfig(Loaded(p, HashConfig, NoSignals.(railsEnvConstant := Some("test"), rackEnv := Some("development"))))
  {
    RailsEnvConstantOutranksRackEnv("test", "development");
    TestBlockMerged();
  }

  /** `ENV['RESQUE_ENV'] = "development"` selects the `development` block. */
  lemma ResqueEnvSelectsDevelopment(p: Pool)
    ensures var c := Loaded(p, HashConfig, NoSignals.(resqueEnv := Some("development")));
      && "foo" in c && c["foo"] == 8
      && "foo,bar" in c && c["foo,bar"] == 16
      && "baz" in c && c["baz"] == 14
      && "bar" !in c
  {
    var env := Some("development");
    SoleSignalResolves(NoSignals.(resqueEnv := Some("development")), 2, "development");
    DefaultAlwaysPresent(HashConfig, env, "foo");
    SelectedBlockWins(HashConfig, "development", "foo,bar");
    SelectedBlockWins(HashConfig, "development", "baz");
    OtherBlocksDoNotLeak(HashConfig, env, "bar");
  }

  /** With no signal set only the defaults load. */
  lemma NoEnvironmentLoadsDefaultsOnly(p: Pool)
    ensures Loaded(p, HashConfig, NoSignals) == map["foo" := 8]
  {
    EmptySignalsResolveToNone(NoSignals);
    NoEnvironmentGivesDefaults(HashConfig);
    assert IntegerEntries(HashConfig) == map["foo" := 8];
  }

  /** An empty mapping has no worker types, whatever the signals. */
  lemma EmptyConfigHasNoWorkerTypes(p: Pool, signals: Signals)
    ensures Loaded(p, map[], signals) == map[]
  {
    EmptyConfigGivesEmpty(Resolve(signals));
  }

  /** A hook, registered by block or by the attribute writer, is called, last,
      whatever hooks earlier examples left in the class-level chain. */
  lemma SingleHookIsCalled(p: Pool, h: HookId)
    ensures CallAfterPrefork(AfterPrefork(p, h), {}).trace == p.hooks + [h]
  {
    RegisteredHookIsCalled(p.hooks, h, {});
  }

  /** With two hooks registered, both are called, the first one first. */
  lemma BothHooksAreCalled(p: Pool, first: HookId, second: HookId)
    ensures var t := CallAfterPrefork(AfterPrefork(AfterPrefork(p, first), second), {}).trace;
      t == p.hooks + [first, second]
  {
    RegisteredHookIsCalled(p.hooks, first, {});
    RegisteredHookIsCalled(p.hooks + [first], second, {});
    assert p.hooks + [first] + [second] == p.hooks + [first, second];
  }

  /** Hooks A, B, C registered after hooks that do not raise, with B raising:
      the earlier hooks, A and B are invoked, C is not, and the failure of B
      is reported. */
  lemma FailingHookStopsTheRun(p: Pool, a: HookId, b: HookId, c: HookId)
    requires a != b && NoneFail(p.hooks, {b})
    ensures CallAfterPrefork(AfterPrefork(AfterPrefork(AfterPrefork(p, a), b), c), {b})
              == Run(p.hooks + [a, b], Some(b))
  {
    assert RunAll([a, b, c], {b}) == Run([a, b], Some(b));
    RunAllContinuesAfterPrefix(p.hooks, [a, b, c], {b});
    assert p.hooks + [a] + [b] + [c] == p.hooks + [a, b, c];
  }
}
