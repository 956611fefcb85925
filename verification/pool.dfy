/**
  The pool instance: it holds the effective configuration and the hook
  chain. `init_config` loads a source, resolves the environment from the
  signals and replaces the held configuration wholesale; the hook chain is
  never touched by a reload.
 */
module ResquePool {
  import opened Options
  import opened Config
  import opened Environment
  import opened Hooks

  /** Where a configuration comes from: an in-memory mapping used as is, or
      a file path. */
  datatype Source = Inline(raw: RawConfig) | File(path: string)

  /** The file does not exist or could not be parsed. */
  datatype LoadError = ConfigLoadError(path: string)

  /** The state of the single pool instance. */
  datatype Pool = Pool(config: EffectiveConfig, hooks: HookChain)

  /** The state before any configuration is loaded or hook registered. */
  const Initial := Pool(map[], [])

  /** What `init_config` leaves behind: the new state and the load error, if any. */
  datatype InitOutcome = InitOutcome(pool: Pool, error: Option<LoadError>)

  /** Turns a source into a raw configuration. `files` maps each readable,
      well-formed file to its parsed contents; a path outside it fails. */
  function Load(source: Source, files: map<string, RawConfig>): (r: Result<RawConfig, LoadError>)
    ensures source.Inline? ==> r == Success(source.raw)
    ensures source.File? ==> (r.Failure? <==> source.path !in files)
    ensures source.File? && r.Success? ==> r.value == files[source.path]
  {
    match source
    case Inline(raw) => Success(raw)
    case File(path) => if path in files then Success(files[path]) else Failure(ConfigLoadError(path))
  }

  /** `init_config`: all or nothing. On success the configuration becomes the
      merge of the loaded source under the resolved environment; on failure
      the previous state is kept. Hooks persist either way. */
  function InitConfig(p: Pool, source: Source, files: map<string, RawConfig>, signals: Signals): (r: InitOutcome)
    ensures r.pool.hooks == p.hooks
    ensures r.error.Some? ==> r.pool == p
    ensures r.error.Some? <==> Load(source, files).Failure?
    ensures r.error.None? ==>
              && (forall k :: k in r.pool.config <==> Entry(Load(source, files).value, Resolve(signals), k).Some?)
              && (forall k :: k in r.pool.config ==> Entry(Load(source, files).value, Resolve(signals), k) == Some(r.pool.config[k]))
  {
    match Load(source, files)
    case Failure(e) => InitOutcome(p, Some(e))
    case Success(raw) => InitOutcome(p.(config := Merge(raw, Resolve(signals))), None)
  }

  /** `Pool.after_prefork`: registers a hook; the configuration is untouched. */
  function AfterPrefork(p: Pool, h: HookId): (r: Pool)
    ensures r.config == p.config
    ensures r.hooks == Register(p.hooks, h)
  {
    p.(hooks := Register(p.hooks, h))
  }

  /** `call_after_prefork!`: runs the instance's hook chain in registration
      order, stopping at the first hook that raises. */
  function CallAfterPrefork(p: Pool, failing: set<HookId>): (r: Run)
    ensures |r.trace| <= |p.hooks| && r.trace == p.hooks[..|r.trace|]
    ensures r.failure.None? <==> NoneFail(p.hooks, failing)
    ensures r.failure.None? ==> r.trace == p.hooks
    ensures r.failure.Some? ==>
              && |r.trace| > 0
              && r.failure.value == r.trace[|r.trace| - 1]
              && r.failure.value in failing
              && NoneFail(r.trace[..|r.trace| - 1], failing)
  {
    RunAll(p.hooks, failing)
  }

  /** A reload replaces the configuration wholesale: after a successful load
      nothing of the previously held configuration remains, so two instances
      with different configurations end up identical. */
  lemma InitConfigReplacesWholesale(p: Pool, q: Pool, source: Source, files: map<string, RawConfig>, signals: Signals)
    requires p.hooks == q.hooks
    requires Load(source, files).Success?
    ensures InitConfig(p, source, files, signals).pool == InitConfig(q, source, files, signals).pool
  {
  }

  /** Registered hooks survive any number of reloads: after registering a
      hook and reloading, the next run still invokes it, last. */
  lemma HooksSurviveReload(p: Pool, h: HookId, source: Source, files: map<string, RawConfig>, signals: Signals, failing: set<HookId>)
    requires NoneFail(p.hooks, failing)
    ensures CallAfterPrefork(InitConfig(AfterPrefork(p, h), source, files, signals).pool, failing).trace == p.hooks + [h]
  {
  }
}
