# resque-pool configuration resolution, in Dafny

This project models how resque-pool works out its desired worker counts, and
how it runs its `after_prefork` hooks. The behaviour modelled is the one that
the pool's RSpec examples pin down:

- **Config merge** (`Config`). A raw configuration maps string keys to a
  worker count or to one environment block of counts. The top-level counts
  are defaults. The block named by the resolved environment is layered on
  top, and its entries replace defaults with the same key. Every other block
  is dropped. Keys are opaque strings, so `"foo,bar"` and `"bar,foo"` are
  distinct keys and are never split. `Merge` is the definition.
  `MergeInSteps` is the same merge written as loops that copy the defaults
  and then the block. `Entry` is a reference that describes the result one
  key at a time.
- **Environment resolver** (`Environment`). The signals are the `RAILS_ENV`
  constant, `ENV['RACK_ENV']`, `ENV['RESQUE_ENV']` and `Rails.env`, in that
  order. The first one that is set and non-empty is the environment; if none
  is, there is no environment.
- **Hook chain** (`Hooks`). Hooks are appended in registration order.
  `call_after_prefork!` invokes them in order and produces a trace of the
  hook ids it invoked. A hook that raises stops the run.
- **Pool instance** (`ResquePool`). `init_config` loads a source, resolves
  the environment and replaces the held configuration as a whole. By the
  model's choice (listed below), a load error leaves the previous state in
  place and the hook chain is never touched by a reload.
- **Examples** (`PoolExamples`). The RSpec scenarios are stated as lemmas on
  their literal configurations. Each holds for a pool instance in any prior
  state, because the instance is a singleton that the examples reuse. Two
  lemmas state scenarios that no RSpec example runs, and they rest on the
  model's choices listed below:
  - `FailingHookStopsTheRun` has a hook that raises, and relies on the
    fail-fast choice. It needs only that the earlier hooks do not raise.
  - `RailsEnvConstantOutranksRackEnvOnLoad` sets two signals at once, and
    relies on the resolver-order choice.

Signals, the file system and hook failures are explicit inputs. Signals are
`Option<string>` values. Readable files are a map from path to parsed
configuration. The hooks that raise on a run are given as a set of ids.

The model follows the behaviour asserted by `spec/resque_pool_spec.rb`; it
does not reproduce the library's code line by line. Where the examples say
nothing, the model chooses:

- the resolver's order: the `RAILS_ENV` constant, then `ENV['RACK_ENV']`,
  then `ENV['RESQUE_ENV']`, then `Rails.env`;
- empty signals count as unset;
- a hook that raises stops the run (fail-fast), and later hooks are not
  invoked;
- an environment name that names no block, or that is bound to a count
  rather than a block, selects nothing and yields the defaults;
- a load error leaves the previous state in place;
- a reload never touches the hook chain.

## Model

| member | source | states |
|---|---|---|
| Config.Merge | spec/resque_pool_spec.rb:35-124 | a key is in the effective configuration iff it is in the selected environment block or is a top-level default; its value is the block's value if the block has the key, otherwise the default |
| Config.MergeInSteps | spec/resque_pool_spec.rb:35-124 | copying the defaults and then the selected block's entries over them gives exactly the merged configuration |
| Config.CopyDefaults | spec/resque_pool_spec.rb:112-121 | the copied map holds exactly the top-level count entries, each with its count; blocks are left out |
| Config.Overlay | spec/resque_pool_spec.rb:57-60 | the result holds the keys of both maps; where the block has a key, its value replaces the base value rather than adding to it |
| Config.NoBlocksMergeIsIdentity | spec/resque_pool_spec.rb:13-30 | a raw configuration without environment blocks loads unchanged under any environment |
| Config.DefaultAlwaysPresent | spec/resque_pool_spec.rb:53-55 | a top-level default is present under every environment, with its own value unless the selected block rebinds that key |
| Config.SelectedBlockWins | spec/resque_pool_spec.rb:57-60 | every entry of the block named by the environment appears with the block's value, which overrides a default with the same key |
| Config.OtherBlocksDoNotLeak | spec/resque_pool_spec.rb:62-65 | a key that is neither a default nor in the selected block, such as an entry of any other block, is absent from the result |
| Config.ResultKeysAreInputKeys | spec/resque_pool_spec.rb:15-30 | the result's keys are exactly the default keys plus the selected block's keys, taken verbatim, so comma-grouped keys are never split |
| Config.NoEnvironmentGivesDefaults | spec/resque_pool_spec.rb:112-121 | with no environment resolved, the result is exactly the top-level defaults |
| Config.UnmatchedEnvironmentGivesDefaults | spec/resque_pool_spec.rb:35-42 | an environment that names no block yields exactly the defaults and is not an error; this is a model choice, since no example resolves an environment without a matching block |
| Config.EmptyConfigGivesEmpty | spec/resque_pool_spec.rb:126-133 | an empty raw configuration gives an empty result under any environment |
| Config.MergeIsIdempotent | spec/resque_pool_spec.rb:13-30 | merging an effective configuration again, under any environment, returns it unchanged |
| Environment.Resolve | spec/resque_pool_spec.rb:45-49 | the `RAILS_ENV` constant is the environment when it is non-empty; otherwise `ENV['RACK_ENV']`, then `ENV['RESQUE_ENV']`, then `Rails.env`, the first non-empty one; with all four unset or empty there is none |
| Environment.FirstNonEmptyIndex | spec/resque_pool_spec.rb:45-49 | the returned position holds a non-empty signal, and every earlier signal is unset or empty; when no signal is non-empty, the length is returned |
| Environment.FirstNonEmpty | spec/resque_pool_spec.rb:45-49 | the result is none iff every signal is unset or empty; otherwise it is one of the signals and non-empty |
| Environment.FirstNonEmptyPicksEarliest | spec/resque_pool_spec.rb:45-49 | a non-empty signal preceded only by empty ones is the one chosen |
| Environment.SoleSignalResolves | spec/resque_pool_spec.rb:69-73 | when exactly one of the four signals is set, to a non-empty name, the environment is that name |
| Environment.RailsEnvConstantOutranksRackEnv | spec/resque_pool_spec.rb:45-49 | with the `RAILS_ENV` constant and `ENV['RACK_ENV']` both set, the constant's value wins; no example sets both, so this follows the resolver-order choice |
| Environment.EmptySignalsResolveToNone | spec/resque_pool_spec.rb:4-10 | with every signal removed or empty, there is no environment |
| Hooks.Register | spec/resque_pool_spec.rb:229-233 | registering keeps every earlier hook in place and adds the new one last |
| Hooks.RunAll | spec/resque_pool_spec.rb:207-240 | the trace is a prefix of the chain; no hook raises iff the run completes with the whole chain as its trace; otherwise the run ends at the first hook that raises, and reports that hook |
| Hooks.RunAllStopsInPrefix | spec/resque_pool_spec.rb:236 | when a hook in the first part of a chain raises, running the whole chain is the same as running that first part, so later hooks are never reached; the stop on a raising hook is the fail-fast choice, as no example hook raises |
| Hooks.RunAllContinuesAfterPrefix | spec/resque_pool_spec.rb:236 | when no hook in the first part of a chain raises, running the whole chain invokes all of the first part and then runs the second part |
| Hooks.RegisteredHookIsCalled | spec/resque_pool_spec.rb:211-217 | a newly registered hook is invoked by the next run, after every hook registered before it |
| Hooks.FirstFailureStopsRun | spec/resque_pool_spec.rb:236 | when the hook at position i is the first to raise, exactly the hooks up to and including it are invoked and its failure is reported; this is the fail-fast choice, as no example hook raises |
| ResquePool.InitConfig | spec/resque_pool_spec.rb:18-19 | a reload fails iff the load fails, and then leaves the state unchanged; on success, the configuration is the reference merge of the loaded source under the resolved environment; hooks are kept either way |
| ResquePool.AfterPrefork | spec/resque_pool_spec.rb:212 | registering a hook appends it to the instance's chain and leaves the configuration unchanged |
| ResquePool.CallAfterPrefork | spec/resque_pool_spec.rb:215 | the trace is a prefix of the instance's chain; no hook raises iff the run invokes the whole chain in order; otherwise the run ends at the first hook that raises and reports it |
| ResquePool.InitConfigReplacesWholesale | spec/resque_pool_spec.rb:112-121 | after a successful reload nothing of the previous configuration remains: instances with the same hooks end in the same state |
| ResquePool.HooksSurviveReload | spec/resque_pool_spec.rb:212 | a hook registered before a reload is still invoked, last, by the next run; hooks are registered on the class, apart from any configuration, and no example reloads after registering, so keeping them is a model choice |
| PoolExamples.SimpleConfigMergesAsIs | spec/resque_pool_spec.rb:14-30 | merging the four-key mapping under any environment, or none, gives exactly its own four counts, with "foo,bar" and "bar,foo" as separate keys |
| PoolExamples.SimpleConfigLoadsAsIs | spec/resque_pool_spec.rb:13-33 | the four-key mapping loads as exactly the same four counts whatever the signals, including none at all, which is the state the example loads in, before `ENV['RACK_ENV']` is set |
| PoolExamples.TestBlockMerged | spec/resque_pool_spec.rb:35-65 | under `test`, the result has foo 8, bar 10 and "foo,bar" 12, and baz is absent |
| PoolExamples.RailsEnvConstantSelectsTest | spec/resque_pool_spec.rb:45-67 | `RAILS_ENV = "test"` gives foo 8, bar 10 and "foo,bar" 12, and baz is absent |
| PoolExamples.RailsAppEnvSelectsTest | spec/resque_pool_spec.rb:69-93 | `Rails.env == "test"` gives foo 8, bar 10 and "foo,bar" 12, and baz is absent |
| PoolExamples.RailsEnvConstantOutranksRackEnvOnLoad | spec/resque_pool_spec.rb:45-67 | with `RAILS_ENV = "test"` and `ENV['RACK_ENV'] = "development"`, the `test` block is loaded; no example sets both, so this follows the resolver-order choice |
| PoolExamples.ResqueEnvSelectsDevelopment | spec/resque_pool_spec.rb:96-110 | `ENV['RESQUE_ENV'] = "development"` gives foo 8, "foo,bar" 16 and baz 14, and bar is absent |
| PoolExamples.NoEnvironmentLoadsDefaultsOnly | spec/resque_pool_spec.rb:112-122 | with no signal set, the configuration is exactly foo 8 |
| PoolExamples.EmptyConfigHasNoWorkerTypes | spec/resque_pool_spec.rb:126-134 | an empty mapping loads as an empty configuration under any signals |
| PoolExamples.SingleHookIsCalled | spec/resque_pool_spec.rb:211-227 | a hook registered with a block or with the attribute writer is invoked by `call_after_prefork!`, last, after whatever hooks earlier examples left in the class-level chain |
| PoolExamples.BothHooksAreCalled | spec/resque_pool_spec.rb:229-240 | with two hooks registered, both are invoked, the first one first |
| PoolExamples.FailingHookStopsTheRun | spec/resque_pool_spec.rb:236 | with hooks A, B and C registered after earlier hooks that do not raise, and B raising, the earlier hooks, A and B are invoked, C is not, and B's failure is reported; no example hook raises, so this follows the fail-fast choice |

## Left out

- YAML parsing, ERB templating and `choose_config_file` (spec/resque_pool_spec.rb:136-204): these need files that are not part of this model, plus file I/O. A file is modelled only as an entry in the `files` map of parsed contents.
- ResquePool.Load is the file-system boundary: a file is an entry in the `files` map of parsed contents, so loading is a map lookup, next to the YAML/ERB loading left out above.
- `ENV['RAILS_ENV']` is not modelled as a signal. The examples clear it between runs, which suggests the library reads it, but they never set it, so its rank among the signals is unknown.
- The DRb server (`lib/resque/pool/drb_server.rb`): it only starts a network service on `localhost:9001` and joins its thread, with no logic of its own.
- Singleton management, mutation of global constants and `ENV`, and RSpec `before`/`after` ordering: the pool state is an explicit `Pool` value, and the signals are explicit `Option<string>` inputs.
- Atomic publication of a reloaded configuration under concurrent readers: the model is sequential, and `InitConfig` returns either the whole new state or the old one.
- The side effects of hooks: a hook is an id, and all that is modelled of it is whether it raises on a given run.
- Hooks.Register: the `after_prefork=` attribute writer is modelled as one more registration. The examples only show that the written hook is invoked. They do not show whether the writer replaces hooks registered earlier.
- Precedence among several simultaneous signals is not exercised by the examples. It is the model's resolver-order choice. Only the single-signal cases are proved against examples; `RAILS_ENV` over `RACK_ENV` follows from that choice.
