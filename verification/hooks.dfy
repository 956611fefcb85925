/**
  The after_prefork hook chain: an append-only list of callbacks, all of
  which `call_after_prefork!` invokes in registration order. A callback is
  identified by an id; what it does is outside the model, except whether it
  raises, which is given per run as the set of ids that fail.
 */
module Hooks {
  import opened Options

  type HookId = nat

  type HookChain = seq<HookId>

  /** The invocation trace of one run, and the hook that raised, if any. */
  datatype Run = Run(trace: seq<HookId>, failure: Option<HookId>)

  /** `after_prefork { ... }` and `after_prefork = proc`: the callback is
      added after every hook already registered, which all stay in place. */
  function Register(chain: HookChain, h: HookId): (r: HookChain)
    ensures |r| == |chain| + 1
    ensures r[..|chain|] == chain && r[|chain|] == h
  {
    chain + [h]
  }

  /** No hook of the chain raises on this run. */
  predicate NoneFail(chain: HookChain, failing: set<HookId>)
  {
    forall i :: 0 <= i < |chain| ==> chain[i] !in failing
  }

  /** `call_after_prefork!`: invoke every hook in order; the first one that
      raises stops the run, and the later ones are not invoked. */
  function RunAll(chain: HookChain, failing: set<HookId>): (r: Run)
    ensures |r.trace| <= |chain| && r.trace == chain[..|r.trace|]
    ensures r.failure.None? ==> r.trace == chain
    ensures r.failure.None? <==> NoneFail(chain, failing)
    ensures r.failure.Some? ==>
              && |r.trace| > 0
              && r.failure.value == r.trace[|r.trace| - 1]
              && r.failure.value in failing
              && NoneFail(r.trace[..|r.trace| - 1], failing)
  {
    if chain == [] then Run([], None)
    else if chain[0] in failing then Run([chain[0]], Some(chain[0]))
    else
      var rest := RunAll(chain[1..], failing);
      Run([chain[0]] + rest.trace, rest.failure)
  }

  /** When a hook of the first part of a chain raises, the hooks after that
      part are never reached: the run is the run of the first part. */
  lemma {:induction false} RunAllStopsInPrefix(a: HookChain, b: HookChain, failing: set<HookId>)
    requires RunAll(a, failing).failure.Some?
    ensures RunAll(a + b, failing) == RunAll(a, failing)
  {
    var ab := a + b;
    assert ab[0] == a[0] && ab[1..] == a[1..] + b;
    if a[0] !in failing {
      RunAllStopsInPrefix(a[1..], b, failing);
    }
  }

  /** When no hook of the first part of a chain raises, the run invokes all
      of that part and then continues with the second part. */
  lemma {:induction false} RunAllContinuesAfterPrefix(a: HookChain, b: HookChain, failing: set<HookId>)
    requires RunAll(a, failing).failure.None?
    ensures RunAll(a + b, failing) == Run(a + RunAll(b, failing).trace, RunAll(b, failing).failure)
  {
    if a == [] {
      assert a + b == b;
    } else {
      var ab := a + b;
      assert ab[0] == a[0] && ab[1..] == a[1..] + b;
      assert a[0] !in failing;
      var tail := RunAll(a[1..], failing);
      assert RunAll(a, failing) == Run([a[0]] + tail.trace, tail.failure);
      RunAllContinuesAfterPrefix(a[1..], b, failing);
      var rb := RunAll(b, failing);
      var tailb := RunAll(a[1..] + b, failing);
      assert tailb == Run(a[1..] + rb.trace, rb.failure);
      assert RunAll(ab, failing) == Run([a[0]] + tailb.trace, tailb.failure);
      assert [a[0]] + (a[1..] + rb.trace) == a + rb.trace;
    }
  }

  /** A newly registered hook is invoked by the next run, after every hook
      registered before it, unless one of those raises. */
  lemma RegisteredHookIsCalled(chain: HookChain, h: HookId, failing: set<HookId>)
    requires NoneFail(chain, failing)
    ensures RunAll(Register(chain, h), failing).trace == chain + [h]
  {
  }

  /** When the hook at position `i` is the first to raise, the run invokes
      exactly the hooks up to and including it and reports its failure. */
  lemma FirstFailureStopsRun(chain: HookChain, i: nat, failing: set<HookId>)
    requires i < |chain| && chain[i] in failing
    requires NoneFail(chain[..i], failing)
    ensures RunAll(chain, failing) == Run(chain[..i + 1], Some(chain[i]))
  {
    var pre, post := chain[..i], chain[i..];
    assert chain == pre + post;
    assert post[0] == chain[i];
    assert RunAll(post, failing) == Run([chain[i]], Some(chain[i]));
    RunAllContinuesAfterPrefix(pre, post, failing);
    assert pre + [chain[i]] == chain[..i + 1];
  }
}
