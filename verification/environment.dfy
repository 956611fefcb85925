/**
  The environment resolver: the active environment name is the first
  non-empty signal of an ordered list, or none when every signal is unset.
 */
module Environment {
  import opened Options

  /** The process-wide signals read on every configuration load. Each one is
      `None` when the constant, variable or framework object is absent. */
  datatype Signals = Signals(
    railsEnvConstant: Option<string>,  // the global `RAILS_ENV` constant
    rackEnv: Option<string>,           // `ENV['RACK_ENV']`
    resqueEnv: Option<string>,         // `ENV['RESQUE_ENV']`
    railsAppEnv: Option<string>        // `Rails.env`, when `Rails` is defined
  )

  /** No signal is set. */
  const NoSignals := Signals(None, None, None, None)

  /** The signals in precedence order, highest first. */
  function Ordered(s: Signals): seq<Option<string>>
  {
    [s.railsEnvConstant, s.rackEnv, s.resqueEnv, s.railsAppEnv]
  }

  /** A signal that is set to a non-empty name. */
  predicate NonEmpty(o: Option<string>)
  {
    o.Some? && o.value != ""
  }

  /** Position of the first non-empty signal, or `|sigs|` when there is none. */
  function FirstNonEmptyIndex(sigs: seq<Option<string>>): (i: nat)
    ensures i <= |sigs|
    ensures forall j :: 0 <= j < i ==> !NonEmpty(sigs[j])
    ensures i < |sigs| ==> NonEmpty(sigs[i])
  {
    if sigs == [] then 0
    else if NonEmpty(sigs[0]) then 0
    else 1 + FirstNonEmptyIndex(sigs[1..])
  }

  /** The first non-empty signal wins; all signals empty gives no environment. */
  function FirstNonEmpty(sigs: seq<Option<string>>): (r: Option<string>)
    ensures r.None? <==> forall j :: 0 <= j < |sigs| ==> !NonEmpty(sigs[j])
    ensures r.Some? ==> r.value != "" && r in sigs
  {
    var i := FirstNonEmptyIndex(sigs);
    if i < |sigs| then sigs[i] else None
  }

  /** The environment named by the signals: the `RAILS_ENV` constant, else
      `ENV['RACK_ENV']`, else `ENV['RESQUE_ENV']`, else `Rails.env`, each
      considered only when set to a non-empty name; otherwise none. */
  function Resolve(s: Signals): (r: Option<string>)
    ensures NonEmpty(s.railsEnvConstant) ==> r == s.railsEnvConstant
    ensures !NonEmpty(s.railsEnvConstant) && NonEmpty(s.rackEnv) ==> r == s.rackEnv
    ensures (!NonEmpty(s.railsEnvConstant) && !NonEmpty(s.rackEnv) && NonEmpty(s.resqueEnv))
              ==> r == s.resqueEnv
    ensures (!NonEmpty(s.railsEnvConstant) && !NonEmpty(s.rackEnv) && !NonEmpty(s.resqueEnv))
              ==> r == (if NonEmpty(s.railsAppEnv) then s.railsAppEnv else None)
  {
    var sigs := Ordered(s);
    // Every branch yields the same value; the split only applies the
    // precedence lemma at the position of the first non-empty signal.
    if NonEmpty(sigs[0]) then FirstNonEmptyPicksEarliest(sigs, 0); FirstNonEmpty(sigs)
    else if NonEmpty(sigs[1]) then FirstNonEmptyPicksEarliest(sigs, 1); FirstNonEmpty(sigs)
    else if NonEmpty(sigs[2]) then FirstNonEmptyPicksEarliest(sigs, 2); FirstNonEmpty(sigs)
    else if NonEmpty(sigs[3]) then FirstNonEmptyPicksEarliest(sigs, 3); FirstNonEmpty(sigs)
    else FirstNonEmpty(sigs)
  }

  /** A non-empty signal preceded only by empty ones is the one chosen:
      earlier signals take precedence over later ones. */
  lemma FirstNonEmptyPicksEarliest(sigs: seq<Option<string>>, i: nat)
    requires i < |sigs| && NonEmpty(sigs[i])
    requires forall j :: 0 <= j < i ==> !NonEmpty(sigs[j])
    ensures FirstNonEmpty(sigs) == sigs[i]
  {
  }

  /** When exactly one signal is set, the resolver returns its value,
      whichever of the four signals it is. */
  lemma SoleSignalResolves(s: Signals, i: nat, v: string)
    requires i < 4 && v != ""
    requires Ordered(s)[i] == Some(v)
    requires forall j :: 0 <= j < 4 && j != i ==> Ordered(s)[j] == None
    ensures Resolve(s) == Some(v)
  {
  }

  /** The `RAILS_ENV` constant outranks `ENV['RACK_ENV']`: with both set, the
      constant's value is the environment. */
  lemma RailsEnvConstantOutranksRackEnv(rails: string, rack: string)
    requires rails != ""
    ensures Resolve(Signals(Some(rails), Some(rack), None, None)) == Some(rails)
  {
  }

  /** Unset or empty signals resolve to no environment. */
  lemma EmptySignalsResolveToNone(s: Signals)
    requires forall j :: 0 <= j < 4 ==> !NonEmpty(Ordered(s)[j])
    ensures Resolve(s) == None
  {
  }
}
