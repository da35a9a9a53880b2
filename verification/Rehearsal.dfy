/** The rehearsal manifest: evidence per scenario, and the state derived from it. */
module Rehearsal {
  import opened Prelude

  datatype Scenario =
    | Preflight
    | AuthorizationMint
    | WithdrawalRelease
    | LedgerFeeGuard
    | CanonicalReceipt
    | SingleProviderFailure
    | QuorumLoss
    | AuthorizationExpiry
    | ProcessedEventMismatch
    | FinalPause

  const LAUNCH: set<Scenario> := {Preflight, AuthorizationMint, WithdrawalRelease, QuorumLoss, FinalPause}

  const EXTENDED: set<Scenario> := set s: Scenario | true

  datatype Progress =
    | AwaitingPreflight
    | ReadyForAssetFlows
    | ReadyForQuorumLoss
    | ReadyForFinalPause
    | LaunchReady
    | ExtendedComplete

  type Evidence = nat

  datatype Manifest = Manifest(
    scenarios: map<Scenario, Evidence>, state: Progress, launchReady: bool, extendedComplete: bool)

  function Derive(completed: set<Scenario>): (Progress, bool, bool) {
    if Preflight !in completed then (AwaitingPreflight, false, false)
    else if !({AuthorizationMint, WithdrawalRelease} <= completed) then (ReadyForAssetFlows, false, false)
    else if QuorumLoss !in completed then (ReadyForQuorumLoss, false, false)
    else if FinalPause !in completed then (ReadyForFinalPause, false, false)
    else
      var extended := EXTENDED <= completed;
      (if extended then ExtendedComplete else LaunchReady, LAUNCH <= completed, extended)
  }

  /** Everything checked about one scenario's evidence, over fixed files. */
  type Validator = (Scenario, Evidence) -> bool

  function Flagged(scenarios: map<Scenario, Evidence>): Manifest {
    var (state, launchReady, extendedComplete) := Derive(scenarios.Keys);
    Manifest(scenarios, state, launchReady, extendedComplete)
  }

  function Record(m: Manifest, valid: Validator, s: Scenario, e: Evidence): Option<Manifest> {
    if s != Preflight && Preflight !in m.scenarios then None
    else if FinalPause in m.scenarios && s !in m.scenarios then None
    else if s == FinalPause && !(LAUNCH - {FinalPause} <= m.scenarios.Keys) then None
    else if !valid(s, e) then None
    else if s in m.scenarios && m.scenarios[s] != e then None
    else Some(Flagged(m.scenarios[s := e]))
  }

  predicate Verified(m: Manifest, valid: Validator) {
    && (forall s | s in m.scenarios :: valid(s, m.scenarios[s]))
    && m == Flagged(m.scenarios)
  }

  /** The manifest dictionary that record updates. */
  class ManifestFile {
    var scenarios: map<Scenario, Evidence>
    var state: Progress
    var launchReady: bool
    var extendedComplete: bool

    function Look(): Manifest
      reads this
    {
      Manifest(scenarios, state, launchReady, extendedComplete)
    }

    constructor ()
      ensures Look() == Manifest(map[], AwaitingPreflight, false, false)
    {
      scenarios, state, launchReady, extendedComplete := map[], AwaitingPreflight, false, false;
    }

    method Add(valid: Validator, scenario: Scenario, evidence: Evidence) returns (ok: bool)
      modifies this
      ensures
        var next := Record(old(Look()), valid, scenario, evidence);
        ok == next.Some? && Look() == if ok then next.value else old(Look())
    {
      if scenario != Preflight && Preflight !in scenarios {
        return false;
      }
      if FinalPause in scenarios && scenario !in scenarios {
        return false;
      }
      if scenario == FinalPause && !(LAUNCH - {FinalPause} <= scenarios.Keys) {
        return false;
      }
      if !valid(scenario, evidence) || (scenario in scenarios && scenarios[scenario] != evidence) {
        return false;
      }
      scenarios := scenarios[scenario := evidence];
      var (newState, ready, extended) := Derive(scenarios.Keys);
      state, launchReady, extendedComplete := newState, ready, extended;
      return true;
    }
  }

  // Runs.

  datatype Attempt = Attempt(scenario: Scenario, evidence: Evidence)

  /** A manifest after any number of attempts; the refused ones change nothing. */
  function After(m: Manifest, valid: Validator, attempts: seq<Attempt>): Manifest
    decreases |attempts|
  {
    if attempts == [] then m
    else
      var next := Record(m, valid, attempts[0].scenario, attempts[0].evidence);
      After(if next.Some? then next.value else m, valid, attempts[1..])
  }

  const EMPTY := Manifest(map[], AwaitingPreflight, false, false)

  function Rank(p: Progress): nat {
    match p
    case AwaitingPreflight => 0
    case ReadyForAssetFlows => 1
    case ReadyForQuorumLoss => 2
    case ReadyForFinalPause => 3
    case LaunchReady => 4
    case ExtendedComplete => 5
  }

  /** Flags and evidence agree, nothing precedes the preflight, and the final pause follows the launch scenarios. */
  predicate Inv(m: Manifest, valid: Validator) {
    && Verified(m, valid)
    && (m.scenarios != map[] ==> Preflight in m.scenarios)
    && (FinalPause in m.scenarios ==> LAUNCH <= m.scenarios.Keys)
  }

  /** Evidence is write-once and progress never goes back. */
  predicate Advances(m: Manifest, n: Manifest) {
    && (forall s | s in m.scenarios :: s in n.scenarios && n.scenarios[s] == m.scenarios[s])
    && Rank(m.state) <= Rank(n.state)
    && (m.launchReady ==> n == m)
  }

  /** The flags say what they are named after, whatever has been recorded. */
  lemma FlagsMeanCompletion(completed: set<Scenario>)
    ensures Derive(completed).1 <==> LAUNCH <= completed
    ensures Derive(completed).2 <==> forall s :: s in completed
  {
    assert EXTENDED <= completed <==> forall s :: s in completed;
  }

  lemma DeriveIsMonotone(a: set<Scenario>, b: set<Scenario>)
    requires a <= b
    ensures Rank(Derive(a).0) <= Rank(Derive(b).0)
  { }

  lemma RecordAdvances(m: Manifest, valid: Validator, s: Scenario, e: Evidence)
    requires Inv(m, valid) && Record(m, valid, s, e).Some?
    ensures Inv(Record(m, valid, s, e).value, valid) && Advances(m, Record(m, valid, s, e).value)
  {
    var n := Record(m, valid, s, e).value;
    DeriveIsMonotone(m.scenarios.Keys, n.scenarios.Keys);
    if m.launchReady {
      assert s in m.scenarios;
      assert n.scenarios == m.scenarios;
    }
  }

  /**
   In every run the verifier accepts the manifest reached, evidence is never replaced, progress never
   goes back, and a manifest that is launch ready no longer changes.
   */
  lemma {:induction false} RunAdvances(m: Manifest, valid: Validator, attempts: seq<Attempt>)
    requires Inv(m, valid)
    ensures Inv(After(m, valid, attempts), valid) && Advances(m, After(m, valid, attempts))
    decreases |attempts|
  {
    if attempts != [] {
      var next := Record(m, valid, attempts[0].scenario, attempts[0].evidence);
      if next.Some? {
        RecordAdvances(m, valid, attempts[0].scenario, attempts[0].evidence);
      }
      RunAdvances(if next.Some? then next.value else m, valid, attempts[1..]);
    }
  }

  /** A rehearsal that was launch ready without the extended scenarios never completes them. */
  lemma LaunchReadyIsFinal(valid: Validator, before: seq<Attempt>, after: seq<Attempt>)
    ensures
      var m := After(EMPTY, valid, before);
      var n := After(m, valid, after);
      && Verified(m, valid) && Verified(n, valid)
      && (m.state.LaunchReady? ==> n.state.LaunchReady? && !n.extendedComplete && n.scenarios == m.scenarios)
  {
    RunAdvances(EMPTY, valid, before);
    RunAdvances(After(EMPTY, valid, before), valid, after);
  }
}
