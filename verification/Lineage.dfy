/** Replacing a signed activation transaction: the lineage order and the replace-activation command. */
module Lineage {
  import opened Kernel

  datatype Kind = ScheduleActivation | ExecuteActivation | OtherKind

  /** A signed transaction; terms stands for chain id, nonce, sender, target, calldata and gas limit. */
  datatype Artifact = Artifact(
    operation: nat,
    kind: Kind,
    terms: string,
    generation: nat,
    signedAt: nat,
    maxFee: u128,
    priorityFee: u128,
    hash: nat)

  predicate SameTerms(a: Artifact, b: Artifact) {
    a.operation == b.operation && a.kind == b.kind && a.terms == b.terms
  }

  /** The stored artifact may stand for the live one: it is the same, or an earlier attempt of it. */
  predicate Precedes(stored: Artifact, live: Artifact) {
    && !live.kind.OtherKind? && !stored.kind.OtherKind? && SameTerms(stored, live)
    && stored.generation <= live.generation
    && 0 < stored.signedAt <= live.signedAt
    && stored.maxFee <= live.maxFee && stored.priorityFee <= live.priorityFee
    && (stored.generation < live.generation || stored == live)
  }

  /** The live artifact is the replacement of the stored one at exactly these fees. */
  predicate Replaces(stored: Artifact, live: Artifact, maxFee: u128, priorityFee: u128) {
    && SameTerms(stored, live)
    && live.generation == stored.generation + 1
    && live.maxFee == maxFee && live.priorityFee == priorityFee
  }

  predicate Proper(a: Artifact) {
    !a.kind.OtherKind? && a.signedAt > 0
  }

  /** Lineage is a partial order on activation artifacts with a positive signing time. */
  lemma PrecedesIsPartialOrder(a: Artifact, b: Artifact, c: Artifact)
    ensures Precedes(a, a) <==> Proper(a)
    ensures Precedes(a, b) && Precedes(b, a) ==> a == b
    ensures Precedes(a, b) && Precedes(b, c) ==> Precedes(a, c)
  { }

  /** One replacement step that lowers neither the fees nor the time. */
  predicate StepUp(a: Artifact, b: Artifact) {
    && Replaces(a, b, b.maxFee, b.priorityFee)
    && a.maxFee <= b.maxFee && a.priorityFee <= b.priorityFee && a.signedAt <= b.signedAt
  }

  predicate Chain(history: seq<Artifact>) {
    forall k | 0 < k < |history| :: StepUp(history[k - 1], history[k])
  }

  /** In a chain of replacement steps every artifact precedes every later one. */
  lemma {:induction false} ChainPrecedes(history: seq<Artifact>, i: nat, j: nat)
    requires i <= j < |history| && Chain(history) && Proper(history[i])
    ensures Precedes(history[i], history[j]) && history[j].generation == history[i].generation + (j - i)
    decreases j
  {
    if i < j {
      ChainPrecedes(history, i, j - 1);
      assert StepUp(history[j - 1], history[j]);
    }
  }

  // The canister's side of a replacement.

  datatype Limits = Limits(maxReplacements: nat, maxFeeCeiling: nat, priorityFeeCeiling: nat, bumpBps: nat)

  function Saturate(n: nat): nat {
    if n > U128_MAX then U128_MAX else n
  }

  /** The proposed fee is above the current one by the configured share, rounded up. */
  predicate MinimumBump(current: nat, proposed: nat, bumpBps: nat) {
    var minimum := Saturate(Saturate(current * (10_000 + bumpBps)) + 9_999) / 10_000;
    proposed >= minimum && proposed >= Saturate(current + 1)
  }

  predicate FeesAllowed(limits: Limits, current: Artifact, maxFee: u128, priorityFee: u128) {
    && current.generation < limits.maxReplacements
    && maxFee <= limits.maxFeeCeiling && priorityFee <= limits.priorityFeeCeiling && priorityFee <= maxFee
    && MinimumBump(current.maxFee, maxFee, limits.bumpBps)
    && MinimumBump(current.priorityFee, priorityFee, limits.bumpBps)
  }

  // Concurrent runs of the command.

  /** Where one run of replace-activation stands; it waits for the canister between any two of these. */
  datatype Phase =
    | Started
    | Preparing(expected: nat)
    | Signing(current: Artifact)
    | Issued(replacement: Artifact)
    | Found(replacement: Artifact)
    | Refused

  datatype Call = Call(stored: Artifact, maxFee: u128, priorityFee: u128, phase: Phase)

  /** The signed transactions of one operation, oldest first, and the runs of the command. */
  datatype World = World(history: seq<Artifact>, awaitingRelay: bool, calls: seq<Call>)

  datatype Action =
    | Invoke(stored: Artifact, maxFee: u128, priorityFee: u128)
    | ReadPending(call: nat)
    | Begin(call: nat)
    | Commit(call: nat, hash: nat, now: nat)
    | Abort(call: nat)
    | Settle

  function Live(w: World): Artifact
    requires w.history != []
  {
    w.history[|w.history| - 1]
  }

  function Renewed(current: Artifact, maxFee: u128, priorityFee: u128, hash: nat, now: nat): Artifact {
    current.(generation := current.generation + 1, signedAt := now, maxFee := maxFee, priorityFee := priorityFee, hash := hash)
  }

  predicate Fresh(history: seq<Artifact>, hash: nat) {
    forall k | 0 <= k < |history| :: history[k].hash != hash
  }

  function NextPhase(limits: Limits, w: World, a: Action): Phase
    requires w.history != [] && !a.Invoke? && !a.Settle? && a.call < |w.calls|
  {
    var c := w.calls[a.call];
    match a
    case ReadPending(_) =>
      if !c.phase.Started? then c.phase
      else if c.stored.kind.OtherKind? then Refused
      else if c.stored == Live(w) then Preparing(Live(w).hash)
      else if Replaces(c.stored, Live(w), c.maxFee, c.priorityFee) then Found(Live(w))
      else Refused
    case Begin(_) =>
      if !c.phase.Preparing? then c.phase
      else if Live(w).hash != c.phase.expected || !w.awaitingRelay then Refused
      else if !FeesAllowed(limits, Live(w), c.maxFee, c.priorityFee) then Refused
      else Signing(Live(w))
    case Commit(_, hash, now) =>
      if !c.phase.Signing? then c.phase
      else if Live(w) != c.phase.current || !w.awaitingRelay then Refused
      else Issued(Renewed(Live(w), c.maxFee, c.priorityFee, hash, now))
    case Abort(_) =>
      if c.phase.Issued? || c.phase.Found? then c.phase else Refused
  }

  /** Clocks do not run backwards, and different signed transactions have different hashes. */
  predicate Possible(w: World, a: Action) {
    && w.history != []
    && match a
      case Invoke(_, _, _) => true
      case Settle => true
      case Commit(i, hash, now) => i < |w.calls| && Fresh(w.history, hash) && Live(w).signedAt <= now
      case _ => a.call < |w.calls|
  }

  function Next(limits: Limits, w: World, a: Action): World
    requires Possible(w, a)
  {
    if a.Invoke? then w.(calls := w.calls + [Call(a.stored, a.maxFee, a.priorityFee, Started)])
    else if a.Settle? then w.(awaitingRelay := false)
    else
      var before, after := w.calls[a.call].phase, NextPhase(limits, w, a);
      w.(calls := w.calls[a.call := w.calls[a.call].(phase := after)],
         history := if before.Signing? && after.Issued? then w.history + [after.replacement] else w.history)
  }

  // What every step keeps.

  predicate Distinct(history: seq<Artifact>) {
    forall j, k | 0 <= j < k < |history| :: history[j].hash != history[k].hash
  }

  /** A position of the history that holds this artifact. */
  predicate Held(history: seq<Artifact>, a: Artifact) {
    exists k :: 0 <= k < |history| && history[k] == a
  }

  predicate CallOk(history: seq<Artifact>, c: Call) {
    match c.phase
    case Started => true
    case Refused => true
    case Preparing(expected) => c.stored.hash == expected && Held(history, c.stored)
    case Signing(current) => c.stored == current && Held(history, c.stored) &&
      current.maxFee <= c.maxFee && current.priorityFee <= c.priorityFee
    case Issued(a) => Held(history, c.stored) && Held(history, a) && Replaces(c.stored, a, c.maxFee, c.priorityFee)
    case Found(a) => Held(history, a) && Replaces(c.stored, a, c.maxFee, c.priorityFee)
  }

  /** No two runs issued the same artifact. */
  predicate IssuedOnce(calls: seq<Call>) {
    forall i, j | 0 <= i < j < |calls| && calls[i].phase.Issued? && calls[j].phase.Issued? ::
      calls[i].phase.replacement != calls[j].phase.replacement
  }

  predicate Inv(w: World) {
    && w.history != [] && Chain(w.history) && Distinct(w.history) && IssuedOnce(w.calls)
    && forall i | 0 <= i < |w.calls| :: CallOk(w.history, w.calls[i])
  }

  lemma HeldGrows(history: seq<Artifact>, a: Artifact, more: Artifact)
    requires Held(history, a)
    ensures Held(history + [more], a)
  {
    var k :| 0 <= k < |history| && history[k] == a;
    assert (history + [more])[k] == a;
  }

  lemma CallOkGrows(history: seq<Artifact>, c: Call, more: Artifact)
    requires CallOk(history, c)
    ensures CallOk(history + [more], c)
  {
    forall a | Held(history, a) ensures Held(history + [more], a) {
      HeldGrows(history, a, more);
    }
  }

  lemma BumpKeepsOrder(current: u128, proposed: u128, bumpBps: nat)
    requires MinimumBump(current, proposed, bumpBps)
    ensures current <= proposed
  { }

  lemma LiveIsExpected(w: World, c: Call)
    requires Inv(w) && CallOk(w.history, c) && c.phase.Preparing? && Live(w).hash == c.phase.expected
    ensures Live(w) == c.stored
  {
    var k :| 0 <= k < |w.history| && w.history[k] == c.stored;
  }

  lemma PhaseKeepsOk(limits: Limits, w: World, a: Action)
    requires Inv(w) && Possible(w, a) && !a.Invoke? && !a.Settle?
    ensures
      var c := w.calls[a.call];
      var t := Next(limits, w, a);
      CallOk(t.history, c.(phase := NextPhase(limits, w, a)))
  {
    var c := w.calls[a.call];
    assert CallOk(w.history, c);
    assert Held(w.history, Live(w));
    if a.Begin? && NextPhase(limits, w, a).Signing? && c.phase.Preparing? {
      LiveIsExpected(w, c);
      BumpKeepsOrder(Live(w).maxFee, c.maxFee, limits.bumpBps);
      BumpKeepsOrder(Live(w).priorityFee, c.priorityFee, limits.bumpBps);
    }
    if a.Commit? && c.phase.Signing? && NextPhase(limits, w, a).Issued? {
      var issued := NextPhase(limits, w, a).replacement;
      HeldGrows(w.history, c.stored, issued);
      assert (w.history + [issued])[|w.history|] == issued;
    }
  }

  lemma IssueKeepsChain(limits: Limits, w: World, i: nat, hash: nat, now: nat)
    requires Inv(w) && Possible(w, Commit(i, hash, now)) && w.calls[i].phase.Signing? && Live(w) == w.calls[i].phase.current
    ensures
      var issued := Renewed(Live(w), w.calls[i].maxFee, w.calls[i].priorityFee, hash, now);
      Chain(w.history + [issued]) && Distinct(w.history + [issued]) && !Held(w.history, issued)
  {
    assert CallOk(w.history, w.calls[i]);
  }

  lemma NextKeepsInv(limits: Limits, w: World, a: Action)
    requires Inv(w) && Possible(w, a)
    ensures Inv(Next(limits, w, a)) && w.history <= Next(limits, w, a).history
  {
    if !a.Invoke? && !a.Settle? {
      var t := Next(limits, w, a);
      PhaseKeepsOk(limits, w, a);
      if t.history != w.history {
        IssueKeepsChain(limits, w, a.call, a.hash, a.now);
      }
      forall j | 0 <= j < |t.calls| ensures CallOk(t.history, t.calls[j]) {
        assert CallOk(w.history, w.calls[j]);
        if t.history != w.history {
          CallOkGrows(w.history, w.calls[j], Live(t));
        }
      }
    }
  }

  /** Everything issued respects the limits that were checked before signing. */
  predicate WithinLimits(limits: Limits, w: World) {
    && (forall i | 0 <= i < |w.calls| && w.calls[i].phase.Signing? ::
      FeesAllowed(limits, w.calls[i].phase.current, w.calls[i].maxFee, w.calls[i].priorityFee))
    && (forall k | 0 < k < |w.history| ::
      && w.history[k].generation <= limits.maxReplacements
      && w.history[k].priorityFee <= w.history[k].maxFee <= limits.maxFeeCeiling
      && w.history[k].priorityFee <= limits.priorityFeeCeiling)
  }

  lemma NextKeepsLimits(limits: Limits, w: World, a: Action)
    requires WithinLimits(limits, w) && Possible(w, a)
    ensures WithinLimits(limits, Next(limits, w, a))
  {
    if !a.Invoke? && !a.Settle? {
      var t := Next(limits, w, a);
      forall i | 0 <= i < |t.calls| && t.calls[i].phase.Signing?
        ensures FeesAllowed(limits, t.calls[i].phase.current, t.calls[i].maxFee, t.calls[i].priorityFee)
      {
        if i != a.call {
          assert t.calls[i] == w.calls[i];
        }
      }
    }
  }

  // Runs.

  predicate Run(limits: Limits, states: seq<World>, actions: seq<Action>) {
    && |states| == |actions| + 1
    && |states[0].history| == 1 && states[0].calls == []
    && forall k | 0 <= k < |actions| :: Possible(states[k], actions[k]) && states[k + 1] == Next(limits, states[k], actions[k])
  }

  lemma {:induction false} RunKeepsInv(limits: Limits, states: seq<World>, actions: seq<Action>, k: nat)
    requires Run(limits, states, actions) && k < |states|
    ensures Inv(states[k])
    decreases k
  {
    if k > 0 {
      RunKeepsInv(limits, states, actions, k - 1);
      NextKeepsInv(limits, states[k - 1], actions[k - 1]);
    }
  }

  lemma {:induction false} RunKeepsLimits(limits: Limits, states: seq<World>, actions: seq<Action>, k: nat)
    requires Run(limits, states, actions) && k < |states|
    ensures WithinLimits(limits, states[k])
    decreases k
  {
    if k > 0 {
      RunKeepsLimits(limits, states, actions, k - 1);
      NextKeepsLimits(limits, states[k - 1], actions[k - 1]);
    }
  }

  /** However many runs there are, an operation is replaced at most as often as configured. */
  lemma ReplacementsAreBounded(limits: Limits, states: seq<World>, actions: seq<Action>, k: nat)
    requires Run(limits, states, actions) && k < |states|
    ensures |states[k].history| <= 1 + limits.maxReplacements
    ensures forall j | 0 < j < |states[k].history| :: states[k].history[j].maxFee <= limits.maxFeeCeiling
  {
    RunKeepsInv(limits, states, actions, k);
    RunKeepsLimits(limits, states, actions, k);
    ChainGenerations(states[k].history, |states[k].history| - 1);
  }

  lemma {:induction false} ChainGenerations(history: seq<Artifact>, k: nat)
    requires Chain(history) && k < |history|
    ensures history[k].generation == history[0].generation + k
    decreases k
  {
    if k > 0 {
      ChainGenerations(history, k - 1);
      assert StepUp(history[k - 1], history[k]);
    }
  }

  predicate Succeeded(c: Call) {
    c.phase.Issued? || c.phase.Found?
  }

  /** However the runs interleave, all that succeed for one stored artifact return the same replacement. */
  lemma SameReplacement(w: World, i: nat, j: nat)
    requires Inv(w) && i < |w.calls| && j < |w.calls| && w.calls[i].stored == w.calls[j].stored
    requires Succeeded(w.calls[i]) && Succeeded(w.calls[j])
    ensures w.calls[i].phase.replacement == w.calls[j].phase.replacement
    ensures Replaces(w.calls[i].stored, w.calls[i].phase.replacement, w.calls[i].maxFee, w.calls[i].priorityFee)
  {
    assert CallOk(w.history, w.calls[i]) && CallOk(w.history, w.calls[j]);
    var m :| 0 <= m < |w.history| && w.history[m] == w.calls[i].phase.replacement;
    var n :| 0 <= n < |w.history| && w.history[n] == w.calls[j].phase.replacement;
    ChainGenerations(w.history, m);
    ChainGenerations(w.history, n);
  }

  /** At most one of them issued it. */
  lemma IssuedAtMostOnce(w: World, i: nat, j: nat)
    requires Inv(w) && i < |w.calls| && j < |w.calls| && w.calls[i].stored == w.calls[j].stored
    requires w.calls[i].phase.Issued? && w.calls[j].phase.Issued?
    ensures i == j
  {
    SameReplacement(w, i, j);
  }

  /** A retry with the same stored artifact and fees finds the issued replacement while it is pending. */
  lemma RetryFindsReplacement(limits: Limits, w: World, i: nat, j: nat)
    requires Inv(w) && i < |w.calls| && j < |w.calls|
    requires w.calls[i].phase.Issued? && Live(w) == w.calls[i].phase.replacement && !w.calls[i].stored.kind.OtherKind?
    requires w.calls[j] == w.calls[i].(phase := Started)
    ensures Next(limits, w, ReadPending(j)).calls[j].phase == Found(w.calls[i].phase.replacement)
    ensures Next(limits, w, ReadPending(j)).history == w.history
  {
    assert CallOk(w.history, w.calls[i]);
  }

  /** Every artifact ever signed precedes the one that is pending, so an old file still names its lineage. */
  lemma PendingLineage(limits: Limits, states: seq<World>, actions: seq<Action>, k: nat, i: nat)
    requires Run(limits, states, actions) && k < |states| && i < |states[k].history| && Proper(states[k].history[i])
    ensures states[k].history != [] && Precedes(states[k].history[i], Live(states[k]))
  {
    RunKeepsInv(limits, states, actions, k);
    ChainPrecedes(states[k].history, i, |states[k].history| - 1);
  }
}
