/** The staging manifest: ten stages recorded strictly in order. */
module Staging {
  import opened Prelude

  /**
   Stages by their place in the fixed order: bootstrap attestation, preflight, current schema upgrade,
   post-upgrade binding, frontend publish, smoke, wallet, refund rehearsal, RPC rehearsal, live acceptance.
   */
  const COUNT: nat := 10
  const PREFLIGHT: nat := 1
  const UPGRADE: nat := 2
  const RPC_REHEARSAL: nat := 8

  type Evidence = nat

  datatype Status = Awaiting(stage: nat) | ShortDelayLive

  datatype Manifest = Manifest(stages: seq<Option<Evidence>>, state: Status, complete: bool)

  /** The checks of one stage, with or without its files, and the checks across two stages. */
  datatype Checks = Checks(
    stage: (nat, Evidence, bool) -> bool,
    upgrade: (Evidence, Evidence) -> bool,
    rpc: (Evidence, Evidence) -> bool)

  /** Looking at the files as well never accepts more. */
  ghost predicate Stricter(c: Checks) {
    forall s, e :: c.stage(s, e, true) ==> c.stage(s, e, false)
  }

  function StatusOf(completed: nat): Status {
    if completed == COUNT then ShortDelayLive else Awaiting(completed)
  }

  /** The stages up to a point are recorded, and none after it. */
  predicate Prefix(stages: seq<Option<Evidence>>, n: nat) {
    && n <= |stages| == COUNT
    && (forall i | 0 <= i < n :: stages[i].Some?)
    && (forall i | n <= i < COUNT :: stages[i].None?)
  }

  predicate Crossed(stages: seq<Option<Evidence>>, c: Checks)
    requires |stages| == COUNT
  {
    && (stages[PREFLIGHT].Some? && stages[UPGRADE].Some? ==> c.upgrade(stages[PREFLIGHT].value, stages[UPGRADE].value))
    && (stages[PREFLIGHT].Some? && stages[RPC_REHEARSAL].Some? ==>
      c.rpc(stages[PREFLIGHT].value, stages[RPC_REHEARSAL].value))
  }

  /** A manifest the validator accepts: a valid prefix of the stages, and flags that say how long it is. */
  predicate ValidWith(m: Manifest, c: Checks, files: bool, n: nat) {
    && Prefix(m.stages, n)
    && (forall i | 0 <= i < n :: c.stage(i, m.stages[i].value, files))
    && Crossed(m.stages, c)
    && m.state == StatusOf(n) && m.complete == (n == COUNT)
  }

  /** The first stage without evidence, or the number of stages. */
  function NextMissing(stages: seq<Option<Evidence>>): (n: nat)
    ensures n <= |stages| && (n < |stages| ==> stages[n].None?) && forall i | 0 <= i < n :: stages[i].Some?
  {
    if stages == [] || stages[0].None? then 0
    else
      var rest := NextMissing(stages[1..]);
      assert forall i | 1 <= i < 1 + rest :: stages[i] == stages[1..][i - 1];
      1 + rest
  }

  function Recorded(stages: seq<Option<Evidence>>): nat {
    if stages == [] then 0 else (if stages[0].Some? then 1 else 0) + Recorded(stages[1..])
  }

  predicate Valid(m: Manifest, c: Checks, files: bool) {
    ValidWith(m, c, files, NextMissing(m.stages))
  }

  /** There is only one prefix to be valid with. */
  lemma ValidIffSomePrefix(m: Manifest, c: Checks, files: bool, n: nat)
    requires ValidWith(m, c, files, n)
    ensures n == NextMissing(m.stages) && Valid(m, c, files)
  {
    RecordedOfPrefix(m.stages, n);
  }

  /** The validator's loop, with its completed count and its flag for a gap. */
  method Validate(m: Manifest, c: Checks, files: bool) returns (ok: bool)
    ensures ok == Valid(m, c, files)
  {
    if |m.stages| != COUNT {
      return false;
    }
    var completed := 0;
    var gap := false;
    for stage := 0 to COUNT
      invariant completed <= stage && gap == (completed < stage)
      invariant forall i | 0 <= i < completed :: m.stages[i].Some? && c.stage(i, m.stages[i].value, files)
      invariant forall i | completed <= i < stage :: m.stages[i].None?
    {
      if m.stages[stage].None? {
        gap := true;
      } else {
        if gap || !c.stage(stage, m.stages[stage].value, files) {
          BadStageIsInvalid(m, c, files, stage, completed);
          return false;
        }
        completed := completed + 1;
      }
    }
    RecordedOfPrefix(m.stages, completed);
    ok := Crossed(m.stages, c) && m.state == StatusOf(completed) && m.complete == (completed == COUNT);
  }

  /** A recorded stage after a gap, or one that fails its checks, cannot be part of a valid manifest. */
  lemma BadStageIsInvalid(m: Manifest, c: Checks, files: bool, stage: nat, completed: nat)
    requires |m.stages| == COUNT && completed <= stage < COUNT && m.stages[stage].Some?
    requires if completed < stage then m.stages[completed].None? else !c.stage(stage, m.stages[stage].value, files)
    ensures !Valid(m, c, files)
  {
    var n := NextMissing(m.stages);
    if completed < stage {
      assert n <= completed;
      assert !Prefix(m.stages, n);
    } else if stage < n {
      assert !c.stage(stage, m.stages[stage].value, files);
    }
  }

  // Recording one stage.

  function Record(m: Manifest, c: Checks, stage: nat, e: Evidence): Option<Manifest> {
    if !Valid(m, c, false) || stage >= COUNT || stage != NextMissing(m.stages) || !c.stage(stage, e, true) then None
    else if stage == UPGRADE && !c.upgrade(m.stages[PREFLIGHT].value, e) then None
    else if stage == RPC_REHEARSAL && !c.rpc(m.stages[PREFLIGHT].value, e) then None
    else
      var stages := m.stages[stage := Some(e)];
      Some(Manifest(stages, StatusOf(Recorded(stages)), NextMissing(stages) == COUNT))
  }

  /**
   Recording accepts exactly the next stage of a valid manifest, with evidence that passes its checks; what it
   writes has that stage added and nothing else changed, and is valid again.
   */
  method RecordStage(loaded: Manifest, c: Checks, stage: nat, e: Evidence) returns (written: Option<Manifest>)
    ensures written.Some? <==>
      && Valid(loaded, c, false) && stage == NextMissing(loaded.stages) < COUNT && c.stage(stage, e, true)
      && (stage == UPGRADE ==> c.upgrade(loaded.stages[PREFLIGHT].value, e))
      && (stage == RPC_REHEARSAL ==> c.rpc(loaded.stages[PREFLIGHT].value, e))
    ensures written.Some? ==> written.value.stages == loaded.stages[stage := Some(e)]
    ensures written.Some? && Stricter(c) ==> ValidWith(written.value, c, false, stage + 1)
    ensures written == Record(loaded, c, stage, e)
  {
    var manifest := loaded;
    var ok := Validate(manifest, c, false);
    if !ok || stage >= COUNT || stage != NextMissing(manifest.stages) || !c.stage(stage, e, true) {
      return None;
    }
    if stage == UPGRADE && !c.upgrade(manifest.stages[PREFLIGHT].value, e) {
      return None;
    }
    if stage == RPC_REHEARSAL && !c.rpc(manifest.stages[PREFLIGHT].value, e) {
      return None;
    }
    manifest := manifest.(stages := manifest.stages[stage := Some(e)]);
    manifest := manifest.(complete := NextMissing(manifest.stages) == COUNT);
    manifest := manifest.(state := StatusOf(Recorded(manifest.stages)));
    if Stricter(c) {
      RecordExtends(loaded, c, stage, e);
    }
    return Some(manifest);
  }

  lemma {:induction false} RecordedOfPrefix(stages: seq<Option<Evidence>>, n: nat)
    requires n <= |stages| && (forall i | 0 <= i < n :: stages[i].Some?) && (forall i | n <= i < |stages| :: stages[i].None?)
    ensures Recorded(stages) == n == NextMissing(stages)
    decreases |stages|
  {
    if stages != [] {
      RecordedOfPrefix(stages[1..], if n == 0 then 0 else n - 1);
    }
  }

  /** Recording extends the prefix by its next stage, and the validator accepts the result, files or not. */
  lemma RecordExtends(m: Manifest, c: Checks, stage: nat, e: Evidence)
    requires Stricter(c) && Record(m, c, stage, e).Some?
    ensures
      var w := Record(m, c, stage, e).value;
      && Prefix(m.stages, stage) && w.stages == m.stages[stage := Some(e)]
      && ValidWith(w, c, false, stage + 1)
      && (ValidWith(m, c, true, stage) ==> ValidWith(w, c, true, stage + 1))
  {
    var w := Record(m, c, stage, e).value;
    RecordedOfPrefix(w.stages, stage + 1);
  }

  // Runs.

  datatype Attempt = Attempt(stage: nat, evidence: Evidence)

  function After(m: Manifest, c: Checks, attempts: seq<Attempt>): Manifest
    decreases |attempts|
  {
    if attempts == [] then m
    else
      var next := Record(m, c, attempts[0].stage, attempts[0].evidence);
      After(if next.Some? then next.value else m, c, attempts[1..])
  }

  const EMPTY := Manifest(seq(COUNT, _ => None), Awaiting(0), false)

  /**
   In every run the recorded stages are a prefix of the fixed order that only grows, evidence is never
   replaced, and the validator accepts the manifest, looking at the files or not.
   */
  lemma {:induction false} RunExtends(m: Manifest, c: Checks, attempts: seq<Attempt>, n: nat)
    requires Stricter(c) && ValidWith(m, c, true, n)
    ensures
      var w := After(m, c, attempts);
      && ValidWith(w, c, true, NextMissing(w.stages)) && Valid(w, c, false)
      && n <= NextMissing(w.stages)
      && forall i | 0 <= i < n :: w.stages[i] == m.stages[i]
    decreases |attempts|
  {
    ValidIffSomePrefix(m, c, true, n);
    if attempts != [] {
      var a := attempts[0];
      var next := Record(m, c, a.stage, a.evidence);
      if next.Some? {
        RecordExtends(m, c, a.stage, a.evidence);
        RunExtends(next.value, c, attempts[1..], n + 1);
      } else {
        RunExtends(m, c, attempts[1..], n);
      }
    }
  }

  /** So it is for every run that starts from the empty manifest. */
  lemma ReachedIsPrefix(c: Checks, attempts: seq<Attempt>)
    requires Stricter(c)
    ensures
      var w := After(EMPTY, c, attempts);
      Prefix(w.stages, NextMissing(w.stages)) && Valid(w, c, true) && Valid(w, c, false)
  {
    assert ValidWith(EMPTY, c, true, 0);
    RunExtends(EMPTY, c, attempts, 0);
  }

  /** A reached manifest takes exactly the next stage, with evidence that passes its checks. */
  lemma RecordAcceptsNext(m: Manifest, c: Checks, n: nat, stage: nat, e: Evidence)
    requires Stricter(c) && ValidWith(m, c, true, n)
    ensures Record(m, c, stage, e).Some? <==>
      && stage == n < COUNT && c.stage(stage, e, true)
      && (stage == UPGRADE ==> c.upgrade(m.stages[PREFLIGHT].value, e))
      && (stage == RPC_REHEARSAL ==> c.rpc(m.stages[PREFLIGHT].value, e))
  {
    ValidIffSomePrefix(m, c, true, n);
  }
}
