/** The single-execution test session: one process per unit, cached results, sticky failure. */
module Session {
  import opened Prelude

  type Fingerprint = nat
  type Records = seq<string>

  /** A recorded unit, with the source fingerprint observed right before it was recorded. */
  datatype Unit = Unit(records: Records, under: Fingerprint)

  datatype View = View(results: map<string, Unit>, failed: bool, artifacts: map<string, string>, started: seq<string>)

  /** A moment inside a request at which a stop may arrive: stopping does not take the lock. */
  datatype Moment = BeforeCheck | BeforeStart | BeforeRecheck | BeforeReturn

  /** The digests read for the consumed artifacts, in order; none if a file cannot be read. */
  type Found = seq<(string, Option<string>)>

  /** What one process did: its records, none for a timeout, a failing exit code or a bad report. */
  datatype Process = Process(communicated: bool, fingerprint: Fingerprint, records: Option<Records>, artifacts: Found)

  /** An execution request together with everything it observes outside the session. */
  datatype Request = Request(
    plan: Option<string>,
    contextKnown: bool,
    jest: bool,
    selects: Records -> bool,
    fingerprint: Fingerprint,
    artifacts: Found,
    reportExists: bool,
    launches: bool,
    process: Process,
    stop: Option<Moment>)

  datatype Checked = Passed | Changed | Unreadable

  // What each operation does, as functions of the view.

  function CheckInputs(v: View, baseline: Fingerprint, seen: Fingerprint): (View, bool) {
    if v.failed || seen != baseline then (v.(failed := true), false) else (v, true)
  }

  function Stopping(v: View, stop: Option<Moment>, moment: Moment): View {
    if stop == Some(moment) then v.(failed := true) else v
  }

  /** The first digest seen for an artifact is its baseline. */
  function CheckArtifacts(v: View, found: Found): (View, Checked)
    decreases |found|
  {
    if found == [] then (v, Passed)
    else
      var (name, digest) := found[0];
      if digest.None? then (v, Unreadable)
      else
        var kept := if name in v.artifacts then v else v.(artifacts := v.artifacts[name := digest.value]);
        if kept.artifacts[name] != digest.value then (kept.(failed := true), Changed)
        else CheckArtifacts(kept, found[1..])
  }

  function Select(v: View, key: string, selects: Records -> bool): (View, Option<Unit>)
    requires key in v.results
  {
    if selects(v.results[key].records) then (v, Some(v.results[key])) else (v.(failed := true), None)
  }

  /** Everything from the start of the process to the recorded result; any error in it fails the session. */
  function Launch(v: View, baseline: Fingerprint, key: string, r: Request): (View, bool) {
    var running := Stopping(v.(started := v.started + [key]), r.stop, BeforeRecheck);
    var broken := running.(failed := true);
    if !r.process.communicated then (broken, false)
    else
      var (rechecked, same) := CheckInputs(running, baseline, r.process.fingerprint);
      if !same then (rechecked, false)
      else
        var done := Stopping(rechecked, r.stop, BeforeReturn);
        if r.process.records.None? then (done.(failed := true), false)
        else
          var (kept, checked) := if r.jest then CheckArtifacts(done, r.process.artifacts) else (done, Passed);
          if !checked.Passed? then (kept.(failed := true), false)
          else
            (kept.(results := kept.results[key := Unit(r.process.records.value, r.process.fingerprint)]), true)
  }

  function Execute(v: View, baseline: Fingerprint, r: Request): (View, Option<Unit>) {
    var (checked, same) := CheckInputs(Stopping(v, r.stop, BeforeCheck), baseline, r.fingerprint);
    if !same then (checked, None)
    else
      var open := Stopping(checked, r.stop, BeforeStart);
      if r.plan.None? || !r.contextKnown then (open, None)
      else
        var (ready, artifacts) := if r.jest then CheckArtifacts(open, r.artifacts) else (open, Passed);
        if !artifacts.Passed? then (ready, None)
        else
          var key := r.plan.value;
          if key in ready.results then
            Select(Stopping(Stopping(ready, r.stop, BeforeRecheck), r.stop, BeforeReturn), key, r.selects)
          else if r.jest && r.reportExists then (ready.(failed := true), None)
          else if !r.launches then (ready, None)
          else
            var (recorded, ok) := Launch(ready, baseline, key, r);
            if !ok then (recorded, None) else Select(recorded, key, r.selects)
  }

  datatype Action =
    | ExecuteUnit(environment: string, request: Request)
    | PlanWorkspace(environment: string, fingerprint: Fingerprint, targets: Option<seq<string>>, stop: Option<Moment>)
    | Snapshot(fingerprint: Fingerprint, contextKnown: bool, stop: Option<Moment>)
    | StopNow
    | Unsupported

  datatype Response = Served(unit: Unit) | Targets(targets: seq<string>) | Taken(view: View) | Rejected

  function Dispatch(v: View, baseline: Fingerprint, environment: string, a: Action): (View, Response) {
    match a
    case ExecuteUnit(sent, request) =>
      if sent != environment then (v, Rejected)
      else
        var (after, unit) := Execute(v, baseline, request);
        (after, if unit.None? then Rejected else Served(unit.value))
    case PlanWorkspace(sent, seen, targets, stop) =>
      if sent != environment then (v, Rejected)
      else
        var (checked, same) := CheckInputs(Stopping(v, stop, BeforeCheck), baseline, seen);
        (Stopping(checked, stop, BeforeReturn), if same && targets.Some? then Targets(targets.value) else Rejected)
    case Snapshot(seen, contextKnown, stop) =>
      var (checked, same) := CheckInputs(Stopping(v, stop, BeforeCheck), baseline, seen);
      (Stopping(checked, stop, BeforeReturn), if same && contextKnown then Taken(checked) else Rejected)
    case StopNow => (v.(failed := true), Rejected)
    case Unsupported => (v, Rejected)
  }

  // The session object.

  class TestSession {
    const baseline: Fingerprint
    const environment: string
    var results: map<string, Unit>
    var failed: bool
    var artifacts: map<string, string>
    var started: seq<string>

    function Look(): View
      reads this
    {
      View(results, failed, artifacts, started)
    }

    constructor (fingerprint: Fingerprint, environment: string)
      ensures this.baseline == fingerprint && this.environment == environment
      ensures Look() == View(map[], false, map[], [])
    {
      this.baseline, this.environment := fingerprint, environment;
      results, failed, artifacts, started := map[], false, map[], [];
    }

    method Recheck(seen: Fingerprint) returns (ok: bool)
      modifies this
      ensures (Look(), ok) == CheckInputs(old(Look()), baseline, seen)
    {
      ok := !failed && seen == baseline;
      if !ok {
        failed := true;
      }
    }

    method Stop()
      modifies this
      ensures Look() == old(Look()).(failed := true)
    {
      failed := true;
    }

    /** A stop from another thread, if it arrives at this moment. */
    method StopAt(stop: Option<Moment>, moment: Moment)
      modifies this
      ensures Look() == Stopping(old(Look()), stop, moment)
    {
      if stop == Some(moment) {
        Stop();
      }
    }

    method ConsumeArtifacts(found: Found) returns (r: Checked)
      modifies this
      ensures (Look(), r) == CheckArtifacts(old(Look()), found)
    {
      var k := 0;
      while k < |found|
        invariant 0 <= k <= |found|
        invariant CheckArtifacts(old(Look()), found) == CheckArtifacts(Look(), found[k..])
      {
        var (name, digest) := found[k];
        assert found[k..][0] == found[k] && found[k..][1..] == found[k + 1..];
        if digest.None? {
          return Unreadable;
        }
        if name !in artifacts {
          artifacts := artifacts[name := digest.value];
        }
        if artifacts[name] != digest.value {
          failed := true;
          return Changed;
        }
        k := k + 1;
      }
      return Passed;
    }

    method Start(key: string, r: Request) returns (ok: bool)
      modifies this
      ensures (Look(), ok) == Launch(old(Look()), baseline, key, r)
    {
      started := started + [key];
      StopAt(r.stop, BeforeRecheck);
      if !r.process.communicated {
        failed := true;
        return false;
      }
      ok := Recheck(r.process.fingerprint);
      if !ok {
        return false;
      }
      StopAt(r.stop, BeforeReturn);
      if r.process.records.None? {
        failed := true;
        return false;
      }
      if r.jest {
        var checked := ConsumeArtifacts(r.process.artifacts);
        if !checked.Passed? {
          failed := true;
          return false;
        }
      }
      results := results[key := Unit(r.process.records.value, r.process.fingerprint)];
      return true;
    }

    method Run(r: Request) returns (served: Option<Unit>)
      modifies this
      ensures (Look(), served) == Execute(old(Look()), baseline, r)
    {
      StopAt(r.stop, BeforeCheck);
      var ok := Recheck(r.fingerprint);
      if !ok {
        return None;
      }
      StopAt(r.stop, BeforeStart);
      if r.plan.None? || !r.contextKnown {
        return None;
      }
      if r.jest {
        var checked := ConsumeArtifacts(r.artifacts);
        if !checked.Passed? {
          return None;
        }
      }
      var key := r.plan.value;
      if key !in results {
        if r.jest && r.reportExists {
          failed := true;
          return None;
        }
        if !r.launches {
          return None;
        }
        ok := Start(key, r);
        if !ok {
          return None;
        }
      } else {
        StopAt(r.stop, BeforeRecheck);
        StopAt(r.stop, BeforeReturn);
      }
      if !r.selects(results[key].records) {
        failed := true;
        return None;
      }
      return Some(results[key]);
    }

    method Handle(a: Action) returns (response: Response)
      modifies this
      ensures (Look(), response) == Dispatch(old(Look()), baseline, environment, a)
    {
      response := Rejected;
      match a
      case ExecuteUnit(sent, request) =>
        if sent == environment {
          var unit := Run(request);
          response := if unit.None? then Rejected else Served(unit.value);
        }
      case PlanWorkspace(sent, seen, targets, stop) =>
        if sent == environment {
          StopAt(stop, BeforeCheck);
          var ok := Recheck(seen);
          StopAt(stop, BeforeReturn);
          response := if ok && targets.Some? then Targets(targets.value) else Rejected;
        }
      case Snapshot(seen, contextKnown, stop) =>
        StopAt(stop, BeforeCheck);
        var ok := Recheck(seen);
        response := if ok && contextKnown then Taken(Look()) else Rejected;
        StopAt(stop, BeforeReturn);
      case StopNow => Stop();
      case Unsupported =>
    }
  }

  // Runs of requests.

  /** A started unit is recorded or the session has failed; a recorded one was recorded under the baseline. */
  predicate Inv(v: View, baseline: Fingerprint) {
    && NoRepeats(v.started)
    && (forall k | k in v.started :: k in v.results || v.failed)
    && forall k | k in v.results :: k in v.started && v.results[k].under == baseline
  }

  predicate Grows(v: View, w: View) {
    && (forall k | k in v.results :: k in w.results && w.results[k] == v.results[k])
    && (v.failed ==> w.failed) && v.started <= w.started
  }

  lemma {:induction false} ArtifactsFrame(v: View, found: Found)
    ensures
      var (w, checked) := CheckArtifacts(v, found);
      w.results == v.results && w.started == v.started && w.failed == (v.failed || checked.Changed?)
    decreases |found|
  {
    if found != [] && found[0].1.Some? {
      var (name, digest) := found[0];
      var kept := if name in v.artifacts then v else v.(artifacts := v.artifacts[name := digest.value]);
      ArtifactsFrame(kept, found[1..]);
    }
  }

  /** A launch starts one process, and either records its unit under the baseline or fails the session. */
  lemma LaunchOutcome(v: View, baseline: Fingerprint, key: string, r: Request)
    ensures
      var (w, ok) := Launch(v, baseline, key, r);
      && w.started == v.started + [key]
      && (ok ==>
        && r.process.records.Some?
        && w.results == v.results[key := Unit(r.process.records.value, baseline)]
        && !v.failed && w.failed == (r.stop == Some(BeforeReturn)) && r.stop != Some(BeforeRecheck))
      && (!ok ==> w.results == v.results && w.failed)
  {
    var running := Stopping(v.(started := v.started + [key]), r.stop, BeforeRecheck);
    var rechecked := CheckInputs(running, baseline, r.process.fingerprint).0;
    ArtifactsFrame(Stopping(rechecked, r.stop, BeforeReturn), r.process.artifacts);
  }

  /** The view a request reaches before it looks its unit up. */
  function Ready(v: View, baseline: Fingerprint, r: Request): (View, bool) {
    var (checked, same) := CheckInputs(Stopping(v, r.stop, BeforeCheck), baseline, r.fingerprint);
    var open := Stopping(checked, r.stop, BeforeStart);
    if !same then (checked, false)
    else if r.plan.None? || !r.contextKnown then (open, false)
    else
      var (ready, artifacts) := if r.jest then CheckArtifacts(open, r.artifacts) else (open, Passed);
      (ready, artifacts.Passed?)
  }

  lemma ReadyOutcome(v: View, baseline: Fingerprint, r: Request)
    ensures
      var (w, ok) := Ready(v, baseline, r);
      && w.results == v.results && w.started == v.started && (v.failed ==> w.failed && !ok)
      && (ok ==> !v.failed && r.plan.Some? && r.stop != Some(BeforeCheck) && w.failed == (r.stop == Some(BeforeStart)))
      && (!ok ==> Execute(v, baseline, r) == (w, None))
  {
    var (checked, same) := CheckInputs(Stopping(v, r.stop, BeforeCheck), baseline, r.fingerprint);
    ArtifactsFrame(Stopping(checked, r.stop, BeforeStart), r.artifacts);
  }

  /** Executing a unit starts nothing and records nothing, or starts one process and records it or fails. */
  lemma ExecuteOutcome(v: View, baseline: Fingerprint, r: Request)
    ensures
      var (w, unit) := Execute(v, baseline, r);
      && (v.failed ==> w.failed)
      && (unit.Some? ==> r.plan.Some? && r.plan.value in w.results && unit.value == w.results[r.plan.value])
      && (|| (w.started == v.started && w.results == v.results)
          || (&& r.plan.Some? && r.plan.value !in v.results && !v.failed && w.started == v.started + [r.plan.value]
              && (|| (w.results == v.results && w.failed)
                  || (r.process.records.Some?
                      && w.results == v.results[r.plan.value := Unit(r.process.records.value, baseline)]))))
  {
    var (ready, ok) := Ready(v, baseline, r);
    ReadyOutcome(v, baseline, r);
    if ok && r.plan.value !in ready.results {
      LaunchOutcome(ready, baseline, r.plan.value, r);
    }
  }

  lemma ExecuteKeepsInv(v: View, baseline: Fingerprint, r: Request)
    requires Inv(v, baseline)
    ensures
      var (w, unit) := Execute(v, baseline, r);
      && Inv(w, baseline) && Grows(v, w)
      && (unit.Some? ==> r.plan.Some? && r.plan.value in w.results && unit.value == w.results[r.plan.value])
  {
    ExecuteOutcome(v, baseline, r);
  }

  lemma DispatchKeepsInv(v: View, baseline: Fingerprint, environment: string, a: Action)
    requires Inv(v, baseline)
    ensures
      var w := Dispatch(v, baseline, environment, a).0;
      Inv(w, baseline) && Grows(v, w)
  {
    if a.ExecuteUnit? && a.environment == environment {
      ExecuteKeepsInv(v, baseline, a.request);
    }
  }

  function After(v: View, baseline: Fingerprint, environment: string, actions: seq<Action>): View
    decreases |actions|
  {
    if actions == [] then v
    else After(Dispatch(v, baseline, environment, actions[0]).0, baseline, environment, actions[1..])
  }

  const FRESH: View := View(map[], false, map[], [])

  lemma {:induction false} RunKeepsInv(v: View, baseline: Fingerprint, environment: string, actions: seq<Action>)
    requires Inv(v, baseline)
    ensures
      var w := After(v, baseline, environment, actions);
      Inv(w, baseline) && Grows(v, w)
    decreases |actions|
  {
    if actions != [] {
      DispatchKeepsInv(v, baseline, environment, actions[0]);
      RunKeepsInv(Dispatch(v, baseline, environment, actions[0]).0, baseline, environment, actions[1..]);
    }
  }

  /** In every run each unit starts at most one process. */
  lemma StartedAtMostOnce(baseline: Fingerprint, environment: string, actions: seq<Action>)
    ensures NoRepeats(After(FRESH, baseline, environment, actions).started)
  {
    RunKeepsInv(FRESH, baseline, environment, actions);
  }

  lemma ServedIsRecorded(v: View, baseline: Fingerprint, environment: string, a: Action)
    requires Inv(v, baseline) && Dispatch(v, baseline, environment, a).1.Served?
    ensures
      var (w, response) := Dispatch(v, baseline, environment, a);
      && a.ExecuteUnit? && a.request.plan.Some? && a.request.plan.value in w.results
      && response.unit == w.results[a.request.plan.value] && response.unit.under == baseline
  {
    DispatchKeepsInv(v, baseline, environment, a);
    ExecuteKeepsInv(v, baseline, a.request);
  }

  /** Whatever is served for a unit, then and later, is what was recorded first, under the baseline. */
  lemma ServedIsFirstRecorded(
    v: View, baseline: Fingerprint, environment: string, first: Action, between: seq<Action>, again: Action)
    requires Inv(v, baseline) && Dispatch(v, baseline, environment, first).1.Served?
    requires
      var x := After(Dispatch(v, baseline, environment, first).0, baseline, environment, between);
      Dispatch(x, baseline, environment, again).1.Served?
    requires first.ExecuteUnit? && again.ExecuteUnit? && first.request.plan == again.request.plan
    ensures
      var (w, served) := Dispatch(v, baseline, environment, first);
      var x := After(w, baseline, environment, between);
      Dispatch(x, baseline, environment, again).1 == served && served.unit.under == baseline
  {
    var w := Dispatch(v, baseline, environment, first).0;
    ServedIsRecorded(v, baseline, environment, first);
    DispatchKeepsInv(v, baseline, environment, first);
    RunKeepsInv(w, baseline, environment, between);
    var x := After(w, baseline, environment, between);
    ServedIsRecorded(x, baseline, environment, again);
    DispatchKeepsInv(x, baseline, environment, again);
  }

  /** After a failure nothing starts and nothing is served, whatever is asked. */
  lemma FailureIsSticky(v: View, baseline: Fingerprint, environment: string, a: Action)
    requires v.failed
    ensures
      var (w, response) := Dispatch(v, baseline, environment, a);
      w.failed && w.started == v.started && w.results == v.results && response.Rejected?
  {
    if a.ExecuteUnit? {
      ReadyOutcome(v, baseline, a.request);
    }
  }

  /** The stop lands when the request will not look at the failure flag any more. */
  predicate StopsTooLate(v: View, a: Action) {
    match a
    case ExecuteUnit(_, r) =>
      if r.plan.Some? && r.plan.value in v.results then r.stop.Some? && !r.stop.value.BeforeCheck?
      else r.stop == Some(BeforeReturn)
    case PlanWorkspace(_, _, _, stop) => stop == Some(BeforeReturn)
    case Snapshot(_, _, stop) => stop == Some(BeforeReturn)
    case _ => false
  }

  /** The same action with nobody stopping the session meanwhile. */
  function Unstopped(a: Action): Action {
    match a
    case ExecuteUnit(environment, r) => ExecuteUnit(environment, r.(stop := None))
    case PlanWorkspace(environment, seen, targets, _) => PlanWorkspace(environment, seen, targets, None)
    case Snapshot(seen, contextKnown, _) => Snapshot(seen, contextKnown, None)
    case _ => a
  }

  /** Checking the artifacts answers the same whatever the failure flag says. */
  lemma {:induction false} ArtifactsIgnoreFailure(v: View, found: Found)
    ensures
      var (w, checked) := CheckArtifacts(v, found);
      var (x, same) := CheckArtifacts(v.(failed := true), found);
      same == checked && x == w.(failed := true)
    decreases |found|
  {
    if found != [] && found[0].1.Some? {
      var (name, digest) := found[0];
      var kept := if name in v.artifacts then v else v.(artifacts := v.artifacts[name := digest.value]);
      ArtifactsIgnoreFailure(kept, found[1..]);
    }
  }

  /** A stop after the first check changes the failure flag on the way to the unit, and nothing else. */
  lemma ReadyIgnoresStop(v: View, baseline: Fingerprint, r: Request)
    requires r.stop != Some(BeforeCheck)
    ensures
      var (w, ok) := Ready(v, baseline, r);
      var (x, same) := Ready(v, baseline, r.(stop := None));
      same == ok && (ok ==> w == if r.stop == Some(BeforeStart) then x.(failed := true) else x)
  {
    var (checked, same) := CheckInputs(v, baseline, r.fingerprint);
    ArtifactsIgnoreFailure(checked, r.artifacts);
  }

  /** A launch succeeds under a stop exactly when it succeeds without one and the stop comes after its recheck. */
  lemma LaunchIgnoresLateStop(v: View, baseline: Fingerprint, key: string, r: Request)
    requires !v.failed
    ensures
      var (w, ok) := Launch(v, baseline, key, r);
      var (x, same) := Launch(v, baseline, key, r.(stop := None));
      && (ok <==> same && r.stop != Some(BeforeRecheck))
      && (ok ==> w.results == x.results)
  {
    var running := v.(started := v.started + [key]);
    ArtifactsIgnoreFailure(running, r.process.artifacts);
    LaunchOutcome(v, baseline, key, r);
    LaunchOutcome(v, baseline, key, r.(stop := None));
  }

  /** Only a stop that arrives before the first check keeps the process from starting. */
  lemma StopPreventsStart(v: View, baseline: Fingerprint, r: Request)
    ensures Execute(v, baseline, r).0.started
      == if r.stop == Some(BeforeCheck) then v.started else Execute(v, baseline, r.(stop := None)).0.started
  {
    if r.stop != Some(BeforeCheck) {
      ReadyOutcome(v, baseline, r);
      ReadyOutcome(v, baseline, r.(stop := None));
      ReadyIgnoresStop(v, baseline, r);
      var (ready, ok) := Ready(v, baseline, r);
      if ok && r.plan.value !in ready.results {
        LaunchOutcome(ready, baseline, r.plan.value, r);
        LaunchOutcome(Ready(v, baseline, r.(stop := None)).0, baseline, r.plan.value, r.(stop := None));
      }
    }
  }

  /** In a new session a snapshot is served although the session was stopped while it was taken. */
  lemma SnapshotAfterStop(baseline: Fingerprint, environment: string)
    ensures
      var (v, response) := Dispatch(FRESH, baseline, environment, Snapshot(baseline, true, Some(BeforeReturn)));
      response == Taken(FRESH) && v.failed
  { }

  /**
   A request is served although the session has failed meanwhile if and only if it would be served without the
   stop, and the stop arrives after the last time the request checks.
   */
  lemma ServedAfterFailure(v: View, baseline: Fingerprint, environment: string, a: Action)
    requires Inv(v, baseline)
    ensures
      var (w, response) := Dispatch(v, baseline, environment, a);
      !response.Rejected? && w.failed <==>
        StopsTooLate(v, a) && !Dispatch(v, baseline, environment, Unstopped(a)).1.Rejected?
  {
    if a.ExecuteUnit? {
      ExecutedAfterFailure(v, baseline, a.request);
    }
  }

  lemma ExecutedAfterFailure(v: View, baseline: Fingerprint, r: Request)
    requires Inv(v, baseline)
    ensures
      var (w, unit) := Execute(v, baseline, r);
      unit.Some? && w.failed <==>
        StopsTooLate(v, ExecuteUnit("", r)) && Execute(v, baseline, r.(stop := None)).1.Some?
  {
    ReadyOutcome(v, baseline, r);
    ReadyOutcome(v, baseline, r.(stop := None));
    if r.stop != Some(BeforeCheck) {
      ReadyIgnoresStop(v, baseline, r);
      var (ready, ok) := Ready(v, baseline, r);
      if ok && r.plan.value !in ready.results {
        LaunchOutcome(ready, baseline, r.plan.value, r);
        LaunchOutcome(ready.(failed := false), baseline, r.plan.value, r.(stop := None));
        if !ready.failed {
          LaunchIgnoresLateStop(ready, baseline, r.plan.value, r);
        }
      }
    }
  }
}
