/**
 Exclusive publication of evidence: any number of writers race to publish at one path, and any of
 them may fail, be killed, or lose the whole machine at any step.
 */
module Publication {
  import opened Prelude

  /** How values are written, read back and compared. */
  datatype Format<!V> = Format(body: V -> string, parse: string -> Option<V>, matches: (V, V) -> bool)

  ghost predicate RoundTrips<V(!new)>(f: Format<V>) {
    forall v :: f.parse(f.body(v)) == Some(v)
  }

  /** Temporary names are unique, so a file is known by the writer that created it. */
  datatype File = File(content: string, durable: bool)

  datatype Outcome = NoError | Exists | OtherError

  /** The step a writer takes next, or how it ended. */
  datatype Phase =
    | Opening
    | Writing
    | Syncing
    | Closing
    | Linking
    | SyncingDirectory
    | Cleaning(outcome: Outcome)
    | Matching
    | Published
    | Matched(losses: nat)
    | Failed
    | Crashed

  datatype Writer<V> = Writer(value: V, file: File, phase: Phase)

  /** The path is absent or a link to one writer's file; the entry itself may not be on disk yet. */
  datatype State<V> = State(writers: seq<Writer<V>>, target: Option<nat>, entryDurable: bool, losses: nat)

  datatype Action<V> =
    | Spawn(value: V)
    | Advance(writer: nat, ok: bool, progress: nat)
    | Crash(writer: nat)
    | PowerLoss(entryLost: bool, kept: nat)

  predicate Running(p: Phase) {
    !(p.Published? || p.Matched? || p.Failed? || p.Crashed?)
  }

  function Cut(s: string, n: nat): string {
    if n < |s| then s[..n] else s
  }

  /** What is read at the path. */
  function Stored<V>(s: State<V>): Option<string>
    requires s.target.Some? ==> s.target.value < |s.writers|
  {
    if s.target.None? then None else Some(s.writers[s.target.value].file.content)
  }

  /** One awaited operation of one writer; not ok means that the operation reported an error. */
  function NextWriter<V>(f: Format<V>, s: State<V>, i: nat, ok: bool, progress: nat): Writer<V>
    requires i < |s.writers| && (s.target.Some? ==> s.target.value < |s.writers|)
  {
    var w := s.writers[i];
    var failing := w.(phase := Cleaning(OtherError));
    match w.phase
    case Opening => if ok then w.(file := File("", false), phase := Writing) else failing
    case Writing =>
      var text := f.body(w.value);
      var file := File(Cut(text, progress), false);
      if !ok then failing.(file := file)
      else if progress < |text| then w.(file := file)
      else w.(file := file, phase := Syncing)
    case Syncing => if ok then w.(file := w.file.(durable := true), phase := Closing) else failing
    case Closing => if ok then w.(phase := Linking) else failing
    case Linking =>
      if !ok then failing
      else w.(phase := if s.target.None? then SyncingDirectory else Cleaning(Exists))
    case SyncingDirectory => if ok then w.(phase := Cleaning(NoError)) else failing
    case Cleaning(outcome) =>
      w.(phase :=
        if !ok then Failed
        else match outcome case NoError => Published case Exists => Matching case OtherError => Failed)
    case Matching =>
      var stored := Stored(s);
      var value := if stored.None? then None else f.parse(stored.value);
      w.(phase := if ok && value.Some? && f.matches(value.value, w.value) then Matched(s.losses) else Failed)
    case _ => w
  }

  function Kill<V>(w: Writer<V>, kept: nat): Writer<V> {
    w.(file := if w.file.durable then w.file else w.file.(content := Cut(w.file.content, kept)),
       phase := if Running(w.phase) then Crashed else w.phase)
  }

  function Next<V>(f: Format<V>, s: State<V>, a: Action<V>): State<V>
    requires s.target.Some? ==> s.target.value < |s.writers|
  {
    match a
    case Spawn(value) => s.(writers := s.writers + [Writer(value, File("", false), Opening)])
    case Advance(i, ok, progress) =>
      if i >= |s.writers| then s
      else
        var w := s.writers[i];
        var linked := w.phase.Linking? && ok && s.target.None?;
        var synced := w.phase.SyncingDirectory? && (ok || progress > 0);
        State(
          s.writers[i := NextWriter(f, s, i, ok, progress)],
          if linked then Some(i) else s.target,
          if linked then false else s.entryDurable || synced,
          s.losses)
    case Crash(i) =>
      if i >= |s.writers| || !Running(s.writers[i].phase) then s
      else s.(writers := s.writers[i := s.writers[i].(phase := Crashed)])
    case PowerLoss(entryLost, kept) =>
      var lost := entryLost && s.target.Some? && !s.entryDurable;
      State(
        seq(|s.writers|, i requires 0 <= i < |s.writers| => Kill(s.writers[i], kept)),
        if lost then None else s.target,
        !lost,
        if lost then s.losses + 1 else s.losses)
  }

  // What every step keeps.

  function Complete<V>(f: Format<V>, w: Writer<V>): File {
    File(f.body(w.value), true)
  }

  predicate WriterOk<V>(f: Format<V>, s: State<V>, i: nat)
    requires i < |s.writers| && (s.target.Some? ==> s.target.value < |s.writers|)
  {
    var w := s.writers[i];
    match w.phase
    case Syncing => w.file.content == f.body(w.value)
    case Closing => w.file == Complete(f, w)
    case Linking => w.file == Complete(f, w)
    case SyncingDirectory => s.target == Some(i)
    case Cleaning(NoError) => s.target == Some(i) && s.entryDurable
    case Cleaning(Exists) => s.target.Some?
    case Matching => s.target.Some?
    case Published => s.target == Some(i) && s.entryDurable
    case Matched(losses) =>
      && losses <= s.losses
      && (losses == s.losses ==> s.target.Some? && f.matches(s.writers[s.target.value].value, w.value))
    case _ => true
  }

  predicate Sealed(p: Phase) {
    !(p.Opening? || p.Writing? || p.Syncing? || p.Closing? || p.Linking?)
  }

  predicate Inv<V>(f: Format<V>, s: State<V>) {
    && (s.target.Some? ==>
      && s.target.value < |s.writers|
      && s.writers[s.target.value].file == Complete(f, s.writers[s.target.value])
      && Sealed(s.writers[s.target.value].phase))
    && forall i | 0 <= i < |s.writers| :: WriterOk(f, s, i)
  }

  /** Publication cannot be undone or altered by any step except a power loss before the directory was synced. */
  ghost predicate Stable<V>(s: State<V>, t: State<V>)
    requires s.target.Some? ==> s.target.value < |s.writers|
  {
    s.target.Some? ==>
      && t.target == s.target && s.target.value < |t.writers|
      && t.writers[s.target.value].file == s.writers[s.target.value].file
      && t.writers[s.target.value].value == s.writers[s.target.value].value
      && (s.entryDurable ==> t.entryDurable)
      && t.losses == s.losses
  }

  predicate Loses<V>(s: State<V>, a: Action<V>) {
    a.PowerLoss? && a.entryLost && !s.entryDurable
  }

  lemma AdvanceKeepsInv<V(!new)>(f: Format<V>, s: State<V>, i: nat, ok: bool, progress: nat)
    requires RoundTrips(f) && Inv(f, s) && i < |s.writers|
    ensures
      var t := Next(f, s, Advance(i, ok, progress));
      Inv(f, t) && Stable(s, t)
  {
    var t := Next(f, s, Advance(i, ok, progress));
    assert WriterOk(f, s, i);
    forall j | 0 <= j < |t.writers| ensures WriterOk(f, t, j) {
      assert WriterOk(f, s, j);
    }
  }

  lemma PowerLossKeepsInv<V(!new)>(f: Format<V>, s: State<V>, entryLost: bool, kept: nat)
    requires Inv(f, s)
    ensures
      var t := Next(f, s, PowerLoss(entryLost, kept));
      Inv(f, t) && (!Loses(s, PowerLoss(entryLost, kept)) ==> Stable(s, t))
  {
    var t := Next(f, s, PowerLoss(entryLost, kept));
    forall j | 0 <= j < |t.writers| ensures WriterOk(f, t, j) {
      assert WriterOk(f, s, j);
    }
  }

  lemma NextKeepsInv<V(!new)>(f: Format<V>, s: State<V>, a: Action<V>)
    requires RoundTrips(f) && Inv(f, s)
    ensures Inv(f, Next(f, s, a))
    ensures !Loses(s, a) ==> Stable(s, Next(f, s, a))
  {
    match a
    case Spawn(value) =>
      var t := Next(f, s, a);
      forall j | 0 <= j < |t.writers| ensures WriterOk(f, t, j) {
        if j < |s.writers| {
          assert WriterOk(f, s, j);
        }
      }
    case Advance(i, ok, progress) =>
      if i < |s.writers| {
        AdvanceKeepsInv(f, s, i, ok, progress);
      }
    case Crash(i) =>
      var t := Next(f, s, a);
      forall j | 0 <= j < |t.writers| ensures WriterOk(f, t, j) {
        assert WriterOk(f, s, j);
      }
    case PowerLoss(entryLost, kept) => PowerLossKeepsInv(f, s, entryLost, kept);
  }

  // Runs.

  function Initial<V>(): State<V> {
    State([], None, false, 0)
  }

  ghost function After<V(!new)>(f: Format<V>, s: State<V>, actions: seq<Action<V>>): (t: State<V>)
    requires RoundTrips(f) && Inv(f, s)
    ensures Inv(f, t)
    decreases |actions|
  {
    if actions == [] then s
    else
      var before := After(f, s, actions[..|actions| - 1]);
      NextKeepsInv(f, before, actions[|actions| - 1]);
      Next(f, before, actions[|actions| - 1])
  }

  ghost predicate Reachable<V(!new)>(f: Format<V>, s: State<V>)
    requires RoundTrips(f)
  {
    exists actions :: After(f, Initial(), actions) == s
  }

  lemma AfterOne<V(!new)>(f: Format<V>, s: State<V>, actions: seq<Action<V>>, a: Action<V>)
    requires RoundTrips(f) && Inv(f, s)
    ensures After(f, s, actions + [a]) == Next(f, After(f, s, actions), a)
  {
    assert (actions + [a])[..|actions|] == actions;
  }

  /** In every interleaving the path is absent or holds one writer's complete body. */
  lemma TargetIsWhole<V(!new)>(f: Format<V>, s: State<V>)
    requires RoundTrips(f) && Reachable(f, s)
    ensures s.target.Some? ==> s.target.value < |s.writers|
    ensures Stored(s).Some? ==> exists i | 0 <= i < |s.writers| :: Stored(s).value == f.body(s.writers[i].value)
  {
    var actions :| After(f, Initial(), actions) == s;
    assert Inv(f, s);
  }

  /** No step of the run is a power loss that takes an entry not yet on disk. */
  ghost predicate Lossless<V(!new)>(f: Format<V>, s: State<V>, actions: seq<Action<V>>)
    requires RoundTrips(f) && Inv(f, s)
  {
    forall k | 0 <= k < |actions| :: !Loses(After(f, s, actions[..k]), actions[k])
  }

  /** Once present, the path is never changed, except by such a loss. */
  lemma {:induction false} TargetNeverChanges<V(!new)>(f: Format<V>, s: State<V>, actions: seq<Action<V>>)
    requires RoundTrips(f) && Inv(f, s) && Lossless(f, s, actions)
    ensures Stable(s, After(f, s, actions))
    decreases |actions|
  {
    if actions != [] {
      var n := |actions| - 1;
      forall k | 0 <= k < n ensures !Loses(After(f, s, actions[..n][..k]), actions[..n][k]) {
        assert actions[..n][..k] == actions[..k];
        assert !Loses(After(f, s, actions[..k]), actions[k]);
      }
      TargetNeverChanges(f, s, actions[..n]);
      NextKeepsInv(f, After(f, s, actions[..n]), actions[n]);
    }
  }

  /** An entry that is on disk survives every continuation. */
  lemma {:induction false} DurableForever<V(!new)>(f: Format<V>, s: State<V>, actions: seq<Action<V>>)
    requires RoundTrips(f) && Inv(f, s) && s.target.Some? && s.entryDurable
    ensures Stable(s, After(f, s, actions))
    decreases |actions|
  {
    if actions != [] {
      var n := |actions| - 1;
      DurableForever(f, s, actions[..n]);
      NextKeepsInv(f, After(f, s, actions[..n]), actions[n]);
    }
  }

  /** The value at the path is the writer's own, or matches it. */
  ghost predicate Agrees<V>(f: Format<V>, s: State<V>, value: V)
    requires s.target.Some? ==> s.target.value < |s.writers|
  {
    && Stored(s).Some? && f.parse(Stored(s).value).Some?
    && (f.parse(Stored(s).value).value == value || f.matches(f.parse(Stored(s).value).value, value))
  }

  predicate Succeeded<V>(s: State<V>, i: nat) {
    i < |s.writers| && (s.writers[i].phase.Published? || s.writers[i].phase == Matched(s.losses))
  }

  /** Every caller that returned success agrees with what is stored; one that published is stored for good. */
  lemma SuccessesAgree<V(!new)>(f: Format<V>, s: State<V>, i: nat)
    requires RoundTrips(f) && Inv(f, s) && Succeeded(s, i)
    ensures Agrees(f, s, s.writers[i].value)
    ensures s.writers[i].phase.Published? ==>
      s.entryDurable && Stored(s) == Some(f.body(s.writers[i].value))
  {
    assert WriterOk(f, s, i);
  }

  /** At most one caller publishes. */
  lemma PublisherIsUnique<V(!new)>(f: Format<V>, s: State<V>, i: nat, j: nat)
    requires Inv(f, s) && i < |s.writers| && j < |s.writers|
    requires s.writers[i].phase.Published? && s.writers[j].phase.Published?
    ensures i == j
  {
    assert WriterOk(f, s, i) && WriterOk(f, s, j);
  }

  /**
   A caller that matched keeps agreeing in every continuation exactly when the directory entry was
   already on disk: matching does not sync the directory.
   */
  lemma MatchIsForever<V(!new)>(f: Format<V>, s: State<V>, i: nat)
    requires RoundTrips(f) && Inv(f, s) && i < |s.writers| && s.writers[i].phase == Matched(s.losses)
    ensures s.entryDurable <==> forall rest :: Agrees(f, After(f, s, rest), s.writers[i].value)
  {
    if s.entryDurable {
      forall rest ensures Agrees(f, After(f, s, rest), s.writers[i].value) {
        DurableAgrees(f, s, i, rest);
      }
    } else {
      LossDisagrees(f, s, s.writers[i].value);
    }
  }

  lemma DurableAgrees<V(!new)>(f: Format<V>, s: State<V>, i: nat, rest: seq<Action<V>>)
    requires RoundTrips(f) && Inv(f, s) && Succeeded(s, i) && s.entryDurable
    ensures Agrees(f, After(f, s, rest), s.writers[i].value)
  {
    SuccessesAgree(f, s, i);
    DurableForever(f, s, rest);
  }

  lemma LossDisagrees<V(!new)>(f: Format<V>, s: State<V>, value: V)
    requires RoundTrips(f) && Inv(f, s) && !s.entryDurable
    ensures exists rest :: !Agrees(f, After(f, s, rest), value)
  {
    var loss := PowerLoss(true, 0);
    AfterOne(f, s, [], loss);
    assert [] + [loss] == [loss];
    assert !Agrees(f, After(f, s, [loss]), value);
  }

  lemma Extend<V(!new)>(f: Format<V>, actions: seq<Action<V>>, a: Action<V>) returns (more: seq<Action<V>>)
    requires RoundTrips(f)
    ensures After(f, Initial(), more) == Next(f, After(f, Initial(), actions), a)
  {
    more := actions + [a];
    AfterOne(f, Initial(), actions, a);
  }

  lemma FourSteps<V(!new)>(f: Format<V>, s: State<V>, i: nat)
    requires i < |s.writers| && (s.target.Some? ==> s.target.value < |s.writers|) && s.writers[i].phase == Opening
    ensures
      var step, size := Advance(i, true, 0), |f.body(s.writers[i].value)|;
      Next(f, Next(f, Next(f, Next(f, s, step), Advance(i, true, size)), step), step)
        == s.(writers := s.writers[i := Writer(s.writers[i].value, Complete(f, s.writers[i]), Linking)])
  {
    var w, step, text := s.writers[i], Advance(i, true, 0), f.body(s.writers[i].value);
    var s1 := s.(writers := s.writers[i := w.(file := File("", false), phase := Writing)]);
    var s2 := s.(writers := s.writers[i := w.(file := File(text, false), phase := Syncing)]);
    var s3 := s.(writers := s.writers[i := w.(file := File(text, true), phase := Closing)]);
    assert Next(f, s, step) == s1;
    assert Next(f, s1, Advance(i, true, |text|)) == s2;
    assert Next(f, s2, step) == s3;
  }

  /** A writer that is left alone gets its file ready to link. */
  lemma Prepare<V(!new)>(f: Format<V>, actions: seq<Action<V>>, i: nat) returns (more: seq<Action<V>>)
    requires RoundTrips(f) && i < |After(f, Initial(), actions).writers|
    requires After(f, Initial(), actions).writers[i].phase == Opening
    ensures
      var s := After(f, Initial(), actions);
      After(f, Initial(), more)
        == s.(writers := s.writers[i := Writer(s.writers[i].value, Complete(f, s.writers[i]), Linking)])
  {
    var size := |f.body(After(f, Initial(), actions).writers[i].value)|;
    more := Extend(f, actions, Advance(i, true, 0));
    more := Extend(f, more, Advance(i, true, size));
    more := Extend(f, more, Advance(i, true, 0));
    more := Extend(f, more, Advance(i, true, 0));
    FourSteps(f, After(f, Initial(), actions), i);
  }

  /** The first writer has linked its file but not synced the directory; a second one starts. */
  lemma LinkWithoutSync<V(!new)>(f: Format<V>, value: V) returns (run: seq<Action<V>>)
    requires RoundTrips(f)
    ensures After(f, Initial(), run) == State(
      [Writer(value, File(f.body(value), true), SyncingDirectory), Writer(value, File("", false), Opening)],
      Some(0), false, 0)
  {
    run := Extend(f, [], Spawn(value));
    run := Prepare(f, run, 0);
    run := Extend(f, run, Advance(0, true, 0));
    run := Extend(f, run, Spawn(value));
  }

  lemma MatchesNow<V(!new)>(f: Format<V>, s: State<V>, i: nat)
    requires RoundTrips(f) && Inv(f, s) && i < |s.writers| && s.writers[i].phase.Matching?
    requires s.target.Some? && f.matches(s.writers[s.target.value].value, s.writers[i].value)
    ensures Next(f, s, Advance(i, true, 0)) == s.(writers := s.writers[i := s.writers[i].(phase := Matched(s.losses))])
  { }

  /** A writer that finds the path taken cleans up and goes on to match. */
  lemma TakenPath<V(!new)>(f: Format<V>, s: State<V>, i: nat)
    requires i < |s.writers| && s.target.Some? && s.target.value < |s.writers| && s.writers[i].phase == Linking
    ensures Next(f, Next(f, s, Advance(i, true, 0)), Advance(i, true, 0))
      == s.(writers := s.writers[i := s.writers[i].(phase := Matching)])
  {
    var cleaning := s.writers[i := s.writers[i].(phase := Cleaning(Exists))];
    assert Next(f, s, Advance(i, true, 0)) == s.(writers := cleaning);
  }

  lemma LinkIsRefused<V(!new)>(f: Format<V>, run: seq<Action<V>>) returns (more: seq<Action<V>>)
    requires RoundTrips(f)
    requires
      var s := After(f, Initial(), run);
      |s.writers| == 2 && s.target == Some(0) && s.writers[1].phase == Linking
    ensures
      var s := After(f, Initial(), run);
      After(f, Initial(), more) == s.(writers := s.writers[1 := s.writers[1].(phase := Matching)])
  {
    more := Extend(f, run, Advance(1, true, 0));
    more := Extend(f, more, Advance(1, true, 0));
    TakenPath(f, After(f, Initial(), run), 1);
  }

  lemma MatchSecond<V(!new)>(f: Format<V>, run: seq<Action<V>>) returns (more: seq<Action<V>>)
    requires RoundTrips(f)
    requires
      var s := After(f, Initial(), run);
      && |s.writers| == 2 && s.target == Some(0) && s.writers[1].phase == Linking
      && f.matches(s.writers[0].value, s.writers[1].value)
    ensures
      var s := After(f, Initial(), run);
      After(f, Initial(), more) == s.(writers := s.writers[1 := s.writers[1].(phase := Matched(s.losses))])
  {
    more := LinkIsRefused(f, run);
    MatchesNow(f, After(f, Initial(), more), 1);
    more := Extend(f, more, Advance(1, true, 0));
  }

  /** Both situations occur: a caller can match while the publisher has yet to sync the directory. */
  lemma MatchBeforeSync<V(!new)>(f: Format<V>, value: V)
    requires RoundTrips(f) && f.matches(value, value)
    ensures exists s :: Reachable(f, s) && Succeeded(s, 1) && s.writers[1].phase.Matched? && !s.entryDurable
  {
    var run := LinkWithoutSync(f, value);
    run := Prepare(f, run, 1);
    run := MatchSecond(f, run);
    assert Reachable(f, After(f, Initial(), run));
  }

  // Confirmation evidence.

  /** Evidence is its confirmation time and everything else it says. */
  datatype Evidence = Evidence(confirmedAt: int, others: string)

  const MAX_SAFE_INTEGER: int := 0x1F_FFFF_FFFF_FFFF

  predicate ConfirmationMatches(stored: Evidence, candidate: Evidence) {
    && 0 < stored.confirmedAt <= MAX_SAFE_INTEGER
    && stored.confirmedAt <= candidate.confirmedAt
    && stored.others == candidate.others
  }

  /**
   All successful confirmations say the same apart from their time, and once a caller has published
   its time is the earliest of all of them.
   */
  lemma EarliestConfirmationIsStored(f: Format<Evidence>, s: State<Evidence>, i: nat, j: nat)
    requires RoundTrips(f) && Inv(f, s) && Succeeded(s, i) && Succeeded(s, j)
    requires forall a, b :: f.matches(a, b) == ConfirmationMatches(a, b)
    ensures s.writers[i].value.others == s.writers[j].value.others
    ensures s.writers[i].phase.Published? ==> s.writers[i].value.confirmedAt <= s.writers[j].value.confirmedAt
  {
    SuccessesAgree(f, s, i);
    SuccessesAgree(f, s, j);
  }
}
