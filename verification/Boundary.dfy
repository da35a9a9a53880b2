/** The finalized withdrawal boundary: two of three configured providers must agree on it. */
module Boundary {
  import opened Prelude

  datatype Observation = Observation(
    digest: string, head: nat, checkpoint: nat, hash: string, withdrawalsPaused: bool, minimum: nat)

  datatype Boundary = Boundary(
    checkpoint: nat, hash: string, withdrawalsPaused: bool, minimum: nat, providers: seq<Observation>)

  predicate Confirms(o: Observation, b: Boundary) {
    o.checkpoint == b.checkpoint && o.hash == b.hash && o.minimum == b.minimum
  }

  predicate Usable(o: Observation, b: Boundary) {
    !o.withdrawalsPaused && o.head >= b.checkpoint
  }

  function Digests(providers: seq<Observation>): (d: seq<string>)
    ensures |d| == |providers| && forall i | 0 <= i < |d| :: d[i] == providers[i].digest
  {
    seq(|providers|, i requires 0 <= i < |providers| => providers[i].digest)
  }

  function Only(configured: seq<string>, digests: seq<string>): seq<string> {
    if configured == [] then []
    else (if configured[0] in digests then [configured[0]] else []) + Only(configured[1..], digests)
  }

  function Agreeing(b: Boundary, k: nat): nat
    requires k <= |b.providers|
  {
    if k == 0 then 0 else Agreeing(b, k - 1) + if Confirms(b.providers[k - 1], b) then 1 else 0
  }

  predicate Accepted(b: Boundary, configured: seq<string>, bound: nat) {
    && !b.withdrawalsPaused && 2 <= |b.providers| <= 3
    && (forall i | 0 <= i < |b.providers| :: Usable(b.providers[i], b))
    && Digests(b.providers) == Only(configured, Digests(b.providers))
    && NoRepeats(Digests(b.providers)) && Agreeing(b, |b.providers|) >= 2
    && b.minimum == bound
  }

  /** The validator's loop over the observations. */
  method ValidateBoundary(b: Boundary, configured: seq<string>, bound: nat) returns (ok: bool)
    ensures ok == Accepted(b, configured, bound)
  {
    if b.withdrawalsPaused || !(2 <= |b.providers| <= 3) {
      return false;
    }
    var agreeing := 0;
    var digests: seq<string> := [];
    for index := 0 to |b.providers|
      invariant agreeing == Agreeing(b, index)
      invariant digests == Digests(b.providers)[..index]
      invariant forall i | 0 <= i < index :: Usable(b.providers[i], b)
    {
      var provider := b.providers[index];
      digests := digests + [provider.digest];
      if provider.withdrawalsPaused || provider.head < b.checkpoint {
        return false;
      }
      if provider.checkpoint == b.checkpoint && provider.hash == b.hash && provider.minimum == b.minimum {
        agreeing := agreeing + 1;
      }
    }
    assert digests == Digests(b.providers);
    return digests == Only(configured, digests) && NoRepeats(digests) && agreeing >= 2 && b.minimum == bound;
  }

  // Quorums intersect.

  lemma {:induction false} OnlyConfigured(configured: seq<string>, digests: seq<string>)
    ensures forall d | d in Only(configured, digests) :: d in configured
  {
    if configured != [] {
      OnlyConfigured(configured[1..], digests);
    }
  }

  lemma {:induction false} SomeConfirm(b: Boundary, k: nat, least: nat) returns (i: nat)
    requires k <= |b.providers| && Agreeing(b, k) >= least > 0
    ensures i < k && Confirms(b.providers[i], b) && Agreeing(b, i) >= least - 1
  {
    if Confirms(b.providers[k - 1], b) {
      i := k - 1;
    } else {
      i := SomeConfirm(b, k - 1, least);
    }
  }

  /** An accepted boundary has two observations that confirm it, from different configured providers. */
  lemma TwoConfirm(b: Boundary, configured: seq<string>, bound: nat) returns (i: nat, j: nat)
    requires Accepted(b, configured, bound)
    ensures i < j < |b.providers| && Confirms(b.providers[i], b) && Confirms(b.providers[j], b)
    ensures b.providers[i].digest != b.providers[j].digest
    ensures b.providers[i].digest in configured && b.providers[j].digest in configured
  {
    j := SomeConfirm(b, |b.providers|, 2);
    i := SomeConfirm(b, j, 1);
    var d := Digests(b.providers);
    OnlyConfigured(configured, d);
    assert d[i] in d && d[j] in d;
  }

  /** Two pairs out of three share a member. */
  lemma PairsMeet(configured: seq<string>, a: string, b: string, c: string, d: string)
    requires |configured| == 3 && a != b && c != d
    requires a in configured && b in configured && c in configured && d in configured
    ensures a == c || a == d || b == c || b == d
  { }

  /** Any two accepted boundaries share a provider whose own observations confirm both. */
  lemma QuorumsIntersect(b: Boundary, c: Boundary, configured: seq<string>, boundB: nat, boundC: nat) returns (i: nat, j: nat)
    requires |configured| == 3 && NoRepeats(configured)
    requires Accepted(b, configured, boundB) && Accepted(c, configured, boundC)
    ensures i < |b.providers| && j < |c.providers| && b.providers[i].digest == c.providers[j].digest
    ensures Confirms(b.providers[i], b) && Confirms(c.providers[j], c)
  {
    var i0, i1 := TwoConfirm(b, configured, boundB);
    var j0, j1 := TwoConfirm(c, configured, boundC);
    PairsMeet(configured, b.providers[i0].digest, b.providers[i1].digest, c.providers[j0].digest, c.providers[j1].digest);
    i := if b.providers[i0].digest == c.providers[j0].digest || b.providers[i0].digest == c.providers[j1].digest then i0 else i1;
    j := if c.providers[j0].digest == b.providers[i].digest then j0 else j1;
  }

  /** A provider that reports one hash and minimum per block. */
  predicate Reports(report: (string, nat) -> (string, nat), b: Boundary) {
    forall i | 0 <= i < |b.providers| ::
      report(b.providers[i].digest, b.providers[i].checkpoint) == (b.providers[i].hash, b.providers[i].minimum)
  }

  /** If providers do not contradict themselves, accepted boundaries at one checkpoint are the same boundary. */
  lemma BoundaryIsUnique(
    report: (string, nat) -> (string, nat), b: Boundary, c: Boundary, configured: seq<string>, boundB: nat, boundC: nat)
    requires |configured| == 3 && NoRepeats(configured)
    requires Accepted(b, configured, boundB) && Accepted(c, configured, boundC)
    requires Reports(report, b) && Reports(report, c) && b.checkpoint == c.checkpoint
    ensures b.hash == c.hash && b.minimum == c.minimum
  {
    var i, j := QuorumsIntersect(b, c, configured, boundB, boundC);
    assert report(b.providers[i].digest, b.checkpoint) == (b.hash, b.minimum);
    assert report(c.providers[j].digest, c.checkpoint) == (c.hash, c.minimum);
  }
}
