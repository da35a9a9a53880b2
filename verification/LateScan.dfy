/** When a scan ends although every request comes after its page key has expired. */
module LateScan {
  import opened RecoveryScan

  /** Where a scan starts over when its key has expired. */
  function Restart(history: seq<Transfer>, from: nat, s: Scan): nat {
    Below(history, if s.cursor.None? then from else s.cursor.value.resumeFromBlock)
  }

  /** A request that comes too late for the page key, answered with a full page of the range, or with its rest. */
  predicate LateAndFull(history: seq<Transfer>, from: nat, head: nat, n: nat, s: Scan, t: Turn) {
    var p, end := Restart(history, from, s), Below(history, head + 1);
    && t.head == head && (s.cursor.Some? ==> Expired(s, t))
    && t.count == (if p + n <= end then n else if p <= end then end - p else 0)
    && t.more == (p + n < end)
  }

  predicate AlwaysLate(history: seq<Transfer>, from: nat, head: nat, n: nat, turns: seq<Turn>) {
    forall k | 0 <= k < |turns| :: LateAndFull(history, from, head, n, Run(history, from, turns[..k]), turns[k])
  }

  /** Some block of the range holds n transfers, and another transfer of the range follows them. */
  predicate Crowded(history: seq<Transfer>, from: nat, head: nat, n: nat) {
    exists i :: Below(history, from) <= i && i + n < Below(history, head + 1) && SameBlock(history, i, n)
  }

  predicate SameBlock(history: seq<Transfer>, i: nat, n: nat) {
    1 <= n && i + n <= |history| && BlockAt(history, i) == BlockAt(history, i + n - 1)
  }

  /** What holds between two late requests. */
  predicate Waiting(history: seq<Transfer>, from: nat, head: nat, s: Scan) {
    && ScanOk(history, from, s) && !s.done
    && (s.cursor.Some? ==> s.toBlock == head)
  }

  /** A late request is served: it ends the scan, or moves the restart to the block of the page's last transfer. */
  lemma LateAdvance(history: seq<Transfer>, from: nat, head: nat, n: nat, s: Scan, t: Turn)
    requires Ascending(history) && from <= head && 1 <= n <= PAGE_LIMIT
    requires Waiting(history, from, head, s) && LateAndFull(history, from, head, n, s, t)
    ensures
      var p, next := Restart(history, from, s), Advance(history, from, s, t);
      if p + n >= Below(history, head + 1) then next.done
      else
        && Waiting(history, from, head, next) && next.cursor.Some?
        && next.cursor.value.resumeFromBlock == BlockAt(history, p + n - 1)
  {
    NextQuery(history, from, s, t);
    LateServes(history, from, head, n, s, t);
    var v := ServedPage(history, from, s, t);
    AdvanceKeeps(history, from, s, t);
  }

  /** The request is not refused, and its answer carries a cursor exactly when more is to come. */
  lemma LateServes(history: seq<Transfer>, from: nat, head: nat, n: nat, s: Scan, t: Turn)
    requires Ascending(history) && from <= head && 1 <= n <= PAGE_LIMIT
    requires Waiting(history, from, head, s) && LateAndFull(history, from, head, n, s, t)
    ensures Respond(history, from, s.cursor, t).Ok?
    ensures Respond(history, from, s.cursor, t).value.cursor.Some? <==> t.more
  {
    NextQuery(history, from, s, t);
    var q, p := Plan(from, s.cursor, t.now, t.head).value, Restart(history, from, s);
    assert q.pageKey.None? && q.toBlock == head && p == Below(history, q.fromBlock);
    BelowMonotone(history, q.fromBlock, head + 1);
    assert Upstream(history, q, t.count, t.more).Some?;
    UpstreamStretch(history, q, t.count, t.more, p);
    StartBelowPage(history, from, s, t);
    StretchAccepted(history, q.fromBlock, head, p, t.count);
  }

  lemma AlwaysLatePrefix(history: seq<Transfer>, from: nat, head: nat, n: nat, turns: seq<Turn>)
    requires turns != [] && AlwaysLate(history, from, head, n, turns)
    ensures AlwaysLate(history, from, head, n, turns[..|turns| - 1])
  {
    var before := turns[..|turns| - 1];
    forall k | 0 <= k < |before| ensures LateAndFull(history, from, head, n, Run(history, from, before[..k]), before[k]) {
      assert before[..k] == turns[..k];
    }
  }

  /** The restart is the first position of its block, so a page from it stays in one block or leaves it for good. */
  lemma RestartMoves(history: seq<Transfer>, block: nat, i: nat)
    requires Ascending(history) && i < |history| && BlockAt(history, i) == block
    ensures Below(history, block) <= i && BlockAt(history, Below(history, block)) == block
    ensures forall j {:trigger BlockAt(history, j)} | 0 <= j < |history| && BlockAt(history, j) < block :: j < Below(history, block)
    ensures forall c | 0 <= c <= block :: Below(history, c) <= Below(history, block)
  {
    BelowSplits(history, block);
    forall c | 0 <= c <= block ensures Below(history, c) <= Below(history, block) {
      BelowMonotone(history, c, block);
    }
  }

  /** A page of n cannot jump over n transfers of one block. */
  lemma {:induction false} CrowdStops(history: seq<Transfer>, from: nat, head: nat, n: nat, turns: seq<Turn>, i: nat)
    requires Ascending(history) && from <= head && 1 <= n <= PAGE_LIMIT && AlwaysLate(history, from, head, n, turns)
    requires Below(history, from) <= i && i + n < Below(history, head + 1) && SameBlock(history, i, n)
    ensures
      var s := Run(history, from, turns);
      Waiting(history, from, head, s) && Restart(history, from, s) <= Below(history, BlockAt(history, i))
    decreases |turns|
  {
    var block := BlockAt(history, i);
    RestartMoves(history, block, i);
    BelowSplits(history, from);
    if turns == [] {
      assert Below(history, from) <= Below(history, block);
    } else {
      var k := |turns| - 1;
      AlwaysLatePrefix(history, from, head, n, turns);
      CrowdStops(history, from, head, n, turns[..k], i);
      var s := Run(history, from, turns[..k]);
      LateAdvance(history, from, head, n, s, turns[k]);
      var last := Restart(history, from, s) + n - 1;
      assert BlockAt(history, last) <= BlockAt(history, i + n - 1);
    }
  }

  /** Without such a crowd every late page moves the restart on. */
  lemma {:induction false} LateScanMoves(history: seq<Transfer>, from: nat, head: nat, n: nat, turns: seq<Turn>)
    requires Ascending(history) && from <= head && 1 <= n <= PAGE_LIMIT && AlwaysLate(history, from, head, n, turns)
    requires !Crowded(history, from, head, n)
    ensures
      var s := Run(history, from, turns);
      s.done || (Waiting(history, from, head, s) && Below(history, from) + |turns| <= Restart(history, from, s) <= |history|)
    decreases |turns|
  {
    if turns != [] {
      var k := |turns| - 1;
      AlwaysLatePrefix(history, from, head, n, turns);
      LateScanMoves(history, from, head, n, turns[..k]);
      var s := Run(history, from, turns[..k]);
      if !s.done {
        LateAdvance(history, from, head, n, s, turns[k]);
        RestartGrows(history, from, head, n, s);
      }
    }
  }

  lemma RestartGrows(history: seq<Transfer>, from: nat, head: nat, n: nat, s: Scan)
    requires Ascending(history) && 1 <= n && !Crowded(history, from, head, n)
    requires Below(history, from) <= Restart(history, from, s)
    ensures
      var p := Restart(history, from, s);
      p + n < Below(history, head + 1) ==> p < Below(history, BlockAt(history, p + n - 1))
  {
    var p := Restart(history, from, s);
    if p + n < Below(history, head + 1) {
      assert !SameBlock(history, p, n);
      RestartMoves(history, BlockAt(history, p + n - 1), p + n - 1);
    }
  }

  /**
   The exact condition, for every history, range and page size: a scan whose requests all come late ends, within
   one request more than there are transfers, if and only if no block of the range holds a full page of transfers
   with another transfer of the range after them.
   */
  lemma LateScanEndsIff(history: seq<Transfer>, from: nat, head: nat, n: nat, turns: seq<Turn>)
    requires Ascending(history) && from <= head && 1 <= n <= PAGE_LIMIT
    requires AlwaysLate(history, from, head, n, turns) && |turns| > |history|
    ensures Run(history, from, turns).done <==> !Crowded(history, from, head, n)
  {
    if Crowded(history, from, head, n) {
      var i :| Below(history, from) <= i && i + n < Below(history, head + 1) && SameBlock(history, i, n);
      CrowdStops(history, from, head, n, turns, i);
    } else {
      LateScanMoves(history, from, head, n, turns);
    }
  }

  /** A crowded range never ends, however many late requests are made. */
  lemma CrowdedNeverEnds(history: seq<Transfer>, from: nat, head: nat, n: nat, turns: seq<Turn>)
    requires Ascending(history) && from <= head && 1 <= n <= PAGE_LIMIT
    requires AlwaysLate(history, from, head, n, turns) && Crowded(history, from, head, n)
    ensures !Run(history, from, turns).done
  {
    var i :| Below(history, from) <= i && i + n < Below(history, head + 1) && SameBlock(history, i, n);
    CrowdStops(history, from, head, n, turns, i);
  }

  /** Requests can always come late: such runs exist, of any length, for every history, range and page size. */
  lemma {:induction false} LateRunsExist(history: seq<Transfer>, from: nat, head: nat, n: nat, count: nat) returns (turns: seq<Turn>)
    ensures |turns| == count && AlwaysLate(history, from, head, n, turns)
    decreases count
  {
    if count == 0 {
      return [];
    }
    var before := LateRunsExist(history, from, head, n, count - 1);
    var s := Run(history, from, before);
    var p, end := Restart(history, from, s), Below(history, head + 1);
    var now := if s.cursor.Some? then s.cursor.value.expiresAt else 0;
    var t := Turn(now, now, head, if p + n <= end then n else if p <= end then end - p else 0, p + n < end);
    turns := before + [t];
    forall k | 0 <= k < |turns| ensures LateAndFull(history, from, head, n, Run(history, from, turns[..k]), turns[k]) {
      assert turns[..k] == before[..k];
      assert before[..|before|] == before;
    }
  }

  /** The smallest such range: two transfers in one block, and pages of one. */
  lemma BusyBlockIsCrowded()
    ensures
      var history := [Transfer(1, 5), Transfer(2, 5)];
      Ascending(history) && Crowded(history, 5, 5, 1)
  {
    var history := [Transfer(1, 5), Transfer(2, 5)];
    assert Below(history, 5) == 0 && Below(history, 6) == 2;
    assert SameBlock(history, 0, 1);
  }
}
