/**
 The recovery worker's resumable scan: one page of token transfers per request, continued through a cursor
 that carries a short-lived upstream page key and a long-lived block checkpoint.
 */
module RecoveryScan {
  import opened Prelude

  const PAGE_LIMIT: nat := 100
  const KEY_LIFETIME_MS: nat := 540_000

  // A hash stands for its value: the worker lower-cases the hexadecimal text before comparing or returning it.
  datatype Transfer = Transfer(hash: nat, block: nat)

  datatype PageKey = PageKey(fromBlock: nat, toBlock: nat, offset: nat)

  datatype Page = Page(transfers: seq<Transfer>, pageKey: Option<PageKey>)

  datatype Cursor = Cursor(fromBlock: nat, toBlock: nat, resumeFromBlock: nat, pageKey: PageKey, expiresAt: nat)

  datatype Response = Response(hashes: seq<nat>, cursor: Option<Cursor>)

  datatype ApiError = HeadUnavailable | InvalidCursorRange | UpstreamUnavailable | RecoveryUnavailable
    | InvalidTransferRange | EmptyTransferPage

  // The upstream index: a fixed history in ascending block order.

  function BlockAt(history: seq<Transfer>, i: nat): nat
    requires i < |history|
  {
    history[i].block
  }

  predicate Ascending(history: seq<Transfer>) {
    forall i, j {:trigger BlockAt(history, i), BlockAt(history, j)} | 0 <= i <= j < |history| ::
      BlockAt(history, i) <= BlockAt(history, j)
  }

  /** How many of the first `n` transfers lie strictly below a block. */
  function BelowUpTo(history: seq<Transfer>, block: nat, n: nat): (k: nat)
    requires n <= |history|
    ensures k <= n
  {
    if n == 0 || BlockAt(history, n - 1) < block then n else BelowUpTo(history, block, n - 1)
  }

  function Below(history: seq<Transfer>, block: nat): (k: nat)
    ensures k <= |history|
  {
    BelowUpTo(history, block, |history|)
  }

  lemma {:induction false} BelowUpToSplits(history: seq<Transfer>, block: nat, n: nat)
    requires Ascending(history) && n <= |history|
    ensures forall i {:trigger BlockAt(history, i)} | 0 <= i < n :: BlockAt(history, i) < block <==> i < BelowUpTo(history, block, n)
  {
    if n != 0 && BlockAt(history, n - 1) >= block {
      BelowUpToSplits(history, block, n - 1);
    }
  }

  lemma BelowSplits(history: seq<Transfer>, block: nat)
    requires Ascending(history)
    ensures forall i {:trigger BlockAt(history, i)} | 0 <= i < |history| :: BlockAt(history, i) < block <==> i < Below(history, block)
  {
    BelowUpToSplits(history, block, |history|);
  }

  function Range(history: seq<Transfer>, lo: nat, hi: nat): seq<Transfer> {
    if Below(history, lo) <= Below(history, hi + 1) then history[Below(history, lo)..Below(history, hi + 1)] else []
  }

  datatype Query = Query(fromBlock: nat, toBlock: nat, pageKey: Option<PageKey>)

  /** One upstream answer: some next stretch of the range, with a key whenever more may follow. */
  function Upstream(history: seq<Transfer>, q: Query, count: nat, more: bool): Option<Page> {
    var all := Range(history, q.fromBlock, q.toBlock);
    var start := if q.pageKey.Some? then q.pageKey.value.offset else 0;
    if q.pageKey.Some? && (q.pageKey.value.fromBlock != q.fromBlock || q.pageKey.value.toBlock != q.toBlock) then None
    else if start + count > |all| || (start + count < |all| && !more) then None
    else Some(Page(all[start..start + count],
                   if more then Some(PageKey(q.fromBlock, q.toBlock, start + count)) else None))
  }

  // The worker.

  /** Distinct hashes in first-seen order. */
  function Hashes(transfers: seq<Transfer>): seq<nat> {
    if transfers == [] then []
    else
      var before := Hashes(transfers[..|transfers| - 1]);
      var h := transfers[|transfers| - 1].hash;
      if h in before then before else before + [h]
  }

  /** Deduplication loses no transfer of the page. */
  lemma {:induction false} HashesComplete(transfers: seq<Transfer>, i: nat)
    requires i < |transfers|
    ensures transfers[i].hash in Hashes(transfers)
  {
    if i < |transfers| - 1 {
      HashesComplete(transfers[..|transfers| - 1], i);
    }
  }

  /** It invents none, and keeps each hash once. */
  lemma {:induction false} HashesSound(transfers: seq<Transfer>, k: nat) returns (i: nat)
    requires k < |Hashes(transfers)|
    ensures i < |transfers| && Hashes(transfers)[k] == transfers[i].hash
    ensures forall j | 0 <= j < k :: Hashes(transfers)[j] != Hashes(transfers)[k]
  {
    var before := Hashes(transfers[..|transfers| - 1]);
    if k < |before| {
      i := HashesSound(transfers[..|transfers| - 1], k);
    } else {
      i := |transfers| - 1;
    }
  }

  /** The last block of a page that ascends from `start` and stays within the range. */
  function LastBlock(start: nat, toBlock: nat, transfers: seq<Transfer>): Option<nat> {
    if transfers == [] then Some(start)
    else
      var before := LastBlock(start, toBlock, transfers[..|transfers| - 1]);
      var block := transfers[|transfers| - 1].block;
      if before.None? || block < before.value || block > toBlock then None else Some(block)
  }

  function Plan(from: nat, cursor: Option<Cursor>, now: nat, head: nat): Result<Query, ApiError> {
    var toBlock := if cursor.Some? then cursor.value.toBlock else head;
    if toBlock < from then Err(HeadUnavailable)
    else if cursor.Some? && (cursor.value.fromBlock < from || cursor.value.resumeFromBlock < cursor.value.fromBlock
                             || cursor.value.resumeFromBlock > toBlock) then Err(InvalidCursorRange)
    else if cursor.None? then Ok(Query(from, toBlock, None))
    else if cursor.value.expiresAt > now then Ok(Query(cursor.value.fromBlock, toBlock, Some(cursor.value.pageKey)))
    else Ok(Query(cursor.value.resumeFromBlock, toBlock, None))
  }

  function Finish(q: Query, cursor: Option<Cursor>, page: Page, later: nat): Result<Response, ApiError> {
    var start := if q.pageKey.Some? && cursor.Some? then cursor.value.resumeFromBlock else q.fromBlock;
    var last := LastBlock(start, q.toBlock, page.transfers);
    if |page.transfers| > PAGE_LIMIT then Err(RecoveryUnavailable)
    else if last.None? then Err(InvalidTransferRange)
    else if page.pageKey.Some? && page.transfers == [] then Err(EmptyTransferPage)
    else Ok(Response(Hashes(page.transfers),
                     if page.pageKey.None? then None
                     else Some(Cursor(q.fromBlock, q.toBlock, last.value, page.pageKey.value, later + KEY_LIFETIME_MS))))
  }

  /** What the outside decides about one request: clocks, chain head and how much upstream returns. */
  datatype Turn = Turn(now: nat, later: nat, head: nat, count: nat, more: bool)

  function Respond(history: seq<Transfer>, from: nat, cursor: Option<Cursor>, t: Turn): Result<Response, ApiError> {
    match Plan(from, cursor, t.now, t.head)
    case Err(e) => Err(e)
    case Ok(q) =>
      var page := Upstream(history, q, t.count, t.more);
      if page.None? then Err(UpstreamUnavailable) else Finish(q, cursor, page.value, t.later)
  }

  /** The handler's own control flow, with the block check as the loop it is. */
  method HandleMintRecovery(history: seq<Transfer>, from: nat, cursor: Option<Cursor>, t: Turn)
    returns (r: Result<Response, ApiError>)
    ensures r == Respond(history, from, cursor, t)
  {
    var toBlock := if cursor.Some? then cursor.value.toBlock else t.head;
    if toBlock < from { return Err(HeadUnavailable); }
    if cursor.Some? && (cursor.value.fromBlock < from || cursor.value.resumeFromBlock < cursor.value.fromBlock
                        || cursor.value.resumeFromBlock > toBlock)
    {
      return Err(InvalidCursorRange);
    }
    var pageKey := if cursor.Some? && cursor.value.expiresAt > t.now then Some(cursor.value.pageKey) else None;
    var fromBlock := if cursor.None? then from
                     else if pageKey.Some? then cursor.value.fromBlock else cursor.value.resumeFromBlock;
    var result := Upstream(history, Query(fromBlock, toBlock, pageKey), t.count, t.more);
    if result.None? { return Err(UpstreamUnavailable); }
    var transfers := result.value.transfers;
    if |transfers| > PAGE_LIMIT { return Err(RecoveryUnavailable); }
    var lastBlock := CheckBlocks(if pageKey.Some? then cursor.value.resumeFromBlock else fromBlock, toBlock, transfers);
    if lastBlock.None? { return Err(InvalidTransferRange); }
    if result.value.pageKey.Some? && |transfers| == 0 { return Err(EmptyTransferPage); }
    var next := if result.value.pageKey.None? then None
                else Some(Cursor(fromBlock, toBlock, lastBlock.value, result.value.pageKey.value, t.later + KEY_LIFETIME_MS));
    return Ok(Response(Hashes(transfers), next));
  }

  /** The blocks of a page lie in the range that is left, in ascending order. */
  predicate InOrder(start: nat, toBlock: nat, transfers: seq<Transfer>) {
    && (forall i | 0 <= i < |transfers| :: start <= transfers[i].block <= toBlock)
    && (forall i, j | 0 <= i < j < |transfers| :: transfers[i].block <= transfers[j].block)
  }

  lemma {:induction false} LastBlockIff(start: nat, toBlock: nat, transfers: seq<Transfer>)
    ensures LastBlock(start, toBlock, transfers).Some? <==> InOrder(start, toBlock, transfers)
    ensures LastBlock(start, toBlock, transfers).Some? ==>
      LastBlock(start, toBlock, transfers).value == if transfers == [] then start else transfers[|transfers| - 1].block
  {
    if transfers != [] {
      LastBlockIff(start, toBlock, transfers[..|transfers| - 1]);
    }
  }

  /** The loop over a page: the first transfer out of order or out of range refuses the whole page. */
  method CheckBlocks(start: nat, toBlock: nat, transfers: seq<Transfer>) returns (last: Option<nat>)
    ensures last.Some? <==> InOrder(start, toBlock, transfers)
    ensures last.Some? ==> last.value == if transfers == [] then start else transfers[|transfers| - 1].block
    ensures last == LastBlock(start, toBlock, transfers)
  {
    LastBlockIff(start, toBlock, transfers);
    var lastBlock := start;
    var i := 0;
    while i < |transfers|
      invariant 0 <= i <= |transfers|
      invariant LastBlock(start, toBlock, transfers[..i]) == Some(lastBlock)
    {
      var block := transfers[i].block;
      assert transfers[..i + 1][..i] == transfers[..i];
      if block < lastBlock || block > toBlock {
        BadPrefix(start, toBlock, transfers, i + 1);
        return None;
      }
      lastBlock := block;
      i := i + 1;
    }
    assert transfers[..i] == transfers;
    return Some(lastBlock);
  }

  lemma {:induction false} BadPrefix(start: nat, toBlock: nat, transfers: seq<Transfer>, n: nat)
    requires n <= |transfers| && LastBlock(start, toBlock, transfers[..n]).None?
    ensures LastBlock(start, toBlock, transfers).None?
  {
    if n == |transfers| {
      assert transfers[..n] == transfers;
    } else {
      assert transfers[..|transfers| - 1][..n] == transfers[..n];
      BadPrefix(start, toBlock, transfers[..|transfers| - 1], n);
    }
  }

  // A client that follows the cursors it is given.

  datatype Scan = Scan(
    cursor: Option<Cursor>, toBlock: nat, collected: set<nat>, done: bool, pages: nat, expiries: nat)

  const FRESH: Scan := Scan(None, 0, {}, false, 0, 0)

  predicate Expired(s: Scan, t: Turn) {
    s.cursor.Some? && s.cursor.value.expiresAt <= t.now
  }

  /** A failed request changes nothing; the client simply asks again. The head seen first bounds the whole scan. */
  function Advance(history: seq<Transfer>, from: nat, s: Scan, t: Turn): Scan {
    if s.done then s
    else match Respond(history, from, s.cursor, t)
      case Err(_) => s
      case Ok(r) =>
        Scan(r.cursor, if s.cursor.None? then t.head else s.toBlock, s.collected + (set h | h in r.hashes),
             r.cursor.None?, s.pages + 1, s.expiries + if Expired(s, t) then 1 else 0)
  }

  function Run(history: seq<Transfer>, from: nat, turns: seq<Turn>): Scan {
    if turns == [] then FRESH
    else Advance(history, from, Run(history, from, turns[..|turns| - 1]), turns[|turns| - 1])
  }

  /** The transfers at these positions of the history have been returned. */
  predicate Collected(history: seq<Transfer>, collected: set<nat>, lo: nat, hi: nat) {
    forall i {:trigger history[i]} | lo <= i < hi && i < |history| :: history[i].hash in collected
  }

  /** Where a cursor's live key stands in the whole history. */
  function Position(history: seq<Transfer>, c: Cursor): nat {
    Below(history, c.fromBlock) + c.pageKey.offset
  }

  /**
   Every issued cursor is in range, its checkpoint is the block of the last transfer returned,
   and everything before its live key has been returned; so has everything below the checkpoint.
   */
  predicate CursorOk(history: seq<Transfer>, from: nat, collected: set<nat>, c: Cursor) {
    && from <= c.fromBlock <= c.resumeFromBlock <= c.toBlock
    && c.pageKey.fromBlock == c.fromBlock && c.pageKey.toBlock == c.toBlock
    && 1 <= c.pageKey.offset && Position(history, c) <= Below(history, c.toBlock + 1)
    && BlockAt(history, Position(history, c) - 1) == c.resumeFromBlock
    && Collected(history, collected, Below(history, from), Position(history, c))
  }

  predicate ScanOk(history: seq<Transfer>, from: nat, s: Scan) {
    && (s.cursor.Some? ==> !s.done && s.cursor.value.toBlock == s.toBlock && CursorOk(history, from, s.collected, s.cursor.value))
    && (s.done ==> Collected(history, s.collected, Below(history, from), Below(history, s.toBlock + 1)))
  }

  lemma BelowMonotone(history: seq<Transfer>, a: nat, b: nat)
    requires Ascending(history) && a <= b
    ensures Below(history, a) <= Below(history, b)
  {
    BelowSplits(history, a);
    BelowSplits(history, b);
    var k := Below(history, b);
    assert k < |history| ==> BlockAt(history, k) >= a;
  }

  /** The absolute position at which the next page starts: the live key, or the checkpoint block replayed from its start. */
  function NextStart(history: seq<Transfer>, from: nat, s: Scan, t: Turn): nat {
    if s.cursor.None? then Below(history, from)
    else if Expired(s, t) then Below(history, s.cursor.value.resumeFromBlock)
    else Position(history, s.cursor.value)
  }

  /** An issued cursor never fails the range check, and the query it leads to starts no later than what was collected. */
  lemma NextQuery(history: seq<Transfer>, from: nat, s: Scan, t: Turn)
    requires Ascending(history) && ScanOk(history, from, s) && !s.done
    requires s.cursor.None? ==> from <= t.head
    ensures Plan(from, s.cursor, t.now, t.head).Ok?
    ensures var q := Plan(from, s.cursor, t.now, t.head).value;
      && from <= q.fromBlock <= q.toBlock
      && q.toBlock == (if s.cursor.None? then t.head else s.toBlock)
      && Below(history, q.fromBlock) + (if q.pageKey.Some? then q.pageKey.value.offset else 0) == NextStart(history, from, s, t)
      && Below(history, from) <= NextStart(history, from, s, t) <= Below(history, q.toBlock + 1)
      && Collected(history, s.collected, Below(history, from), NextStart(history, from, s, t))
  {
    var q := Plan(from, s.cursor, t.now, t.head).value;
    BelowMonotone(history, from, q.fromBlock);
    BelowMonotone(history, q.fromBlock, q.toBlock + 1);
    if s.cursor.Some? {
      var c := s.cursor.value;
      BelowSplits(history, c.resumeFromBlock);
      BelowMonotone(history, from, c.resumeFromBlock);
    }
  }

  lemma SliceOfSlice<T>(s: seq<T>, a: nat, b: nat, i: nat, j: nat)
    requires a <= b <= |s| && i <= j <= b - a
    ensures s[a..b][i..j] == s[a + i..a + j]
  {
    var slice := s[a..b];
    assert forall k | 0 <= k < j - i :: slice[i..j][k] == s[a + i + k] == s[a + i..a + j][k];
  }

  /** The page upstream returns is a stretch of the history. */
  lemma UpstreamStretch(history: seq<Transfer>, q: Query, count: nat, more: bool, p: nat)
    requires Ascending(history) && q.fromBlock <= q.toBlock && Upstream(history, q, count, more).Some?
    requires p == Below(history, q.fromBlock) + (if q.pageKey.Some? then q.pageKey.value.offset else 0)
    ensures p + count <= Below(history, q.toBlock + 1)
    ensures Upstream(history, q, count, more).value.transfers == history[p..p + count]
    ensures var key := Upstream(history, q, count, more).value.pageKey;
      if key.Some? then
        key.value.fromBlock == q.fromBlock && key.value.toBlock == q.toBlock
        && Below(history, q.fromBlock) + key.value.offset == p + count
      else p + count == Below(history, q.toBlock + 1)
  {
    BelowMonotone(history, q.fromBlock, q.toBlock + 1);
    var first := Below(history, q.fromBlock);
    var all := Range(history, q.fromBlock, q.toBlock);
    assert all == history[first..Below(history, q.toBlock + 1)];
    assert p - first + count <= |all|;
    SliceOfSlice(history, first, Below(history, q.toBlock + 1), p - first, p - first + count);
  }

  /** A stretch that starts at or after the checkpoint passes the block check. */
  lemma StretchAccepted(history: seq<Transfer>, start: nat, toBlock: nat, p: nat, count: nat)
    requires Ascending(history) && p + count <= Below(history, toBlock + 1)
    requires p < |history| ==> start <= BlockAt(history, p)
    ensures LastBlock(start, toBlock, history[p..p + count]) == Some(if count == 0 then start else BlockAt(history, p + count - 1))
  {
    BelowSplits(history, toBlock + 1);
    var page := history[p..p + count];
    assert forall i | 0 <= i < count :: page[i].block == BlockAt(history, p + i);
    assert count > 0 ==> BlockAt(history, p) == history[p].block;
    LastBlockIff(start, toBlock, page);
  }

  /** The checkpoint a page is checked against is not above the page's first transfer. */
  lemma StartBelowPage(history: seq<Transfer>, from: nat, s: Scan, t: Turn)
    requires Ascending(history) && ScanOk(history, from, s) && !s.done && Plan(from, s.cursor, t.now, t.head).Ok?
    ensures var q := Plan(from, s.cursor, t.now, t.head).value; var p := NextStart(history, from, s, t);
      p < |history| ==> (if q.pageKey.Some? then s.cursor.value.resumeFromBlock else q.fromBlock) <= BlockAt(history, p)
  {
    var q := Plan(from, s.cursor, t.now, t.head).value;
    if q.pageKey.None? { BelowSplits(history, q.fromBlock); }
  }

  datatype Served = Served(query: Query, start: nat, response: Response)

  /** What a successful request served: where its page started, and the cursor it issued. */
  predicate ServedOk(history: seq<Transfer>, t: Turn, v: Served) {
    var q, p, r := v.query, v.start, v.response;
    && p + t.count <= Below(history, q.toBlock + 1)
    && r.hashes == Hashes(history[p..p + t.count])
    && (r.cursor.None? ==> p + t.count == Below(history, q.toBlock + 1))
    && (r.cursor.Some? ==>
          && t.count >= 1 && r.cursor.value.fromBlock == q.fromBlock && r.cursor.value.toBlock == q.toBlock
          && r.cursor.value.pageKey.fromBlock == q.fromBlock && r.cursor.value.pageKey.toBlock == q.toBlock
          && Position(history, r.cursor.value) == p + t.count
          && r.cursor.value.resumeFromBlock == BlockAt(history, p + t.count - 1))
  }

  lemma StretchServes(history: seq<Transfer>, q: Query, cursor: Option<Cursor>, t: Turn, page: Page, p: nat, start: nat)
    requires p + t.count <= Below(history, q.toBlock + 1) && (q.pageKey.Some? ==> cursor.Some?)
    requires page.transfers == history[p..p + t.count]
    requires if page.pageKey.Some? then
               page.pageKey.value.fromBlock == q.fromBlock && page.pageKey.value.toBlock == q.toBlock
               && Below(history, q.fromBlock) + page.pageKey.value.offset == p + t.count
             else p + t.count == Below(history, q.toBlock + 1)
    requires start == if q.pageKey.Some? then cursor.value.resumeFromBlock else q.fromBlock
    requires LastBlock(start, q.toBlock, page.transfers) == Some(if t.count == 0 then start else BlockAt(history, p + t.count - 1))
    requires Finish(q, cursor, page, t.later).Ok?
    ensures ServedOk(history, t, Served(q, p, Finish(q, cursor, page, t.later).value))
  {
    FinishServes(q, cursor, page, t);
  }

  /** The cursor issued with a page continues after it, at the page's last block. */
  lemma FinishServes(q: Query, cursor: Option<Cursor>, page: Page, t: Turn)
    requires (q.pageKey.Some? ==> cursor.Some?) && Finish(q, cursor, page, t.later).Ok?
    ensures var r := Finish(q, cursor, page, t.later).value;
      && r.hashes == Hashes(page.transfers)
      && (r.cursor.Some? <==> page.pageKey.Some?)
      && (r.cursor.Some? ==>
            && page.transfers != [] && r.cursor.value.fromBlock == q.fromBlock && r.cursor.value.toBlock == q.toBlock
            && r.cursor.value.pageKey == page.pageKey.value
            && LastBlock(if q.pageKey.Some? then cursor.value.resumeFromBlock else q.fromBlock, q.toBlock, page.transfers)
               == Some(r.cursor.value.resumeFromBlock))
  {
  }

  lemma PageServed(history: seq<Transfer>, q: Query, cursor: Option<Cursor>, t: Turn, p: nat)
    requires Ascending(history) && q.fromBlock <= q.toBlock && (q.pageKey.Some? ==> cursor.Some?)
    requires p == Below(history, q.fromBlock) + (if q.pageKey.Some? then q.pageKey.value.offset else 0)
    requires p < |history| ==> (if q.pageKey.Some? then cursor.value.resumeFromBlock else q.fromBlock) <= BlockAt(history, p)
    requires Upstream(history, q, t.count, t.more).Some?
    requires Finish(q, cursor, Upstream(history, q, t.count, t.more).value, t.later).Ok?
    ensures ServedOk(history, t, Served(q, p, Finish(q, cursor, Upstream(history, q, t.count, t.more).value, t.later).value))
  {
    UpstreamStretch(history, q, t.count, t.more, p);
    var start := if q.pageKey.Some? then cursor.value.resumeFromBlock else q.fromBlock;
    StretchAccepted(history, start, q.toBlock, p, t.count);
    StretchServes(history, q, cursor, t, Upstream(history, q, t.count, t.more).value, p, start);
  }

  lemma ServedPage(history: seq<Transfer>, from: nat, s: Scan, t: Turn) returns (v: Served)
    requires Ascending(history) && ScanOk(history, from, s) && !s.done
    requires Respond(history, from, s.cursor, t).Ok?
    ensures v.response == Respond(history, from, s.cursor, t).value && v.start == NextStart(history, from, s, t)
    ensures ServedOk(history, t, v)
    ensures from <= v.query.fromBlock <= v.query.toBlock == (if s.cursor.None? then t.head else s.toBlock)
    ensures s.cursor.Some? ==> v.query.fromBlock >= s.cursor.value.fromBlock
    ensures Below(history, from) <= v.start && Below(history, v.query.fromBlock) <= v.start
    ensures Collected(history, s.collected, Below(history, from), v.start)
  {
    NextQuery(history, from, s, t);
    var q := Plan(from, s.cursor, t.now, t.head).value;
    v := Served(q, NextStart(history, from, s, t), Respond(history, from, s.cursor, t).value);
    StartBelowPage(history, from, s, t);
    PageServed(history, q, s.cursor, t, v.start);
  }

  /** Serving a stretch after everything before it was collected leaves everything up to its end collected. */
  lemma StretchCollected(history: seq<Transfer>, collected: set<nat>, lo: nat, p: nat, n: nat, hashes: seq<nat>)
    requires lo <= p && p + n <= |history| && Collected(history, collected, lo, p) && hashes == Hashes(history[p..p + n])
    ensures Collected(history, collected + (set h | h in hashes), lo, p + n)
  {
    forall i {:trigger history[i]} | p <= i < p + n ensures history[i].hash in hashes {
      HashesComplete(history[p..p + n], i - p);
    }
  }

  /** A served page leaves the scan with a good cursor, or with the whole range collected. */
  lemma ServedKeeps(history: seq<Transfer>, from: nat, collected: set<nat>, t: Turn, v: Served)
    requires Ascending(history) && ServedOk(history, t, v) && from <= v.query.fromBlock
    requires Below(history, from) <= v.start && Below(history, v.query.fromBlock) <= v.start
    requires Collected(history, collected, Below(history, from), v.start)
    ensures var collected' := collected + (set h | h in v.response.hashes);
      if v.response.cursor.Some? then CursorOk(history, from, collected', v.response.cursor.value)
      else Collected(history, collected', Below(history, from), Below(history, v.query.toBlock + 1))
  {
    StretchCollected(history, collected, Below(history, from), v.start, t.count, v.response.hashes);
    if v.response.cursor.Some? {
      LastOfStretch(history, v.query, v.start, t.count);
    }
  }

  lemma AdvanceKeeps(history: seq<Transfer>, from: nat, s: Scan, t: Turn)
    requires Ascending(history) && ScanOk(history, from, s)
    ensures ScanOk(history, from, Advance(history, from, s, t))
  {
    if !s.done && Respond(history, from, s.cursor, t).Ok? {
      var v := ServedPage(history, from, s, t);
      ServedKeeps(history, from, s.collected, t, v);
    }
  }

  lemma LastOfStretch(history: seq<Transfer>, q: Query, p: nat, n: nat)
    requires Ascending(history) && n >= 1 && Below(history, q.fromBlock) <= p && p + n <= Below(history, q.toBlock + 1)
    ensures q.fromBlock <= BlockAt(history, p + n - 1) <= q.toBlock
  {
    BelowSplits(history, q.fromBlock);
    BelowSplits(history, q.toBlock + 1);
  }

  lemma {:induction false} RunOk(history: seq<Transfer>, from: nat, turns: seq<Turn>)
    requires Ascending(history)
    ensures ScanOk(history, from, Run(history, from, turns))
  {
    if turns != [] {
      RunOk(history, from, turns[..|turns| - 1]);
      AdvanceKeeps(history, from, Run(history, from, turns[..|turns| - 1]), turns[|turns| - 1]);
    }
  }

  lemma DoneCovers(history: seq<Transfer>, from: nat, s: Scan, i: nat)
    requires Ascending(history) && ScanOk(history, from, s) && s.done
    requires i < |history| && from <= history[i].block <= s.toBlock
    ensures history[i].hash in s.collected
  {
    BelowSplits(history, from);
    BelowSplits(history, s.toBlock + 1);
    assert BlockAt(history, i) == history[i].block;
  }

  /** Once a run ends, every transfer of the range has been returned, however often page keys expired on the way. */
  lemma ScanCoversRange(history: seq<Transfer>, from: nat, turns: seq<Turn>, tr: Transfer)
    requires Ascending(history) && Run(history, from, turns).done
    requires tr in history && from <= tr.block <= Run(history, from, turns).toBlock
    ensures tr.hash in Run(history, from, turns).collected
  {
    var s := Run(history, from, turns);
    RunOk(history, from, turns);
    var i :| 0 <= i < |history| && history[i] == tr;
    DoneCovers(history, from, s, i);
  }

  /** A transfer of the range has this hash. */
  predicate Known(history: seq<Transfer>, from: nat, toBlock: nat, h: nat) {
    exists i | 0 <= i < |history| :: h == history[i].hash && from <= BlockAt(history, i) <= toBlock
  }

  /** A hash that a request adds was served by it. */
  lemma NewHashIsServed(history: seq<Transfer>, from: nat, s: Scan, t: Turn, h: nat)
    requires h in Advance(history, from, s, t).collected && h !in s.collected
    ensures !s.done && Respond(history, from, s.cursor, t).Ok? && h in Respond(history, from, s.cursor, t).value.hashes
    ensures Advance(history, from, s, t).toBlock == if s.cursor.None? then t.head else s.toBlock
  { }

  lemma AdvanceIsSound(history: seq<Transfer>, from: nat, s: Scan, t: Turn, h: nat)
    requires Ascending(history) && ScanOk(history, from, s)
    requires h in Advance(history, from, s, t).collected && h !in s.collected
    ensures Known(history, from, Advance(history, from, s, t).toBlock, h)
  {
    NewHashIsServed(history, from, s, t, h);
    var v := ServedPage(history, from, s, t);
    StretchIsKnown(history, from, v.query.toBlock, v.start, t.count, h);
  }

  lemma StretchIsKnown(history: seq<Transfer>, from: nat, toBlock: nat, p: nat, n: nat, h: nat)
    requires Ascending(history) && Below(history, from) <= p && p + n <= Below(history, toBlock + 1)
    requires h in Hashes(history[p..p + n])
    ensures Known(history, from, toBlock, h)
  {
    var page := history[p..p + n];
    var k :| 0 <= k < |Hashes(page)| && h == Hashes(page)[k];
    var i := HashesSound(page, k);
    assert page[i] == history[p + i];
    BelowSplits(history, from);
    BelowSplits(history, toBlock + 1);
    assert from <= BlockAt(history, p + i) <= toBlock;
  }

  /** Nothing else is returned: every collected hash belongs to a transfer of the requested range. */
  lemma {:induction false} ScanIsSound(history: seq<Transfer>, from: nat, turns: seq<Turn>, h: nat)
    requires Ascending(history) && h in Run(history, from, turns).collected
    ensures Known(history, from, Run(history, from, turns).toBlock, h)
    decreases |turns|
  {
    if turns != [] {
      var before, t := turns[..|turns| - 1], turns[|turns| - 1];
      var s := Run(history, from, before);
      if h in s.collected {
        ScanIsSound(history, from, before, h);
        FreshHasNoPages(history, from, before);
        assert Advance(history, from, s, t).toBlock == s.toBlock;
      } else {
        RunOk(history, from, before);
        AdvanceIsSound(history, from, s, t, h);
      }
    }
  }

  /** Along a run the range stays fixed, issued cursors are never refused, and the checkpoint never moves back. */
  lemma CheckpointAdvances(history: seq<Transfer>, from: nat, turns: seq<Turn>, t: Turn)
    requires Ascending(history)
    requires Run(history, from, turns).cursor.Some? && Run(history, from, turns + [t]).cursor.Some?
    ensures Plan(from, Run(history, from, turns).cursor, t.now, t.head).Ok?
    ensures var c, c' := Run(history, from, turns).cursor.value, Run(history, from, turns + [t]).cursor.value;
      c'.toBlock == c.toBlock && c.resumeFromBlock <= c'.resumeFromBlock && c.fromBlock <= c'.fromBlock
  {
    var s := Run(history, from, turns);
    RunOk(history, from, turns);
    assert (turns + [t])[..|turns|] == turns;
    NextQuery(history, from, s, t);
    if Respond(history, from, s.cursor, t).Ok? {
      var v := ServedPage(history, from, s, t);
      BelowSplits(history, s.cursor.value.resumeFromBlock);
    }
  }

  /** Pages that `passes` complete passes over the history can take. */
  function PassPages(passes: nat, history: seq<Transfer>): nat {
    if passes == 0 then 0 else PassPages(passes - 1, history) + |history| + 1
  }

  lemma {:induction false} PassPagesProduct(passes: nat, history: seq<Transfer>)
    ensures PassPages(passes, history) == passes * (|history| + 1)
  {
    if passes != 0 {
      PassPagesProduct(passes - 1, history);
    }
  }

  /** What a scan may have spent so far: a full pass over the history per expiry, plus the progress of the current pass. */
  function Budget(history: seq<Transfer>, s: Scan): nat {
    PassPages(s.expiries, history) + if s.cursor.Some? then Position(history, s.cursor.value) else |history| + 1
  }

  /** An answer that carries a cursor has moved on by at least one transfer. */
  lemma PageMovesOn(history: seq<Transfer>, from: nat, s: Scan, t: Turn)
    requires Ascending(history) && ScanOk(history, from, s) && !s.done
    requires Respond(history, from, s.cursor, t).Ok? && Respond(history, from, s.cursor, t).value.cursor.Some?
    ensures NextStart(history, from, s, t) < Position(history, Respond(history, from, s.cursor, t).value.cursor.value)
  {
    var v := ServedPage(history, from, s, t);
  }

  /** One more page stays within the budget if it moved on from its start, which is the last position or a new pass. */
  lemma PageWithinBudget(history: seq<Transfer>, s: Scan, next: Scan, start: nat)
    requires s.pages <= Budget(history, s) && next.pages == s.pages + 1 && s.expiries <= next.expiries <= s.expiries + 1
    requires if s.cursor.None? then s.pages == 0 else Position(history, s.cursor.value) <= |history|
    requires s.cursor.Some? && next.expiries == s.expiries ==> start == Position(history, s.cursor.value)
    requires next.cursor.Some? ==> start < Position(history, next.cursor.value)
    ensures next.pages <= Budget(history, next)
  {
  }

  lemma AdvanceWithinBudget(history: seq<Transfer>, from: nat, s: Scan, t: Turn)
    requires Ascending(history) && ScanOk(history, from, s) && (s.cursor.None? && !s.done ==> s == FRESH)
    requires s.pages <= Budget(history, s)
    ensures var s' := Advance(history, from, s, t); s'.pages <= Budget(history, s')
  {
    if !s.done && Respond(history, from, s.cursor, t).Ok? {
      if Respond(history, from, s.cursor, t).value.cursor.Some? {
        PageMovesOn(history, from, s, t);
      }
      PageWithinBudget(history, s, Advance(history, from, s, t), NextStart(history, from, s, t));
    }
  }

  lemma {:induction false} RunWithinBudget(history: seq<Transfer>, from: nat, turns: seq<Turn>)
    requires Ascending(history)
    ensures var s := Run(history, from, turns); s.pages <= Budget(history, s)
  {
    if turns != [] {
      var before := turns[..|turns| - 1];
      RunWithinBudget(history, from, before);
      RunOk(history, from, before);
      FreshHasNoPages(history, from, before);
      AdvanceWithinBudget(history, from, Run(history, from, before), turns[|turns| - 1]);
    }
  }

  /** The number of pages served is bounded by the expiries and the size of the history, so finitely many expiries let the scan end. */
  lemma PagesBounded(history: seq<Transfer>, from: nat, turns: seq<Turn>)
    requires Ascending(history)
    ensures var s := Run(history, from, turns); s.pages <= (s.expiries + 1) * (|history| + 1)
  {
    var s := Run(history, from, turns);
    RunOk(history, from, turns);
    RunWithinBudget(history, from, turns);
    PassPagesProduct(s.expiries + 1, history);
  }

  /** No request of the run was refused, up to its end. */
  predicate AllServed(history: seq<Transfer>, from: nat, turns: seq<Turn>) {
    forall k | 0 <= k < |turns| :: ServedTurn(history, from, Run(history, from, turns[..k]), turns[k])
  }

  predicate ServedTurn(history: seq<Transfer>, from: nat, s: Scan, t: Turn) {
    s.done || Respond(history, from, s.cursor, t).Ok?
  }

  lemma {:induction false} ServedTurnsArePages(history: seq<Transfer>, from: nat, turns: seq<Turn>)
    requires AllServed(history, from, turns)
    ensures var s := Run(history, from, turns); s.done || s.pages == |turns|
  {
    if turns != [] {
      var before := turns[..|turns| - 1];
      assert forall k | 0 <= k < |before| :: before[..k] == turns[..k];
      ServedTurnsArePages(history, from, before);
      assert ServedTurn(history, from, Run(history, from, before), turns[|turns| - 1]);
    }
  }

  /** A scan whose requests are served ends, after at most one pass over the history more than page keys expired. */
  lemma ScanEnds(history: seq<Transfer>, from: nat, turns: seq<Turn>)
    requires Ascending(history) && AllServed(history, from, turns)
    requires |turns| > (Run(history, from, turns).expiries + 1) * (|history| + 1)
    ensures Run(history, from, turns).done
  {
    ServedTurnsArePages(history, from, turns);
    PagesBounded(history, from, turns);
  }

  lemma {:induction false} FreshHasNoPages(history: seq<Transfer>, from: nat, turns: seq<Turn>)
    ensures var s := Run(history, from, turns); s.cursor.None? && !s.done ==> s == FRESH
  {
    if turns != [] {
      FreshHasNoPages(history, from, turns[..|turns| - 1]);
    }
  }
}
