/** Why a missing transfer is replaced only after its window has closed. */
module BridgeWindow {
  import opened Prelude
  import opened Kernel
  import opened Deposits
  import opened Withdrawals
  import opened Accounting
  import opened BridgeWorld
  import opened BridgeInvariant
  import opened BridgeSteps
  import opened BridgeRequests
  import opened BridgeSafety
  import opened BridgeRuns

  /** A refund whose answer was lost and that the ledger has not executed so far. */
  predicate Unanswered(w: World, i: nat, h: nat) {
    && i < |w.deposits| && w.deposits[i].state.RefundHold? && w.deposits[i].state.hold == h
    && w.deposits[i].id == i
    && h in w.holds && w.holds[h].id == h && w.holds[h].request == DepositRefund(i) && w.holds[h].state.Open?
    && w.holds[h].transfer == w.deposits[i].state.attempt.identity
    && !Executed(w.ledger, Refund(i), w.holds[h].transfer)
  }

  /** A transfer that may take its place. */
  predicate Replacement(w: World, i: nat, next: Transfer)
    requires i < |w.deposits| && w.deposits[i].state.RefundHold?
  {
    RetryAfterAbsence(w.deposits[i].state.attempt, next).Some?
  }

  /** The world in which the refund was replaced without looking at the clock. */
  function Hasty(w: World, i: nat, h: nat, next: Transfer): World
    requires Unanswered(w, i, h) && Replacement(w, i, next)
  {
    ResolveDepositRecord(w, i, h, TransferAbsent(0, next)).value
  }

  /** A request for it was sent, and the ledger may still execute it, now or later. */
  predicate Exposed(w: World, i: nat, h: nat, next: Transfer) {
    && Unanswered(w, i, h) && Replacement(w, i, next)
    && Block(Refund(i), w.holds[h].transfer) in w.sent && !TooOld(w.holds[h].transfer, w.ledgerClock)
  }

  predicate PaidTwice(ledger: seq<Block>, i: nat) {
    exists k, l :: 0 <= k < l < |ledger| && ledger[k].owner == Refund(i) && ledger[l].owner == Refund(i)
  }

  predicate PaysTwice(w: World, run: seq<Action>, i: nat) {
    PaidTwice(After(w, run).ledger, i)
  }

  /**
   The window test is exactly what is needed: whatever happens after an unexecuted refund was replaced, it is
   not paid twice, if and only if no request for it was sent or the ledger finds it too old by then.
   */
  lemma WindowIsExact(w: World, i: nat, h: nat, next: Transfer)
    requires Invariant(w) && RequestsOk(w) && Unanswered(w, i, h) && Replacement(w, i, next)
    ensures (forall run :: !PaysTwice(Hasty(w, i, h, next), run, i)) <==>
      Block(Refund(i), w.holds[h].transfer) !in w.sent || TooOld(w.holds[h].transfer, w.ledgerClock)
  {
    if Exposed(w, i, h, next) {
      var run := LateExecutionPaysTwice(w, i, h, next);
      assert PaysTwice(Hasty(w, i, h, next), run, i);
    } else {
      forall run ensures !PaysTwice(Hasty(w, i, h, next), run, i) {
        PatiencePaysOnce(w, i, h, next, run);
      }
    }
  }

  // Waiting is enough.

  lemma HastyKeepsInvariant(w: World, i: nat, h: nat, next: Transfer)
    requires Invariant(w) && Unanswered(w, i, h) && Replacement(w, i, next)
    ensures Invariant(Hasty(w, i, h, next))
  {
    var u, absent := Hasty(w, i, h, next), TransferAbsent(0, next);
    assert DepositOk(w, i);
    RefundResolutionMoves(w.deposits[i], w.holds[h], absent);
    SameRefundIsDepositChange(w, i, u.deposits[i]);
    KeepDepositChange(w, i, u.deposits[i], 0, w.books, u.holds);
  }

  lemma HastyKeepsRequests(w: World, i: nat, h: nat, next: Transfer)
    requires RequestsOk(w) && Unanswered(w, i, h) && Replacement(w, i, next) && !Exposed(w, i, h, next)
    ensures RequestsOk(Hasty(w, i, h, next))
  {
    forall owner ensures Leaves(w, Hasty(w, i, h, next), owner) {
    }
    RecordsKeepRequests(w, Hasty(w, i, h, next));
  }

  lemma PatiencePaysOnce(w: World, i: nat, h: nat, next: Transfer, run: seq<Action>)
    requires Invariant(w) && RequestsOk(w) && Unanswered(w, i, h) && Replacement(w, i, next)
    requires !Exposed(w, i, h, next)
    ensures !PaysTwice(Hasty(w, i, h, next), run, i)
  {
    var u := Hasty(w, i, h, next);
    HastyKeepsInvariant(w, i, h, next);
    HastyKeepsRequests(w, i, h, next);
    RunKeepsInvariant(u, run);
    var v := After(u, run);
    forall k, l | 0 <= k < l < |v.ledger| ensures v.ledger[k].owner != v.ledger[l].owner {
      OneBlockPerOwner(v, k, l);
    }
  }

  // Waiting is needed.

  const ANYONE := Account([], 0)

  function Pull(at: nat, gross: nat): Transfer {
    Transfer(PullDeposit, at, 0, gross, 0, ANYONE, ANYONE, None)
  }

  function Fresh(i: nat, at: nat, gross: nat): Deposit {
    Deposit(i, gross, gross, None, None, None, None, Pull(at, gross), FundingPending)
  }

  /** The world with one more deposit, accepted and funded now. */
  function Funded(v: World, gross: nat): World {
    var n, at := |v.deposits|, v.ledgerClock;
    var block := Block(Funding(n), Pull(at, gross));
    v.(deposits := v.deposits + [Fresh(n, at, gross)], ledger := v.ledger + [block], sent := v.sent + {block})
  }

  lemma Fund(r: Trace, w: World, v: World, gross: nat) returns (more: Trace)
    requires Leads(r, w, v) && 0 < gross <= U128_MAX && Escrow(v.ledger) >= 0
    requires forall t :: !Executed(v.ledger, Funding(|v.deposits|), t)
    ensures Leads(more, w, Funded(v, gross)) && Escrow(Funded(v, gross).ledger) == Escrow(v.ledger) + gross
  {
    var n, t := |v.deposits|, Pull(v.ledgerClock, gross);
    more := TakeAccept(r, w, v, gross, gross, t);
    var v1 := v.(deposits := v.deposits + [Fresh(n, v.ledgerClock, gross)]);
    more := TakeSend(more, w, v1, Funding(n));
    more := TakeLedger(more, w, v1.(sent := v.sent + {Block(Funding(n), t)}), Funding(n), t);
    EscrowAppend(v.ledger, Block(Funding(n), t));
  }

  /** Replaced too early, the refund is paid twice: the old request is executed late, and then the new one too. */
  lemma LateExecutionPaysTwice(w: World, i: nat, h: nat, next: Transfer) returns (run: seq<Action>)
    requires Invariant(w) && RequestsOk(w) && Exposed(w, i, h, next)
    ensures PaysTwice(Hasty(w, i, h, next), run, i)
  {
    var u := Hasty(w, i, h, next);
    var r, v := ReadyToPay(w, i, h, next);
    r, v := PayBoth(r, u, v, i, w.holds[h].transfer, next);
    LeadsAfter(r, u, v);
    run := r.actions;
  }

  /** Both transfers can be executed, and the escrow covers them together. */
  predicate BothPayable(v: World, i: nat, first: Transfer, next: Transfer) {
    && v.clock <= v.ledgerClock && v.clock <= U64_MAX && InFlight(v, Refund(i)) == Some(next)
    && first != next && !Executed(v.ledger, Refund(i), first) && !Executed(v.ledger, Refund(i), next)
    && Block(Refund(i), first) in v.sent && Acceptable(first, v.ledgerClock) && !TooOld(next, v.ledgerClock)
    && Escrow(v.ledger) >= first.amount + first.fee + next.amount + next.fee
  }

  /** What holds right after the replacement: the escrow still covers the refund, once. */
  lemma CoveredOnce(w: World, i: nat, h: nat, next: Transfer)
    requires Invariant(w) && Exposed(w, i, h, next)
    ensures
      var u, first := Hasty(w, i, h, next), w.holds[h].transfer;
      && u == w.(deposits := u.deposits, holds := u.holds) && |u.deposits| == |w.deposits|
      && InFlight(u, Refund(i)) == Some(next) && first.createdAt < next.createdAt
      && next.amount == first.amount && next.fee == first.fee && 0 < next.amount + next.fee <= U128_MAX
      && !Executed(w.ledger, Refund(i), next) && Escrow(w.ledger) >= next.amount + next.fee
      && forall t :: !Executed(w.ledger, Funding(|w.deposits|), t)
  {
    assert DepositOk(w, i);
    InFlightIsCovered(w, Refund(i), w.holds[h].transfer);
    ExecutedIsOwned(w, Refund(i), next);
    forall t ensures !Executed(w.ledger, Funding(|w.deposits|), t) {
      ExecutedIsOwned(w, Funding(|w.deposits|), t);
    }
  }

  /** The ledger's clock reaches the first transfer, and one more deposit is funded. */
  lemma ReadyToPay(w: World, i: nat, h: nat, next: Transfer) returns (r: Trace, v: World)
    requires Invariant(w) && RequestsOk(w) && Exposed(w, i, h, next)
    ensures Leads(r, Hasty(w, i, h, next), v) && BothPayable(v, i, w.holds[h].transfer, next)
  {
    var u, first := Hasty(w, i, h, next), w.holds[h].transfer;
    CoveredOnce(w, i, h, next);
    r := Start(u);
    r := TakeTime(r, u, u, first.createdAt);
    v := u.(ledgerClock := Later(u.ledgerClock, first.createdAt));
    r := Fund(r, u, v, next.amount + next.fee);
    v := Funded(v, next.amount + next.fee);
  }

  lemma PayBoth(r: Trace, w: World, v: World, i: nat, first: Transfer, next: Transfer) returns (more: Trace, u: World)
    requires Leads(r, w, v) && BothPayable(v, i, first, next)
    ensures Leads(more, w, u) && PaidTwice(u.ledger, i)
  {
    var owner := Refund(i);
    EscrowAppend(v.ledger, Block(owner, first));
    more := TakeLedger(r, w, v, owner, first);
    u := v.(ledger := v.ledger + [Block(owner, first)]);
    more := TakeTime(more, w, u, next.createdAt);
    u := u.(ledgerClock := Later(u.ledgerClock, next.createdAt));
    more := TakeSend(more, w, u, owner);
    u := u.(sent := u.sent + {Block(owner, next)});
    more := TakeLedger(more, w, u, owner, next);
    u := u.(ledger := u.ledger + [Block(owner, next)]);
    assert u.ledger[|v.ledger|].owner == owner && u.ledger[|v.ledger| + 1].owner == owner;
  }

  // Such worlds are reached: a deposit is funded, and the answer to its refund is lost.

  function Back(at: nat, memo: nat): Transfer {
    Transfer(RefundDeposit, at, memo, 1, 1, ANYONE, ANYONE, None)
  }

  function InState(at: nat, state: DepositState): Deposit {
    Fresh(0, at, 2).(state := state)
  }

  function Refunding(at: nat): Deposit {
    InState(at, RefundPending(BasePaused, 0, Attempt(0, Back(at, 0))))
  }

  lemma RefundSteps(at: nat)
    ensures Step(Fresh(0, at, 2), FundingSucceeded(0)) == Applied(InState(at, EscrowedUnquoted(0)), 0)
    ensures Step(InState(at, EscrowedUnquoted(0)), MarkRefundAvailable(BasePaused, None))
      == Applied(InState(at, RefundAvailable(BasePaused, 0)), 0)
    ensures Step(InState(at, RefundAvailable(BasePaused, 0)), StartRefund(BasePaused, Attempt(0, Back(at, 0)), None))
      == Applied(Refunding(at), 0)
    ensures Step(Refunding(at), RefundAmbiguous(0))
      == Applied(InState(at, RefundHold(BasePaused, 0, 0, Attempt(0, Back(at, 0)))), 0)
  { }

  /** A world with one deposit whose fees are not on the books yet. */
  predicate Single(v: World, d: Deposit) {
    v.deposits == [d] && v.finalized < |v.chain| && v.books == Books(0, 0, 0)
  }

  /** A true fact about the only deposit, which opens no hold. */
  lemma Learn(r: Trace, w: World, v: World, e: DepositEvent, d: Deposit, fee: nat) returns (more: Trace)
    requires Leads(r, w, v) && |v.deposits| == 1 && Single(v, v.deposits[0]) && DepositFactTrue(v, 0, e)
    requires Step(v.deposits[0], e) == Applied(d, fee) && fee <= U128_MAX && !e.FundingAmbiguous? && !e.RefundAmbiguous?
    ensures Leads(more, w, v.(deposits := [d], books := Books(fee, fee, 0)))
  {
    more := TakeFact(r, w, v, 0, e);
    assert v.deposits[0 := d] == [d];
  }

  /** The deposit, once funded, is refunded because Base is paused. */
  lemma Refunds(r: Trace, w: World, v: World, at: nat) returns (more: Trace)
    requires Leads(r, w, v) && Single(v, Fresh(0, at, 2)) && BlockIs(v.ledger, 0, Funding(0), Pull(at, 2))
    ensures Leads(more, w, v.(deposits := [Refunding(at)]))
  {
    RefundSteps(at);
    var d1, d2 := InState(at, EscrowedUnquoted(0)), InState(at, RefundAvailable(BasePaused, 0));
    more := Learn(r, w, v, FundingSucceeded(0), d1, 0);
    more := Learn(more, w, v.(deposits := [d1]), MarkRefundAvailable(BasePaused, None), d2, 0);
    more := Learn(more, w, v.(deposits := [d2]), StartRefund(BasePaused, Attempt(0, Back(at, 0)), None), Refunding(at), 0);
  }

  /** The world in which the refund was sent and its answer was lost. */
  function Lost(v: World, at: nat): World {
    v.(deposits := [InState(at, RefundHold(BasePaused, 0, 0, Attempt(0, Back(at, 0))))],
       holds := map[0 := Hold(0, DepositRefund(0), Back(at, 0), Open)],
       sent := v.sent + {Block(Refund(0), Back(at, 0))})
  }

  lemma AnswerIsLost(r: Trace, w: World, v: World, at: nat) returns (more: Trace)
    requires Leads(r, w, v) && Single(v, Refunding(at)) && v.holds == map[]
    ensures Leads(more, w, Lost(v, at))
  {
    RefundSteps(at);
    more := TakeSend(r, w, v, Refund(0));
    var v1 := v.(sent := v.sent + {Block(Refund(0), Back(at, 0))});
    more := TakeFact(more, w, v1, 0, RefundAmbiguous(0));
    assert NextDepositFact(v1, 0, RefundAmbiguous(0)).value.deposits == Lost(v, at).deposits;
  }

  lemma LostRefund(w: World) returns (r: Trace, v: World)
    requires Initial(w)
    ensures Leads(r, w, v) && Exposed(v, 0, 0, Back(w.ledgerClock + 1, 1))
  {
    var at := w.ledgerClock;
    r := Start(w);
    r := Fund(r, w, w, 2);
    v := Funded(w, 2);
    r := Refunds(r, w, v, at);
    v := v.(deposits := [Refunding(at)]);
    r := AnswerIsLost(r, w, v, at);
    v := Lost(v, at);
  }

  /** From every start of the bridge a run leads to a world in which haste would pay a refund twice. */
  lemma ExposureIsReachable(w: World) returns (run: seq<Action>, more: seq<Action>)
    requires Initial(w)
    ensures
      var v, next := After(w, run), Back(w.ledgerClock + 1, 1);
      Exposed(v, 0, 0, next) && PaysTwice(Hasty(v, 0, 0, next), more, 0)
  {
    var r, v := LostRefund(w);
    LeadsAfter(r, w, v);
    run := r.actions;
    Reachable(w, run);
    more := LateExecutionPaysTwice(v, 0, 0, Back(w.ledgerClock + 1, 1));
  }
}
