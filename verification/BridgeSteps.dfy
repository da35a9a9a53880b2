/** Every action of the bridge keeps the invariant. */
module BridgeSteps {
  import opened Prelude
  import opened Deposits
  import opened Withdrawals
  import opened BaseChain
  import opened Accounting
  import opened BridgeWorld
  import opened BridgeInvariant

  // Deposits.

  /** A replacement for one deposit that the rest of the world cannot tell apart, except for a charged fee. */
  predicate DepositChange(w: World, i: nat, d: Deposit, fee: nat)
    requires i < |w.deposits| && w.finalized < |w.chain|
  {
    var old' := w.deposits[i];
    && d.id == old'.id && d.transfer == old'.transfer && ChargedFee(d) == ChargedFee(old') + fee
    && DepositOk(w.(deposits := w.deposits[i := d]), i)
    && (Signed(old') ==> Signed(d) && d.auth.value.authorization == old'.auth.value.authorization)
    && (forall l | 0 <= l < |w.chain| ::
          && DepositOwed(d, w.ledger, w.chain[l].processed) == DepositOwed(old', w.ledger, w.chain[l].processed) - fee
          && (i in w.chain[l].processed ==> !HasAttempt(d.state)))
    && (forall k | 0 <= k < |w.ledger| && w.ledger[k].owner == Refund(i) ::
          HasAttempt(d.state) && w.ledger[k].transfer == d.state.attempt.identity)
  }

  lemma DepositChangeKeepsStructure(w: World, i: nat, d: Deposit, fee: nat, books: Books, holds: map<nat, Hold>)
    requires Structure(w) && i < |w.deposits| && DepositChange(w, i, d, fee)
    requires Post(w.books, Confirm(DepositFee, fee)) == Ok(books)
    requires HoldsKept(w, holds)
    ensures Structure(w.(deposits := w.deposits[i := d], books := books, holds := holds))
  {
    var w' := w.(deposits := w.deposits[i := d], books := books, holds := holds);
    assert DepositOk(w.(deposits := w.deposits[i := d]), i);
    forall k | 0 <= k < |w'.deposits| ensures DepositOk(w', k) {
      assert DepositOk(w, k);
    }
    forall j, l | 0 <= l < |w'.chain| && j in w'.chain[l].processed ensures MintOk(w', j, l) {
      assert MintOk(w, j, l);
    }
    FrameWithdrawals(w, w');
    FramePayouts(w, w');
    forall k | 0 <= k < |w'.ledger| ensures BlockOk(w', w'.ledger[k]) {
      assert BlockOk(w, w.ledger[k]);
    }
    assert FeesCharged(w'.deposits) == FeesCharged(w.deposits)[i := ChargedFee(d)];
    SumUpdate(FeesCharged(w.deposits), i, ChargedFee(d));
  }

  predicate HoldsKept(w: World, holds: map<nat, Hold>) {
    && (forall h | h in holds :: holds[h].id == h)
    && (forall h | h in w.holds :: h in holds && holds[h].request == w.holds[h].request && holds[h].transfer == w.holds[h].transfer)
  }

  lemma KeepDepositChange(w: World, i: nat, d: Deposit, fee: nat, books: Books, holds: map<nat, Hold>)
    requires Invariant(w) && i < |w.deposits| && DepositChange(w, i, d, fee)
    requires Post(w.books, Confirm(DepositFee, fee)) == Ok(books)
    requires HoldsKept(w, holds)
    ensures Invariant(w.(deposits := w.deposits[i := d], books := books, holds := holds))
  {
    DepositChangeKeepsStructure(w, i, d, fee, books, holds);
    var w' := w.(deposits := w.deposits[i := d], books := books, holds := holds);
    forall k | w'.finalized <= k < |w'.chain| ensures Backed(w', w'.chain[k]) {
      assert Backed(w, w.chain[k]);
      OwedAfterDeposit(w, i, d, w.ledger, w.chain[k].processed);
    }
  }

  /** A truthful fact leaves the deposit consistent with the ledger and the finalized chain. */
  lemma FactKeepsDepositOk(w: World, i: nat, e: DepositEvent)
    requires Invariant(w) && i < |w.deposits| && DepositFactTrue(w, i, e) && Step(w.deposits[i], e).Applied?
    ensures DepositOk(w.(deposits := w.deposits[i := Step(w.deposits[i], e).next]), i)
  {
    assert DepositOk(w, i);
    StepKeepsWellFormed(w.deposits[i], e);
    if e.StartRefund? && Signed(w.deposits[i]) {
      UnprocessedPastDeadline(w, i, e.expiry.value.finalizedBlock);
    }
  }

  /** A fact moves what is owed by its fee alone, and never starts refunding what Base has minted. */
  lemma FactMovesOnlyFee(w: World, i: nat, e: DepositEvent, l: nat)
    requires Invariant(w) && i < |w.deposits| && DepositFactTrue(w, i, e) && Step(w.deposits[i], e).Applied?
    requires l < |w.chain|
    ensures var d, d' := w.deposits[i], Step(w.deposits[i], e).next; var processed := w.chain[l].processed;
      && DepositOwed(d', w.ledger, processed) == DepositOwed(d, w.ledger, processed) - Step(d, e).feeCredit
      && (i in processed ==> !HasAttempt(d'.state))
  {
    assert DepositOk(w, i);
    ProcessedIsSettled(w, i, l);
    if e.StartRefund? { ExecutedIsOwned(w, Refund(i), e.attempt.identity); }
    if e.StartRefund? && Signed(w.deposits[i]) {
      UnprocessedPastDeadline(w, i, e.expiry.value.finalizedBlock);
    }
  }

  /** Each truthful deposit fact changes its deposit in such a way. */
  lemma FactIsDepositChange(w: World, i: nat, e: DepositEvent)
    requires Invariant(w) && i < |w.deposits| && DepositFactTrue(w, i, e) && Step(w.deposits[i], e).Applied?
    ensures DepositChange(w, i, Step(w.deposits[i], e).next, Step(w.deposits[i], e).feeCredit)
  {
    FactKeepsDepositOk(w, i, e);
    assert DepositOk(w, i);
    StepKeepsWellFormed(w.deposits[i], e);
    forall l | 0 <= l < |w.chain| {
      FactMovesOnlyFee(w, i, e, l);
    }
    assert forall k | 0 <= k < |w.ledger| && w.ledger[k].owner == Refund(i) :: BlockOk(w, w.ledger[k]);
  }

  /** Once a finalized state past the deadline shows no mint, no state of the chain shows one. */
  lemma UnprocessedPastDeadline(w: World, i: nat, k: nat)
    requires Invariant(w) && i < |w.deposits| && w.deposits[i].auth.Some? && k <= w.finalized
    requires i !in w.chain[k].processed && w.chain[k].timestamp > w.deposits[i].auth.value.authorization.deadline
    ensures forall l | 0 <= l < |w.chain| :: i !in w.chain[l].processed
    ensures w.chain[w.finalized].timestamp > w.deposits[i].auth.value.authorization.deadline
  {
    assert Extends(w.chain[k], w.chain[w.finalized]);
    forall l | 0 <= l < |w.chain| ensures i !in w.chain[l].processed {
      ProcessedIsSettled(w, i, l);
      assert l <= k ==> Extends(w.chain[l], w.chain[k]);
    }
  }

  lemma KeepDepositFact(w: World, i: nat, e: DepositEvent, next: World)
    requires Invariant(w) && NextDepositFact(w, i, e) == Some(next)
    ensures Invariant(next)
  {
    FactIsDepositChange(w, i, e);
    KeepDepositChange(w, i, Step(w.deposits[i], e).next, Step(w.deposits[i], e).feeCredit, next.books, next.holds);
  }

  lemma KeepDispatch(w: World, i: nat)
    requires Invariant(w) && NextDispatch(w, i).Some?
    ensures Invariant(NextDispatch(w, i).value)
  {
    assert DepositOk(w, i);
    var d := NextDispatch(w, i).value.deposits[i];
    forall l | 0 <= l < |w.chain|
      ensures DepositOwed(d, w.ledger, w.chain[l].processed) == DepositOwed(w.deposits[i], w.ledger, w.chain[l].processed)
      ensures i in w.chain[l].processed ==> !HasAttempt(d.state)
    {
      ProcessedIsSettled(w, i, l);
    }
    assert forall k | 0 <= k < |w.ledger| && w.ledger[k].owner == Refund(i) :: BlockOk(w, w.ledger[k]);
    KeepDepositChange(w, i, d, 0, w.books, w.holds);
  }

  /** What resolving a hold can do to a deposit record. */
  predicate HoldMoves(d: Deposit, n: Deposit, h: Hold, r: Resolution) {
    && n == d.(state := n.state) && WellFormed(n)
    && (|| (d.state.FundingHold? && h.transfer == d.transfer
            && if r.TransferFound? then n.state.EscrowedUnquoted? else n.state.Cancelled?)
        || (d.state.RefundHold? && h.transfer == d.state.attempt.identity
            && if r.TransferFound? then n.state.Refunded? && n.state.attempt == d.state.attempt else n.state.RefundPending?))
  }

  lemma FundingResolutionMoves(d: Deposit, h: Hold, r: Resolution)
    requires WellFormed(d) && ResolveFundingHold(d, h, r).Resolved?
    ensures HoldMoves(d, ResolveFundingHold(d, h, r).record, h, r)
  {
  }

  lemma RefundResolutionMoves(d: Deposit, h: Hold, r: Resolution)
    requires WellFormed(d) && ResolveRefundHold(d, h, r).Resolved?
    ensures HoldMoves(d, ResolveRefundHold(d, h, r).record, h, r)
  {
  }

  /** A new phase with the same refund status changes nothing that is owed. */
  lemma SameRefundIsDepositChange(w: World, i: nat, d: Deposit)
    requires Invariant(w) && i < |w.deposits| && d == w.deposits[i].(state := d.state)
    requires DepositOk(w.(deposits := w.deposits[i := d]), i)
    requires HasAttempt(d.state) <==> HasAttempt(w.deposits[i].state)
    requires RefundDone(w.deposits[i], w.ledger) ==> RefundDone(d, w.ledger) && d.state.attempt == w.deposits[i].state.attempt
    ensures DepositChange(w, i, d, 0)
  {
    assert DepositOk(w, i);
    assert forall k | 0 <= k < |w.ledger| && w.ledger[k].owner == Refund(i) :: BlockOk(w, w.ledger[k]);
    if HasAttempt(d.state) { ExecutedIsOwned(w, Refund(i), d.state.attempt.identity); }
    assert forall l | 0 <= l < |w.chain| && i in w.chain[l].processed :: MintOk(w, i, l);
  }

  /** Resolving a hold truthfully is also such a change: nothing owed moves. */
  lemma HoldMoveIsDepositChange(w: World, i: nat, n: Deposit, h: Hold, r: Resolution)
    requires Invariant(w) && i < |w.deposits| && HoldMoves(w.deposits[i], n, h, r)
    requires ResolutionTrue(w, h, if w.deposits[i].state.FundingHold? then Funding(i) else Refund(i), r)
    ensures DepositChange(w, i, n, 0)
  {
    assert DepositOk(w, i);
    SameRefundIsDepositChange(w, i, n);
  }

  lemma KeepResolveDeposit(w: World, i: nat, h: nat, r: Resolution)
    requires Invariant(w) && NextResolveDeposit(w, i, h, r).Some?
    ensures Invariant(NextResolveDeposit(w, i, h, r).value)
  {
    assert DepositOk(w, i);
    var w' := NextResolveDeposit(w, i, h, r).value;
    if w.holds[h].request.DepositFunding? {
      FundingResolutionMoves(w.deposits[i], w.holds[h], r);
    } else {
      RefundResolutionMoves(w.deposits[i], w.holds[h], r);
    }
    KeepHoldMove(w, i, w'.deposits[i], h, w'.holds[h], r);
  }

  lemma KeepHoldMove(w: World, i: nat, n: Deposit, h: nat, hold: Hold, r: Resolution)
    requires Invariant(w) && i < |w.deposits| && h in w.holds && HoldMoves(w.deposits[i], n, w.holds[h], r)
    requires ResolutionTrue(w, w.holds[h], if w.deposits[i].state.FundingHold? then Funding(i) else Refund(i), r)
    requires hold.id == h && hold.request == w.holds[h].request && hold.transfer == w.holds[h].transfer
    ensures Invariant(w.(deposits := w.deposits[i := n], holds := w.holds[h := hold]))
  {
    HoldMoveIsDepositChange(w, i, n, w.holds[h], r);
    KeepDepositChange(w, i, n, 0, w.books, w.holds[h := hold]);
  }

  /** Accepting adds a deposit for which nothing is owed yet. */
  lemma KeepAccept(w: World, d: Deposit)
    requires Invariant(w) && d.id == |w.deposits| && WellFormed(d) && d.state.FundingPending?
    ensures Invariant(w.(deposits := w.deposits + [d]))
  {
    var w' := w.(deposits := w.deposits + [d]);
    forall k | 0 <= k < |w'.deposits| ensures DepositOk(w', k) {
      assert k < |w.deposits| ==> DepositOk(w, k);
    }
    forall j, l | 0 <= l < |w'.chain| && j in w'.chain[l].processed ensures MintOk(w', j, l) {
      assert MintOk(w, j, l);
    }
    FrameWithdrawals(w, w');
    FramePayouts(w, w');
    forall k | 0 <= k < |w'.ledger| ensures BlockOk(w', w'.ledger[k]) {
      assert BlockOk(w, w.ledger[k]);
    }
    ExecutedIsOwned(w, Funding(d.id), d.transfer);
    assert FeesCharged(w'.deposits) == FeesCharged(w.deposits) + [0];
    SumAppend(FeesCharged(w.deposits), 0);
    forall k | w'.finalized <= k < |w'.chain| ensures Backed(w', w'.chain[k]) {
      var processed := w.chain[k].processed;
      assert Backed(w, w.chain[k]);
      assert DepositsOwed(w'.deposits, w.ledger, processed) == DepositsOwed(w.deposits, w.ledger, processed) + [0];
      SumAppend(DepositsOwed(w.deposits, w.ledger, processed), 0);
    }
  }

  // Withdrawals.

  /** A new or replaced withdrawal record that accounts for the same burn, up to a credited fee. */
  predicate WithdrawalChange(w: World, id: nat, r: Withdrawal, fee: nat, holds: map<nat, Hold>)
    requires w.finalized < |w.chain|
  {
    && WithdrawalOk(w.(withdrawals := w.withdrawals[id := r], holds := holds), id)
    && (forall k | w.finalized <= k < |w.chain| ::
          && id < |w.chain[k].burns|
          && BurnOwed(id, w.chain[k].burns[id], w.withdrawals[id := r], w.ledger)
             == BurnOwed(id, w.chain[k].burns[id], w.withdrawals, w.ledger) - fee)
    && (forall k | 0 <= k < |w.ledger| && w.ledger[k].owner == Release(id) ::
          !r.state.Observed? && w.ledger[k].transfer == r.state.attempt.identity)
  }

  lemma WithdrawalChangeKeepsStructure(w: World, id: nat, r: Withdrawal, fee: nat, books: Books, holds: map<nat, Hold>)
    requires Structure(w) && WithdrawalChange(w, id, r, fee, holds)
    requires Post(w.books, Confirm(WithdrawalFee, fee)) == Ok(books)
    requires HoldsKept(w, holds)
    ensures Structure(w.(withdrawals := w.withdrawals[id := r], books := books, holds := holds))
  {
    var w' := w.(withdrawals := w.withdrawals[id := r], books := books, holds := holds);
    assert WithdrawalOk(w.(withdrawals := w.withdrawals[id := r], holds := holds), id);
    FrameDeposits(w, w');
    FramePayouts(w, w');
    forall k | k in w'.withdrawals ensures WithdrawalOk(w', k) {
      assert k != id ==> WithdrawalOk(w, k);
    }
    forall k | 0 <= k < |w'.ledger| ensures BlockOk(w', w'.ledger[k]) {
      assert BlockOk(w, w.ledger[k]);
    }
  }

  lemma KeepWithdrawalChange(w: World, id: nat, r: Withdrawal, fee: nat, books: Books, holds: map<nat, Hold>)
    requires Invariant(w) && WithdrawalChange(w, id, r, fee, holds)
    requires Post(w.books, Confirm(WithdrawalFee, fee)) == Ok(books)
    requires HoldsKept(w, holds)
    ensures Invariant(w.(withdrawals := w.withdrawals[id := r], books := books, holds := holds))
  {
    WithdrawalChangeKeepsStructure(w, id, r, fee, books, holds);
    var w' := w.(withdrawals := w.withdrawals[id := r], books := books, holds := holds);
    forall k | w'.finalized <= k < |w'.chain| ensures Backed(w', w'.chain[k]) {
      assert Backed(w, w.chain[k]);
      OwedAfterWithdrawal(w, id, w'.withdrawals, w.ledger, w.chain[k].burns);
    }
  }

  /** The burn a record was observed from is the same in every state built on the finalized one. */
  lemma BurnStays(w: World, id: nat, k: nat)
    requires Invariant(w) && id < |w.chain[w.finalized].burns| && w.finalized <= k < |w.chain|
    ensures id < |w.chain[k].burns| && w.chain[k].burns[id] == w.chain[w.finalized].burns[id]
  {
    assert Extends(w.chain[w.finalized], w.chain[k]);
  }

  lemma KeepObserve(w: World, id: nat)
    requires Invariant(w) && NextObserve(w, id).Some?
    ensures Invariant(NextObserve(w, id).value)
  {
    forall k | w.finalized <= k < |w.chain| {
      BurnStays(w, id, k);
    }
    assert forall k | 0 <= k < |w.ledger| && w.ledger[k].owner == Release(id) :: BlockOk(w, w.ledger[k]);
    KeepWithdrawalChange(w, id, NextObserve(w, id).value.withdrawals[id], 0, w.books, w.holds);
  }

  /** How a release record may move on: same burn, and the fee margin is credited exactly on payment. */
  predicate ReleaseMoves(r: Withdrawal, n: Withdrawal, fee: nat) {
    && n == r.(state := n.state) && WithdrawalWellFormed(n) && !n.state.Observed? && !r.state.Paid?
    && fee == (if n.state.Paid? then n.chargedServiceFee - n.state.settlement.ledgerFee else 0)
    && (!r.state.Observed? ==> n.state.settlement == r.state.settlement)
  }

  lemma ReleaseStepMoves(r: Withdrawal, e: WithdrawalEvent)
    requires WithdrawalWellFormed(r) && ReleaseStep(r, e).ReleaseApplied?
    ensures ReleaseMoves(r, ReleaseStep(r, e).next, ReleaseStep(r, e).feeCredit)
  {
  }

  lemma ReleaseResolutionMoves(r: Withdrawal, h: Hold, res: Resolution)
    requires WithdrawalWellFormed(r) && ResolveReleaseHold(r, h, res).Resolved?
    ensures ReleaseMoves(r, ResolveReleaseHold(r, h, res).record, ResolveReleaseHold(r, h, res).feeCredit)
  {
  }

  /** Such a move accounts for the same burn if the attempt changes only while nothing was released. */
  lemma ReleaseMoveIsChange(w: World, id: nat, n: Withdrawal, fee: nat, holds: map<nat, Hold>)
    requires Invariant(w) && id in w.withdrawals && ReleaseMoves(w.withdrawals[id], n, fee)
    requires ReleaseDone(w.withdrawals[id], w.ledger) ==> n.state.attempt == w.withdrawals[id].state.attempt
    requires n.state.Paid? ==> Executed(w.ledger, Release(id), n.state.attempt.identity)
    requires n.state.ReconciliationHold? ==>
        n.state.hold in holds && holds[n.state.hold].request == WithdrawalRelease(id)
        && holds[n.state.hold].transfer == n.state.attempt.identity
    ensures WithdrawalChange(w, id, n, fee, holds)
  {
    assert WithdrawalOk(w, id);
    assert forall k | 0 <= k < |w.ledger| && w.ledger[k].owner == Release(id) :: BlockOk(w, w.ledger[k]);
    ExecutedIsOwned(w, Release(id), n.state.attempt.identity);
    forall k | w.finalized <= k < |w.chain| {
      BurnStays(w, id, k);
    }
  }

  lemma KeepWithdrawalFact(w: World, id: nat, e: WithdrawalEvent)
    requires Invariant(w) && NextWithdrawalFact(w, id, e).Some?
    ensures Invariant(NextWithdrawalFact(w, id, e).value)
  {
    assert WithdrawalOk(w, id);
    var w' := NextWithdrawalFact(w, id, e).value;
    var fee := ReleaseStep(w.withdrawals[id], e).feeCredit;
    ReleaseStepMoves(w.withdrawals[id], e);
    ReleaseMoveIsChange(w, id, w'.withdrawals[id], fee, w'.holds);
    KeepWithdrawalChange(w, id, w'.withdrawals[id], fee, w'.books, w'.holds);
  }

  lemma KeepResolveWithdrawal(w: World, id: nat, h: nat, res: Resolution)
    requires Invariant(w) && NextResolveWithdrawal(w, id, h, res).Some?
    ensures Invariant(NextResolveWithdrawal(w, id, h, res).value)
  {
    assert WithdrawalOk(w, id);
    var w' := NextResolveWithdrawal(w, id, h, res).value;
    var fee := ResolveReleaseHold(w.withdrawals[id], w.holds[h], res).feeCredit;
    ReleaseResolutionMoves(w.withdrawals[id], w.holds[h], res);
    ReleaseMoveIsChange(w, id, w'.withdrawals[id], fee, w'.holds);
    KeepWithdrawalChange(w, id, w'.withdrawals[id], fee, w'.books, w'.holds);
  }
}
