/** The inductive invariant behind the bridge's safety, and the bookkeeping lemmas for its sums. */
module BridgeInvariant {
  import opened Prelude
  import opened Kernel
  import opened Deposits
  import opened Withdrawals
  import opened BaseChain
  import opened BridgeWorld

  predicate DepositOk(w: World, i: nat)
    requires i < |w.deposits| && w.finalized < |w.chain|
  {
    var d := w.deposits[i];
    && d.id == i && WellFormed(d)
    && (StateBlocks(d.state).0.Some? ==> Executed(w.ledger, Funding(i), d.transfer))
    && (d.state.Cancelled? ==> !Executed(w.ledger, Funding(i), d.transfer))
    && (d.state.Refunded? ==> RefundDone(d, w.ledger))
    && (d.state.Minted? ==> i in w.chain[w.finalized].processed)
    && (HasAttempt(d.state) && Signed(d) ==> w.chain[w.finalized].timestamp > d.auth.value.authorization.deadline)
  }

  /** A processed deposit was signed, is not being refunded, and was unprocessed only up to its deadline. */
  predicate MintOk(w: World, i: nat, l: nat)
    requires l < |w.chain|
  {
    && i < |w.deposits|
    && Signed(w.deposits[i])
    && !HasAttempt(w.deposits[i].state)
    && forall k | 0 <= k <= l ::
         i in w.chain[k].processed || w.chain[k].timestamp <= w.deposits[i].auth.value.authorization.deadline
  }

  predicate WithdrawalOk(w: World, id: nat)
    requires id in w.withdrawals && w.finalized < |w.chain|
  {
    var r := w.withdrawals[id];
    && r.id == id && WithdrawalWellFormed(r)
    && id < |w.chain[w.finalized].burns| && w.chain[w.finalized].burns[id].amount == r.amount
    && (r.state.Paid? ==> ReleaseDone(r, w.ledger))
    && (r.state.ReconciliationHold? ==>
        r.state.hold in w.holds && w.holds[r.state.hold].request == WithdrawalRelease(id)
        && w.holds[r.state.hold].transfer == r.state.attempt.identity)
  }

  predicate BlockOk(w: World, b: Block) {
    match b.owner
    case Funding(i) => i < |w.deposits| && b.transfer == w.deposits[i].transfer
    case Refund(i) => i < |w.deposits| && HasAttempt(w.deposits[i].state) && b.transfer == w.deposits[i].state.attempt.identity
    case Release(id) => id in w.withdrawals && !w.withdrawals[id].state.Observed? && b.transfer == w.withdrawals[id].state.attempt.identity
    case Payout(p) => p < |w.payouts| && b.transfer == w.payouts[p].transfer
  }

  predicate PayoutOk(w: World, p: nat)
    requires p < |w.payouts|
  {
    && w.payouts[p].transfer.amount > 0
    && (w.payouts[p].state.PayoutFailed? ==> !Executed(w.ledger, Payout(p), w.payouts[p].transfer))
    && (w.payouts[p].state.PayoutSucceeded? ==> Executed(w.ledger, Payout(p), w.payouts[p].transfer))
  }

  predicate LedgerOk(w: World) {
    && (forall k | 0 <= k < |w.ledger| :: BlockOk(w, w.ledger[k]))
    && (forall k, l | 0 <= k < l < |w.ledger| :: w.ledger[k] != w.ledger[l])
  }

  function FeesCharged(deposits: seq<Deposit>): seq<int> {
    seq(|deposits|, i requires 0 <= i < |deposits| => ChargedFee(deposits[i]))
  }

  predicate MoneyOk(w: World) {
    && Sum(PayoutsPending(w.payouts)) <= w.books.feeReserve
    && w.books.depositFees == Sum(FeesCharged(w.deposits))
    && w.books.feeReserve + w.spent == w.books.depositFees + w.books.withdrawalFees
    && w.books.depositFees <= U128_MAX && w.books.withdrawalFees <= U128_MAX && w.books.feeReserve <= U128_MAX
  }

  /** Backing holds seen from the finalized state and from every state built on it. */
  predicate Backing(w: World) {
    forall k | w.finalized <= k < |w.chain| :: Backed(w, w.chain[k])
  }

  predicate DepositsOk(w: World) {
    && w.finalized < |w.chain|
    && (forall i | 0 <= i < |w.deposits| :: DepositOk(w, i))
    && (forall i, l | 0 <= l < |w.chain| && i in w.chain[l].processed :: MintOk(w, i, l))
  }

  predicate WithdrawalsOk(w: World) {
    && w.finalized < |w.chain|
    && (forall id | id in w.withdrawals :: WithdrawalOk(w, id))
  }

  predicate HoldsOk(w: World) {
    forall h | h in w.holds :: w.holds[h].id == h
  }

  predicate PayoutsOk(w: World) {
    forall p | 0 <= p < |w.payouts| :: PayoutOk(w, p)
  }

  predicate Structure(w: World) {
    && ChainOk(w.chain) && w.finalized < |w.chain|
    && DepositsOk(w) && WithdrawalsOk(w) && PayoutsOk(w) && LedgerOk(w) && MoneyOk(w) && HoldsOk(w)
  }

  predicate Invariant(w: World) {
    Structure(w) && Backing(w)
  }

  lemma InitialHolds(w: World)
    requires Initial(w)
    ensures Invariant(w)
  {
  }

  lemma ProcessedIsSettled(w: World, i: nat, l: nat)
    requires Structure(w) && l < |w.chain|
    ensures i in w.chain[l].processed ==> MintOk(w, i, l)
  {
  }

  lemma ExecutedIsOwned(w: World, owner: Owner, t: Transfer)
    requires Structure(w)
    ensures Executed(w.ledger, owner, t) ==> BlockOk(w, Block(owner, t))
  {
  }

  // Parts of the invariant that a change elsewhere cannot touch.

  lemma FrameDeposits(w: World, w': World)
    requires DepositsOk(w)
    requires w'.deposits == w.deposits && w'.ledger == w.ledger && w'.chain == w.chain && w'.finalized == w.finalized
    ensures DepositsOk(w')
  {
    forall i | 0 <= i < |w'.deposits| ensures DepositOk(w', i) {
      assert DepositOk(w, i);
    }
    forall i, l | 0 <= l < |w'.chain| && i in w'.chain[l].processed ensures MintOk(w', i, l) {
      assert MintOk(w, i, l);
    }
  }

  lemma FrameWithdrawals(w: World, w': World)
    requires WithdrawalsOk(w)
    requires w'.withdrawals == w.withdrawals && w'.ledger == w.ledger && w'.chain == w.chain && w'.finalized == w.finalized
    requires forall h | h in w.holds ::
      h in w'.holds && w'.holds[h].request == w.holds[h].request && w'.holds[h].transfer == w.holds[h].transfer
    ensures WithdrawalsOk(w')
  {
    forall id | id in w'.withdrawals ensures WithdrawalOk(w', id) {
      assert WithdrawalOk(w, id);
    }
  }

  lemma FramePayouts(w: World, w': World)
    requires PayoutsOk(w) && w'.payouts == w.payouts && w'.ledger == w.ledger
    ensures PayoutsOk(w')
  {
    forall p | 0 <= p < |w'.payouts| ensures PayoutOk(w', p) {
      assert PayoutOk(w, p);
    }
  }

  // What single changes do to the sums.

  /** Changing one deposit moves what is owed by that deposit's change. */
  lemma OwedAfterDeposit(w: World, i: nat, d: Deposit, ledger: seq<Block>, processed: set<nat>)
    requires i < |w.deposits|
    requires forall k | 0 <= k < |w.deposits| && k != i ::
      DepositOwed(w.deposits[k], ledger, processed) == DepositOwed(w.deposits[k], w.ledger, processed)
    ensures Sum(DepositsOwed(w.deposits[i := d], ledger, processed))
         == Sum(DepositsOwed(w.deposits, w.ledger, processed))
            - DepositOwed(w.deposits[i], w.ledger, processed) + DepositOwed(d, ledger, processed)
  {
    var before := DepositsOwed(w.deposits, w.ledger, processed);
    assert DepositsOwed(w.deposits[i := d], ledger, processed) == before[i := DepositOwed(d, ledger, processed)];
    SumUpdate(before, i, DepositOwed(d, ledger, processed));
  }

  /** Changing one withdrawal record moves what is owed by that burn's change. */
  lemma OwedAfterWithdrawal(w: World, id: nat, withdrawals: map<nat, Withdrawal>, ledger: seq<Block>, burns: seq<Burn>)
    requires id < |burns|
    requires forall k | 0 <= k < |burns| && k != id ::
      BurnOwed(k, burns[k], withdrawals, ledger) == BurnOwed(k, burns[k], w.withdrawals, w.ledger)
    ensures Sum(BurnsOwed(burns, withdrawals, ledger))
         == Sum(BurnsOwed(burns, w.withdrawals, w.ledger))
            - BurnOwed(id, burns[id], w.withdrawals, w.ledger) + BurnOwed(id, burns[id], withdrawals, ledger)
  {
    var before := BurnsOwed(burns, w.withdrawals, w.ledger);
    assert BurnsOwed(burns, withdrawals, ledger) == before[id := BurnOwed(id, burns[id], withdrawals, ledger)];
    SumUpdate(before, id, BurnOwed(id, burns[id], withdrawals, ledger));
  }

  lemma EscrowAppend(ledger: seq<Block>, b: Block)
    ensures Escrow(ledger + [b]) == Escrow(ledger) + BlockEffect(b)
  {
    assert (ledger + [b])[..|ledger|] == ledger;
  }
}
