/** Payouts, ledger blocks and chain growth keep the invariant too. */
module BridgeMoves {
  import opened Prelude
  import opened Deposits
  import opened BaseChain
  import opened BridgeWorld
  import opened BridgeInvariant

  // Payouts.

  /** A new payout claims its debit from the reserve and nothing else. */
  lemma NewPayoutSums(payouts: seq<FeePayoutRecord>, ledger: seq<Block>, t: Transfer)
    requires !Executed(ledger, Payout(|payouts|), t)
    ensures
      var more := payouts + [FeePayoutRecord(t, PayoutPending)];
      && Sum(PayoutsPending(more)) == Sum(PayoutsPending(payouts)) + t.amount + t.fee
      && Sum(PayoutsUnrecorded(more, ledger)) == Sum(PayoutsUnrecorded(payouts, ledger))
  {
    var more := payouts + [FeePayoutRecord(t, PayoutPending)];
    assert PayoutsPending(more) == PayoutsPending(payouts) + [t.amount + t.fee];
    SumAppend(PayoutsPending(payouts), t.amount + t.fee);
    assert PayoutsUnrecorded(more, ledger) == PayoutsUnrecorded(payouts, ledger) + [0];
    SumAppend(PayoutsUnrecorded(payouts, ledger), 0);
  }

  /** A payout is admitted only out of the reserve that no earlier open payout has claimed. */
  lemma KeepRequestPayout(w: World, t: Transfer)
    requires Invariant(w) && NextRequestPayout(w, t).Some?
    ensures Invariant(NextRequestPayout(w, t).value)
  {
    var w' := NextRequestPayout(w, t).value;
    var n := |w.payouts|;
    FrameDeposits(w, w');
    FrameWithdrawals(w, w');
    ExecutedIsOwned(w, Payout(n), t);
    forall p | 0 <= p < |w'.payouts| ensures PayoutOk(w', p) {
      assert p < n ==> PayoutOk(w, p);
    }
    forall k | 0 <= k < |w'.ledger| ensures BlockOk(w', w'.ledger[k]) {
      assert BlockOk(w, w.ledger[k]);
    }
    NewPayoutSums(w.payouts, w.ledger, t);
    forall k | w'.finalized <= k < |w'.chain| ensures Backed(w', w'.chain[k]) {
      assert Backed(w, w.chain[k]);
    }
  }

  lemma PayoutFactKeepsStructure(w: World, p: nat, f: PayoutFact)
    requires Structure(w) && NextPayoutFact(w, p, f).Some?
    ensures Structure(NextPayoutFact(w, p, f).value)
  {
    var w' := NextPayoutFact(w, p, f).value;
    FrameDeposits(w, w');
    FrameWithdrawals(w, w');
    forall q | 0 <= q < |w'.payouts| ensures PayoutOk(w', q) {
      assert PayoutOk(w, q);
    }
    forall k | 0 <= k < |w'.ledger| ensures BlockOk(w', w'.ledger[k]) {
      assert BlockOk(w, w.ledger[k]);
    }
    PayoutSums(w, p, w'.payouts[p]);
  }

  /** Recording a payout's outcome spends from the reserve exactly what already left the escrow. */
  lemma KeepPayoutFact(w: World, p: nat, f: PayoutFact)
    requires Invariant(w) && NextPayoutFact(w, p, f).Some?
    ensures Invariant(NextPayoutFact(w, p, f).value)
  {
    var w' := NextPayoutFact(w, p, f).value;
    PayoutFactKeepsStructure(w, p, f);
    PayoutSums(w, p, w'.payouts[p]);
    forall k | w'.finalized <= k < |w'.chain| ensures Backed(w', w'.chain[k]) {
      assert Backed(w, w.chain[k]);
    }
  }

  lemma PayoutSums(w: World, p: nat, r: FeePayoutRecord)
    requires p < |w.payouts| && r.transfer == w.payouts[p].transfer && PayoutOpen(w.payouts[p])
    ensures Sum(PayoutsPending(w.payouts[p := r]))
         == Sum(PayoutsPending(w.payouts)) - (if PayoutOpen(r) then 0 else PayoutDebit(r))
    ensures Sum(PayoutsUnrecorded(w.payouts[p := r], w.ledger))
         == Sum(PayoutsUnrecorded(w.payouts, w.ledger))
            - (if Executed(w.ledger, Payout(p), r.transfer) && !PayoutOpen(r) then PayoutDebit(r) else 0)
  {
    var pending, unrecorded := PayoutsPending(w.payouts), PayoutsUnrecorded(w.payouts, w.ledger);
    var open := if PayoutOpen(r) then PayoutDebit(r) else 0;
    var left := if PayoutOpen(r) && Executed(w.ledger, Payout(p), r.transfer) then PayoutDebit(r) else 0;
    assert PayoutsPending(w.payouts[p := r]) == pending[p := open];
    assert PayoutsUnrecorded(w.payouts[p := r], w.ledger) == unrecorded[p := left];
    SumUpdate(pending, p, open);
    SumUpdate(unrecorded, p, left);
  }

  // Ledger blocks.

  /** A new block is visible only to the record whose transfer it carries. */
  lemma LedgerKeepsStructure(w: World, owner: Owner, t: Transfer)
    requires Invariant(w) && InFlight(w, owner) == Some(t) && NextLedger(w, owner, t).Some?
    ensures Structure(NextLedger(w, owner, t).value)
  {
    var w' := NextLedger(w, owner, t).value;
    forall i | 0 <= i < |w'.deposits| ensures DepositOk(w', i) {
      assert DepositOk(w, i);
    }
    forall i, l | 0 <= l < |w'.chain| && i in w'.chain[l].processed ensures MintOk(w', i, l) {
      assert MintOk(w, i, l);
    }
    forall id | id in w'.withdrawals ensures WithdrawalOk(w', id) {
      assert WithdrawalOk(w, id);
    }
    forall p | 0 <= p < |w'.payouts| ensures PayoutOk(w', p) {
      assert PayoutOk(w, p);
    }
    forall k | 0 <= k < |w'.ledger| ensures BlockOk(w', w'.ledger[k]) {
      assert k < |w.ledger| ==> BlockOk(w, w.ledger[k]);
    }
  }

  /** The block changes what is owed by exactly what it moves in or out of the escrow. */
  lemma LedgerMovesOwed(w: World, owner: Owner, t: Transfer, k: nat)
    requires Invariant(w) && InFlight(w, owner) == Some(t) && NextLedger(w, owner, t).Some? && w.finalized <= k < |w.chain|
    ensures Owed(NextLedger(w, owner, t).value, w.chain[k])
         == Owed(w, w.chain[k]) + BlockEffect(Block(owner, t))
  {
    var w' := NextLedger(w, owner, t).value;
    var b := w.chain[k];
    if owner.Funding? || owner.Refund? {
      DepositBlockMovesOwed(w, owner, t, k);
      SameBurns(w, w', b);
      assert PayoutsUnrecorded(w'.payouts, w'.ledger) == PayoutsUnrecorded(w.payouts, w.ledger);
    } else {
      SameDeposits(w, w', b);
      if owner.Release? {
        ReleaseMovesOwed(w, owner.withdrawal, t, k);
        assert PayoutsUnrecorded(w'.payouts, w'.ledger) == PayoutsUnrecorded(w.payouts, w.ledger);
      } else {
        var p := owner.payout;
        SameBurns(w, w', b);
        assert PayoutsUnrecorded(w'.payouts, w'.ledger)
            == PayoutsUnrecorded(w.payouts, w.ledger)[p := PayoutDebit(w.payouts[p])];
        SumUpdate(PayoutsUnrecorded(w.payouts, w.ledger), p, PayoutDebit(w.payouts[p]));
      }
    }
  }

  lemma DepositBlockMovesOwed(w: World, owner: Owner, t: Transfer, k: nat)
    requires Invariant(w) && InFlight(w, owner) == Some(t) && NextLedger(w, owner, t).Some? && w.finalized <= k < |w.chain|
    requires owner.Funding? || owner.Refund?
    ensures Sum(DepositsOwed(w.deposits, NextLedger(w, owner, t).value.ledger, w.chain[k].processed))
         == Sum(DepositsOwed(w.deposits, w.ledger, w.chain[k].processed)) + BlockEffect(Block(owner, t))
  {
    var ledger := NextLedger(w, owner, t).value.ledger;
    var i, processed := owner.deposit, w.chain[k].processed;
    forall j | 0 <= j < |w.deposits| && j != i
      ensures DepositOwed(w.deposits[j], ledger, processed) == DepositOwed(w.deposits[j], w.ledger, processed)
    {
      assert DepositOk(w, j);
    }
    OwnBlockMovesOwed(w, owner, t, k);
    OwedAfterDeposit(w, i, w.deposits[i], ledger, processed);
    assert w.deposits[i := w.deposits[i]] == w.deposits;
  }

  /** Funding opens the whole gross amount; a refund closes exactly what was still owed. */
  lemma OwnBlockMovesOwed(w: World, owner: Owner, t: Transfer, k: nat)
    requires Invariant(w) && InFlight(w, owner) == Some(t) && NextLedger(w, owner, t).Some? && w.finalized <= k < |w.chain|
    requires owner.Funding? || owner.Refund?
    ensures var d := w.deposits[owner.deposit];
      DepositOwed(d, NextLedger(w, owner, t).value.ledger, w.chain[k].processed)
      == DepositOwed(d, w.ledger, w.chain[k].processed) + BlockEffect(Block(owner, t))
  {
    assert DepositOk(w, owner.deposit);
    ProcessedIsSettled(w, owner.deposit, k);
  }

  lemma SameBurns(w: World, w': World, b: BaseState)
    requires Invariant(w) && w'.withdrawals == w.withdrawals
    requires forall id, t :: Executed(w'.ledger, Release(id), t) <==> Executed(w.ledger, Release(id), t)
    ensures BurnsOwed(b.burns, w'.withdrawals, w'.ledger) == BurnsOwed(b.burns, w.withdrawals, w.ledger)
  {
    assert forall id | id in w.withdrawals :: WithdrawalOk(w, id);
  }

  lemma SameDeposits(w: World, w': World, b: BaseState)
    requires w'.deposits == w.deposits
    requires forall i, t :: Executed(w'.ledger, Funding(i), t) <==> Executed(w.ledger, Funding(i), t)
    requires forall i, t :: Executed(w'.ledger, Refund(i), t) <==> Executed(w.ledger, Refund(i), t)
    ensures DepositsOwed(w'.deposits, w'.ledger, b.processed) == DepositsOwed(w.deposits, w.ledger, b.processed)
  {
  }

  lemma ReleaseMovesOwed(w: World, id: nat, t: Transfer, k: nat)
    requires Invariant(w) && InFlight(w, Release(id)) == Some(t) && NextLedger(w, Release(id), t).Some? && w.finalized <= k < |w.chain|
    ensures Sum(BurnsOwed(w.chain[k].burns, w.withdrawals, NextLedger(w, Release(id), t).value.ledger))
         == Sum(BurnsOwed(w.chain[k].burns, w.withdrawals, w.ledger))
            + BlockEffect(Block(Release(id), t))
  {
    var ledger := NextLedger(w, Release(id), t).value.ledger;
    assert forall j | j in w.withdrawals :: WithdrawalOk(w, j);
    assert Extends(w.chain[w.finalized], w.chain[k]);
    OwedAfterWithdrawal(w, id, w.withdrawals, ledger, w.chain[k].burns);
  }

  lemma LedgerKeepsBacked(w: World, owner: Owner, t: Transfer, k: nat)
    requires Invariant(w) && InFlight(w, owner) == Some(t) && NextLedger(w, owner, t).Some? && w.finalized <= k < |w.chain|
    ensures Backed(NextLedger(w, owner, t).value, w.chain[k])
  {
    assert Backed(w, w.chain[k]);
    EscrowAppend(w.ledger, Block(owner, t));
    LedgerMovesOwed(w, owner, t, k);
  }

  lemma KeepLedger(w: World, owner: Owner, t: Transfer)
    requires Invariant(w) && InFlight(w, owner) == Some(t) && NextLedger(w, owner, t).Some?
    ensures Invariant(NextLedger(w, owner, t).value)
  {
    LedgerKeepsStructure(w, owner, t);
    var w' := NextLedger(w, owner, t).value;
    forall k | w'.finalized <= k < |w'.chain| ensures Backed(w', w'.chain[k]) {
      LedgerKeepsBacked(w, owner, t, k);
    }
  }

  /** Requests and clocks are no part of what the records, the ledger and the chain have to agree on. */
  lemma KeepRequest(w: World, w': World)
    requires Invariant(w) && w' == w.(sent := w'.sent, clock := w'.clock, ledgerClock := w'.ledgerClock)
    ensures Invariant(w')
  {
    FrameDeposits(w, w');
    FrameWithdrawals(w, w');
    FramePayouts(w, w');
    forall k | 0 <= k < |w'.ledger| ensures BlockOk(w', w'.ledger[k]) {
      assert BlockOk(w, w.ledger[k]);
    }
    forall k | w'.finalized <= k < |w'.chain| ensures Backed(w', w'.chain[k]) {
      assert Backed(w, w.chain[k]);
    }
  }

  // The Base chain.

  /** Growing the chain with a backed state that mints only before the deadline keeps the invariant. */
  lemma KeepGrow(w: World, b: BaseState)
    requires Invariant(w) && Extends(w.chain[|w.chain| - 1], b)
    requires forall i | i in b.processed :: MintOk(Grow(w, b), i, |w.chain|)
    requires Backed(w, b)
    ensures Invariant(Grow(w, b))
  {
    var w' := Grow(w, b);
    GrowKeepsChain(w.chain, b);
    forall i | 0 <= i < |w'.deposits| ensures DepositOk(w', i) {
      assert DepositOk(w, i);
    }
    forall i, l | 0 <= l < |w'.chain| && i in w'.chain[l].processed ensures MintOk(w', i, l) {
      assert l < |w.chain| ==> MintOk(w, i, l);
    }
    forall id | id in w'.withdrawals ensures WithdrawalOk(w', id) {
      assert WithdrawalOk(w, id);
    }
    FramePayouts(w, w');
    forall k | 0 <= k < |w'.ledger| ensures BlockOk(w', w'.ledger[k]) {
      assert BlockOk(w, w.ledger[k]);
    }
    forall k | w'.finalized <= k < |w'.chain| ensures Backed(w', w'.chain[k]) {
      assert k < |w.chain| ==> Backed(w, w.chain[k]);
    }
  }

  /** An accepted mint turns what was owed for the deposit into supply, unit for unit. */
  lemma MintStaysBacked(w: World, i: nat, b: BaseState, last: BaseState)
    requires Invariant(w) && last == w.chain[|w.chain| - 1] && i < |w.deposits| && i !in last.processed
    requires Signed(w.deposits[i]) && !HasAttempt(w.deposits[i].state) && Executed(w.ledger, Funding(i), w.deposits[i].transfer)
    requires b.processed == last.processed + {i} && b.burns == last.burns
    requires b.supply == last.supply + w.deposits[i].gross - ChargedFee(w.deposits[i])
    ensures Backed(w, b)
  {
    assert Backed(w, last);
    forall j | 0 <= j < |w.deposits|
      ensures DepositOwed(w.deposits[j], w.ledger, b.processed)
           == if j == i then 0 else DepositOwed(w.deposits[j], w.ledger, last.processed)
    {
      assert DepositOk(w, j);
    }
    assert DepositOk(w, i);
    assert DepositsOwed(w.deposits, w.ledger, b.processed) == DepositsOwed(w.deposits, w.ledger, last.processed)[i := 0];
    SumUpdate(DepositsOwed(w.deposits, w.ledger, last.processed), i, 0);
  }

  lemma KeepMint(w: World, i: nat, t: nat)
    requires Invariant(w) && NextMint(w, i, t).Some?
    ensures Invariant(NextMint(w, i, t).value)
  {
    var b := NextMint(w, i, t).value.chain[|w.chain|];
    assert DepositOk(w, i);
    MintStaysTimely(w, i, t);
    MintStaysBacked(w, i, b, w.chain[|w.chain| - 1]);
    KeepGrow(w, b);
  }

  /** The contract mints only while the deposit is not being refunded and its deadline has not passed. */
  lemma MintStaysTimely(w: World, i: nat, t: nat)
    requires Invariant(w) && NextMint(w, i, t).Some?
    ensures forall j | j in NextMint(w, i, t).value.chain[|w.chain|].processed :: MintOk(NextMint(w, i, t).value, j, |w.chain|)
    ensures !HasAttempt(w.deposits[i].state) && Executed(w.ledger, Funding(i), w.deposits[i].transfer)
  {
    var w' := NextMint(w, i, t).value;
    var n := |w.chain|;
    assert DepositOk(w, i);
    assert forall k | 0 <= k < n :: Extends(w.chain[k], w.chain[n - 1]);
    forall j | j in w'.chain[n].processed ensures MintOk(w', j, n) {
      ProcessedIsSettled(w, j, n - 1);
    }
  }

  /** A committed withdrawal turns supply into what is owed for its burn, unit for unit. */
  lemma BurnStaysBacked(w: World, last: BaseState, b: BaseState, burn: Burn)
    requires Invariant(w) && last == w.chain[|w.chain| - 1]
    requires b.burns == last.burns + [burn] && b.processed == last.processed && b.supply == last.supply - burn.amount
    ensures Backed(w, b)
  {
    assert Backed(w, last);
    assert Extends(w.chain[w.finalized], last);
    assert forall id | id in w.withdrawals :: WithdrawalOk(w, id);
    assert |last.burns| !in w.withdrawals;
    assert BurnsOwed(b.burns, w.withdrawals, w.ledger) == BurnsOwed(last.burns, w.withdrawals, w.ledger) + [burn.amount];
    SumAppend(BurnsOwed(last.burns, w.withdrawals, w.ledger), burn.amount);
  }

  lemma KeepBurn(w: World, t: nat, balance: nat, amount: nat, fee: nat, to: Account)
    requires Invariant(w) && NextBurn(w, t, balance, amount, fee, to).Some?
    ensures Invariant(NextBurn(w, t, balance, amount, fee, to).value)
  {
    var last, b := w.chain[|w.chain| - 1], NextBurn(w, t, balance, amount, fee, to).value.chain[|w.chain|];
    BurnStaysBacked(w, last, b, Burn(amount, fee, last.serviceFee, to));
    ProcessedStaysTimely(w, b);
    KeepGrow(w, b);
  }

  lemma KeepAdminister(w: World, t: nat, mp: bool, wp: bool, epoch: nat, fee: nat)
    requires Invariant(w) && NextAdminister(w, t, mp, wp, epoch, fee).Some?
    ensures Invariant(NextAdminister(w, t, mp, wp, epoch, fee).value)
  {
    var b := NextAdminister(w, t, mp, wp, epoch, fee).value.chain[|w.chain|];
    assert Backed(w, w.chain[|w.chain| - 1]);
    ProcessedStaysTimely(w, b);
    KeepGrow(w, b);
  }

  lemma ProcessedStaysTimely(w: World, b: BaseState)
    requires Invariant(w) && b.processed == w.chain[|w.chain| - 1].processed
    ensures forall i | i in b.processed :: MintOk(Grow(w, b), i, |w.chain|)
  {
    forall i | i in b.processed ensures MintOk(Grow(w, b), i, |w.chain|) {
      assert MintOk(w, i, |w.chain| - 1);
    }
  }

  lemma KeepReorganize(w: World, height: nat)
    requires Invariant(w) && w.finalized < height <= |w.chain|
    ensures Invariant(w.(chain := w.chain[..height]))
  {
    var w' := w.(chain := w.chain[..height]);
    forall i | 0 <= i < |w'.deposits| ensures DepositOk(w', i) {
      assert DepositOk(w, i);
    }
    forall i, l | 0 <= l < |w'.chain| && i in w'.chain[l].processed ensures MintOk(w', i, l) {
      assert i in w.chain[l].processed && MintOk(w, i, l);
    }
    forall id | id in w'.withdrawals ensures WithdrawalOk(w', id) {
      assert WithdrawalOk(w, id);
    }
    FramePayouts(w, w');
    forall k | 0 <= k < |w'.ledger| ensures BlockOk(w', w'.ledger[k]) {
      assert BlockOk(w, w.ledger[k]);
    }
    forall k | w'.finalized <= k < |w'.chain| ensures Backed(w', w'.chain[k]) {
      assert Backed(w, w.chain[k]);
    }
  }

  lemma KeepFinalize(w: World, height: nat)
    requires Invariant(w) && w.finalized <= height < |w.chain|
    ensures Invariant(w.(finalized := height))
  {
    var w' := w.(finalized := height);
    assert Extends(w.chain[w.finalized], w.chain[height]);
    forall i | 0 <= i < |w'.deposits| ensures DepositOk(w', i) {
      assert DepositOk(w, i);
    }
    forall i, l | 0 <= l < |w'.chain| && i in w'.chain[l].processed ensures MintOk(w', i, l) {
      assert MintOk(w, i, l);
    }
    forall id | id in w'.withdrawals ensures WithdrawalOk(w', id) {
      assert WithdrawalOk(w, id);
    }
    FramePayouts(w, w');
    forall k | 0 <= k < |w'.ledger| ensures BlockOk(w', w'.ledger[k]) {
      assert BlockOk(w, w.ledger[k]);
    }
    forall k | w'.finalized <= k < |w'.chain| ensures Backed(w', w'.chain[k]) {
      assert Backed(w, w.chain[k]);
    }
  }
}
