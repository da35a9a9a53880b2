/** What the bridge promises, for every run of every interleaving. */
module BridgeSafety {
  import opened Prelude
  import opened Deposits
  import opened BaseChain
  import opened BridgeWorld
  import opened BridgeInvariant
  import opened BridgeSteps
  import opened BridgeMoves
  import opened BridgeRequests

  lemma RecordsKeepInvariant(w: World, a: Action)
    requires Invariant(w) && Next(w, a).Some? && ByRecords(a)
    ensures Invariant(Next(w, a).value)
  {
    match a {
      case AcceptDeposit(gross, fee, t) =>
        AcceptWellFormed(|w.deposits|, gross, fee, t);
        KeepAccept(w, Accept(|w.deposits|, gross, fee, t).value);
      case LearnDeposit(i, e) => KeepDepositFact(w, i, e, NextDepositFact(w, i, e).value);
      case DispatchSignature(i) => KeepDispatch(w, i);
      case ResolveDeposit(i, h, r) => KeepResolveDeposit(w, i, h, r);
      case ObserveWithdrawal(id) => KeepObserve(w, id);
      case LearnWithdrawal(id, e) => KeepWithdrawalFact(w, id, e);
      case ResolveWithdrawal(id, h, r) => KeepResolveWithdrawal(w, id, h, r);
      case RequestPayout(t) => KeepRequestPayout(w, t);
      case LearnPayout(p, f) => KeepPayoutFact(w, p, f);
      case _ =>
    }
  }

  /** What the ledger executes is in flight because requests are in order. */
  lemma OutsideKeepsInvariant(w: World, a: Action)
    requires Invariant(w) && RequestsOk(w) && Next(w, a).Some? && !ByRecords(a)
    ensures Invariant(Next(w, a).value)
  {
    match a {
      case SendTransfer(owner) => KeepRequest(w, Next(w, a).value);
      case LedgerExecutes(owner, t) =>
        ExecutableIsInFlight(w, owner, t);
        KeepLedger(w, owner, t);
      case LedgerRefuses(owner, t) => KeepRequest(w, Next(w, a).value);
      case Tick(clock, ledgerClock) => KeepRequest(w, Next(w, a).value);
      case BaseMints(i, t) => KeepMint(w, i, t);
      case BaseBurns(t, balance, amount, fee, to) => KeepBurn(w, t, balance, amount, fee, to);
      case BaseAdministers(t, mp, wp, epoch, fee) => KeepAdminister(w, t, mp, wp, epoch, fee);
      case BaseReorganizes(height) => KeepReorganize(w, height);
      case BaseFinalizes(height) => KeepFinalize(w, height);
      case _ =>
    }
  }

  /** Every step keeps the invariant. */
  lemma NextKeepsInvariant(w: World, a: Action)
    requires Invariant(w) && RequestsOk(w) && Next(w, a).Some?
    ensures Invariant(Next(w, a).value) && RequestsOk(Next(w, a).value)
  {
    NextKeepsRequests(w, a);
    if ByRecords(a) {
      RecordsKeepInvariant(w, a);
    } else {
      OutsideKeepsInvariant(w, a);
    }
  }

  lemma Reachable(w: World, actions: seq<Action>)
    requires Initial(w)
    ensures Invariant(After(w, actions)) && RequestsOk(After(w, actions))
  {
    InitialHolds(w);
    RunKeepsInvariant(w, actions);
  }

  lemma {:induction false} RunKeepsInvariant(w: World, actions: seq<Action>)
    requires Invariant(w) && RequestsOk(w)
    ensures Invariant(After(w, actions)) && RequestsOk(After(w, actions))
  {
    if actions != [] {
      RunKeepsInvariant(w, actions[..|actions| - 1]);
      var before := After(w, actions[..|actions| - 1]);
      if Next(before, actions[|actions| - 1]).Some? {
        NextKeepsInvariant(before, actions[|actions| - 1]);
      }
    }
  }

  /**
   1:1 backing. After any run, seen from the finalized Base state and from every unfinalized state built on it,
   the escrow equals supply, fee reserve, open deposits and unpaid withdrawals, net of payouts not yet recorded.
   */
  lemma BackingTheorem(w: World, actions: seq<Action>, k: nat)
    requires Initial(w) && After(w, actions).finalized <= k < |After(w, actions).chain|
    ensures var v := After(w, actions);
      Escrow(v.ledger) == v.chain[k].supply + v.books.feeReserve - Sum(PayoutsUnrecorded(v.payouts, v.ledger))
        + Sum(DepositsOwed(v.deposits, v.ledger, v.chain[k].processed))
        + Sum(BurnsOwed(v.chain[k].burns, v.withdrawals, v.ledger))
  {
    Reachable(w, actions);
    assert Backed(After(w, actions), After(w, actions).chain[k]);
  }

  /** No deposit is ever both refunded on the ledger and minted in any state of the Base chain. */
  lemma NeverMintedAndRefunded(w: World, actions: seq<Action>, i: nat, l: nat, t: Transfer)
    requires Initial(w) && l < |After(w, actions).chain|
    requires Executed(After(w, actions).ledger, Refund(i), t)
    ensures i !in After(w, actions).chain[l].processed
  {
    Reachable(w, actions);
    var v := After(w, actions);
    assert BlockOk(v, Block(Refund(i), t));
    ProcessedIsSettled(v, i, l);
  }

  /** Every deposit is pulled and refunded, every withdrawal released and every payout paid at most once, retries included. */
  lemma ExecutedAtMostOnce(w: World, actions: seq<Action>, k: nat, l: nat)
    requires Initial(w) && k < l < |After(w, actions).ledger|
    ensures After(w, actions).ledger[k].owner != After(w, actions).ledger[l].owner
  {
    Reachable(w, actions);
    OneBlockPerOwner(After(w, actions), k, l);
  }

  lemma OneBlockPerOwner(w: World, k: nat, l: nat)
    requires Structure(w) && k < l < |w.ledger|
    ensures w.ledger[k].owner != w.ledger[l].owner
  {
    assert BlockOk(w, w.ledger[k]) && BlockOk(w, w.ledger[l]);
  }

  lemma OwedPartsNonNegative(w: World, b: BaseState)
    requires Invariant(w)
    ensures forall i | 0 <= i < |w.deposits| :: DepositsOwed(w.deposits, w.ledger, b.processed)[i] >= 0
    ensures forall i | 0 <= i < |b.burns| :: BurnsOwed(b.burns, w.withdrawals, w.ledger)[i] >= 0
    ensures Sum(PayoutsUnrecorded(w.payouts, w.ledger)) <= Sum(PayoutsPending(w.payouts))
  {
    forall i | 0 <= i < |w.deposits| ensures DepositsOwed(w.deposits, w.ledger, b.processed)[i] >= 0 {
      assert DepositOk(w, i);
    }
    forall i | 0 <= i < |b.burns| ensures BurnsOwed(b.burns, w.withdrawals, w.ledger)[i] >= 0 {
      assert i in w.withdrawals ==> WithdrawalOk(w, i);
    }
    SumDominated(PayoutsUnrecorded(w.payouts, w.ledger), PayoutsPending(w.payouts));
  }

  lemma {:induction false} SumDominated(a: seq<int>, b: seq<int>)
    requires |a| == |b| && forall i | 0 <= i < |a| :: a[i] <= b[i]
    ensures Sum(a) <= Sum(b)
  {
    if a != [] {
      SumDominated(a[..|a| - 1], b[..|b| - 1]);
    }
  }

  /**
   The escrow always covers every request the ledger may still execute, so the ledger never has to refuse
   one for lack of funds.
   */
  lemma AlwaysSolvent(w: World, actions: seq<Action>, owner: Owner, t: Transfer)
    requires Initial(w) && Block(owner, t) in After(w, actions).sent
    requires !Executed(After(w, actions).ledger, owner, t) && Acceptable(t, After(w, actions).ledgerClock)
    ensures Next(After(w, actions), LedgerExecutes(owner, t)).Some?
  {
    Reachable(w, actions);
    assert RequestOk(After(w, actions), Block(owner, t));
    InFlightIsCovered(After(w, actions), owner, t);
  }

  lemma InFlightIsCovered(w: World, owner: Owner, t: Transfer)
    requires Invariant(w) && InFlight(w, owner) == Some(t) && !Executed(w.ledger, owner, t)
    ensures Escrow(w.ledger) + BlockEffect(Block(owner, t)) >= 0
  {
    var b := w.chain[w.finalized];
    assert Backed(w, b);
    OwedPartsNonNegative(w, b);
    var deposits, burns := DepositsOwed(w.deposits, w.ledger, b.processed), BurnsOwed(b.burns, w.withdrawals, w.ledger);
    SumNonNegative(deposits);
    SumNonNegative(burns);
    match owner {
      case Funding(i) =>
      case Refund(i) =>
        RefundCovered(w, i);
        SumBounds(deposits, i);
      case Release(id) =>
        assert WithdrawalOk(w, id);
        SumBounds(burns, id);
      case Payout(p) => PayoutCovered(w, p);
    }
  }

  /** A refund in flight takes exactly what is still owed for its deposit. */
  lemma RefundCovered(w: World, i: nat)
    requires Invariant(w) && InFlight(w, Refund(i)).Some? && !Executed(w.ledger, Refund(i), InFlight(w, Refund(i)).value)
    ensures DepositOwed(w.deposits[i], w.ledger, w.chain[w.finalized].processed)
         == InFlight(w, Refund(i)).value.amount + InFlight(w, Refund(i)).value.fee
  {
    assert DepositOk(w, i);
    ProcessedIsSettled(w, i, w.finalized);
  }

  /** An open payout that has not left the escrow is covered by the reserve net of those that have. */
  lemma PayoutCovered(w: World, p: nat)
    requires Invariant(w) && p < |w.payouts| && PayoutOpen(w.payouts[p])
    requires !Executed(w.ledger, Payout(p), w.payouts[p].transfer)
    ensures PayoutDebit(w.payouts[p]) <= w.books.feeReserve - Sum(PayoutsUnrecorded(w.payouts, w.ledger))
  {
    var unrecorded, pending := PayoutsUnrecorded(w.payouts, w.ledger), PayoutsPending(w.payouts);
    SumDominated(unrecorded[p := PayoutDebit(w.payouts[p])], pending);
    SumUpdate(unrecorded, p, PayoutDebit(w.payouts[p]));
  }

  /** A payout found on the ledger can always be recorded: spending from the reserve cannot underflow. */
  lemma PayoutAlwaysRecordable(w: World, actions: seq<Action>, p: nat, block: nat)
    requires Initial(w) && p < |After(w, actions).payouts| && PayoutOpen(After(w, actions).payouts[p])
    requires BlockIs(After(w, actions).ledger, block, Payout(p), After(w, actions).payouts[p].transfer)
    ensures Next(After(w, actions), LearnPayout(p, PaidOut(block))).Some?
  {
    Reachable(w, actions);
    var v := After(w, actions);
    SumBounds(PayoutsPending(v.payouts), p);
  }

  /** No run creates or loses a fee, and each deposit has been charged its own fee exactly once, when it was signed. */
  lemma FeesConserved(w: World, actions: seq<Action>)
    requires Initial(w)
    ensures var v := After(w, actions);
      && v.books.feeReserve + v.spent == v.books.depositFees + v.books.withdrawalFees
      && v.books.depositFees == Sum(FeesCharged(v.deposits))
  {
    Reachable(w, actions);
  }
}
