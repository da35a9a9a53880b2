/** Requests on their way to the ledger: only the transfer a record has in flight can still be executed. */
module BridgeRequests {
  import opened Prelude
  import opened Kernel
  import opened Deposits
  import opened Withdrawals
  import opened BridgeWorld
  import opened BridgeInvariant

  /** A request that was executed, that is too old to be, or that carries the transfer still in flight. */
  predicate RequestOk(w: World, b: Block) {
    Executed(w.ledger, b.owner, b.transfer) || TooOld(b.transfer, w.ledgerClock) || InFlight(w, b.owner) == Some(b.transfer)
  }

  predicate RequestsOk(w: World) {
    && w.clock <= w.ledgerClock && w.clock <= U64_MAX
    && forall b | b in w.sent :: RequestOk(w, b)
  }

  /** The canister's saturating test is safe: what it takes for lapsed, the ledger finds too old. */
  lemma LapsedIsTooOld(t: Transfer, clock: nat, ledgerClock: nat)
    requires Lapsed(t, clock) && clock <= ledgerClock && clock <= U64_MAX
    ensures TooOld(t, ledgerClock) && !Acceptable(t, ledgerClock)
  { }

  /** A record may stop a transfer, or replace it, once no request for it can be executed any more. */
  predicate Leaves(w: World, w': World, owner: Owner) {
    InFlight(w, owner).Some? ==>
      var t := InFlight(w, owner).value;
      || InFlight(w', owner) == Some(t)
      || Executed(w.ledger, owner, t) || TooOld(t, w.ledgerClock) || Block(owner, t) !in w.sent
  }

  lemma RecordsKeepRequests(w: World, w': World)
    requires RequestsOk(w) && w'.sent == w.sent && w'.clock == w.clock && w'.ledgerClock == w.ledgerClock
    requires w'.ledger == w.ledger && forall owner :: Leaves(w, w', owner)
    ensures RequestsOk(w')
  {
    forall b | b in w'.sent ensures RequestOk(w', b) {
      assert RequestOk(w, b) && Leaves(w, w', b.owner);
    }
  }

  lemma DepositFactLeaves(w: World, i: nat, e: DepositEvent, next: World)
    requires Structure(w) && RequestsOk(w) && NextDepositFact(w, i, e) == Some(next)
    ensures forall owner :: Leaves(w, next, owner)
  {
    var d := w.deposits[i];
    assert DepositOk(w, i);
    if d.state.FundingPending? && e.FundingFailed? && Lapsed(d.transfer, w.clock) {
      LapsedIsTooOld(d.transfer, w.clock, w.ledgerClock);
    }
    forall owner ensures Leaves(w, next, owner) {
    }
  }

  lemma ResolveDepositLeaves(w: World, i: nat, h: nat, r: Resolution, next: World)
    requires Structure(w) && RequestsOk(w) && NextResolveDeposit(w, i, h, r) == Some(next)
    ensures forall owner :: Leaves(w, next, owner)
  {
    var t := w.holds[h].transfer;
    assert DepositOk(w, i);
    if r.TransferAbsent? {
      LapsedIsTooOld(t, w.clock, w.ledgerClock);
    }
    forall owner ensures Leaves(w, next, owner) {
    }
  }

  lemma WithdrawalFactLeaves(w: World, id: nat, e: WithdrawalEvent, next: World)
    requires Structure(w) && RequestsOk(w) && NextWithdrawalFact(w, id, e) == Some(next)
    ensures forall owner :: Leaves(w, next, owner)
  {
    assert WithdrawalOk(w, id);
    forall owner ensures Leaves(w, next, owner) {
    }
  }

  lemma ResolveWithdrawalLeaves(w: World, id: nat, h: nat, r: Resolution, next: World)
    requires Structure(w) && RequestsOk(w) && NextResolveWithdrawal(w, id, h, r) == Some(next)
    ensures forall owner :: Leaves(w, next, owner)
  {
    assert WithdrawalOk(w, id);
    if r.TransferAbsent? {
      LapsedIsTooOld(w.holds[h].transfer, w.clock, w.ledgerClock);
    }
    forall owner ensures Leaves(w, next, owner) {
    }
  }

  lemma PayoutFactLeaves(w: World, p: nat, f: PayoutFact, next: World)
    requires Structure(w) && RequestsOk(w) && NextPayoutFact(w, p, f) == Some(next)
    ensures forall owner :: Leaves(w, next, owner)
  {
    if f.NotPaid? && Lapsed(w.payouts[p].transfer, w.clock) {
      LapsedIsTooOld(w.payouts[p].transfer, w.clock, w.ledgerClock);
    }
  }

  /** New records and observations stop nothing that is in flight. */
  lemma NewRecordsLeave(w: World, a: Action)
    requires a.AcceptDeposit? || a.DispatchSignature? || a.ObserveWithdrawal? || a.RequestPayout?
    requires Next(w, a).Some?
    ensures forall owner :: Leaves(w, Next(w, a).value, owner)
  { }

  lemma FactsLeave(w: World, a: Action)
    requires Structure(w) && RequestsOk(w) && Next(w, a).Some?
    requires a.LearnDeposit? || a.ResolveDeposit? || a.LearnWithdrawal? || a.ResolveWithdrawal? || a.LearnPayout?
    ensures forall owner :: Leaves(w, Next(w, a).value, owner)
  {
    match a {
      case LearnDeposit(i, e) => DepositFactLeaves(w, i, e, Next(w, a).value);
      case ResolveDeposit(i, h, r) => ResolveDepositLeaves(w, i, h, r, Next(w, a).value);
      case LearnWithdrawal(id, e) => WithdrawalFactLeaves(w, id, e, Next(w, a).value);
      case ResolveWithdrawal(id, h, r) => ResolveWithdrawalLeaves(w, id, h, r, Next(w, a).value);
      case LearnPayout(p, f) => PayoutFactLeaves(w, p, f, Next(w, a).value);
    }
  }

  predicate ByRecords(a: Action) {
    || a.AcceptDeposit? || a.DispatchSignature? || a.ObserveWithdrawal? || a.RequestPayout?
    || a.LearnDeposit? || a.ResolveDeposit? || a.LearnWithdrawal? || a.ResolveWithdrawal? || a.LearnPayout?
  }

  /** The ledger, the clocks and the Base chain leave the records alone. */
  lemma OutsideKeepsRequests(w: World, a: Action)
    requires RequestsOk(w) && Next(w, a).Some? && !ByRecords(a)
    ensures RequestsOk(Next(w, a).value)
  {
    var next := Next(w, a).value;
    forall b | b in next.sent ensures RequestOk(next, b) {
      assert b in w.sent ==> RequestOk(w, b);
    }
  }

  lemma RecordsTouchNothingElse(w: World, a: Action)
    requires Next(w, a).Some? && ByRecords(a)
    ensures
      var next := Next(w, a).value;
      && next.sent == w.sent && next.clock == w.clock && next.ledgerClock == w.ledgerClock && next.ledger == w.ledger
  { }

  /** Every step keeps the requests in order. */
  lemma NextKeepsRequests(w: World, a: Action)
    requires Structure(w) && RequestsOk(w) && Next(w, a).Some?
    ensures RequestsOk(Next(w, a).value)
  {
    if !ByRecords(a) {
      OutsideKeepsRequests(w, a);
    } else {
      RecordsTouchNothingElse(w, a);
      if a.AcceptDeposit? || a.DispatchSignature? || a.ObserveWithdrawal? || a.RequestPayout? {
        NewRecordsLeave(w, a);
      } else {
        FactsLeave(w, a);
      }
      RecordsKeepRequests(w, Next(w, a).value);
    }
  }

  /** Whatever the ledger can execute is what some record has in flight. */
  lemma ExecutableIsInFlight(w: World, owner: Owner, t: Transfer)
    requires RequestsOk(w) && NextLedger(w, owner, t).Some?
    ensures InFlight(w, owner) == Some(t)
  {
    assert RequestOk(w, Block(owner, t));
  }
}
