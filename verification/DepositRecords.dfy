/**
 The deposit record as the canister updates it in place. Its update code consults two independent
 tables, the compact phase kernel and the rich (phase, fact) match, and refuses when they disagree.
 */
module DepositRecords {
  import opened Prelude
  import opened Kernel
  import opened Deposits

  datatype ApplyResult = AppliedWith(effects: DepositEffects) | Idempotent | Failed(error: CoreError)

  /** What the escrow owes for a deposit as far as the record knows. */
  function Claim(d: Deposit): int {
    if StateBlocks(d.state).0.Some? && !d.state.Minted? && !d.state.Refunded? then d.gross - ChargedFee(d) else 0
  }

  function ReservedAmount(d: Deposit): Option<nat> {
    if !ReservationActive(StateCode(d.state)) then Some(0)
    else if d.quote.None? then None else Some(d.quote.value.netAmount)
  }

  /** The amounts the kernel table reports for a fact, from the quote and signature in force after it. */
  function KernelEffects(d: Deposit, e: DepositEvent, reserved: nat): DepositEffects {
    var quote := if e.CommitAuthorization? then Some(e.quote) else d.quote;
    var issued := Signed(d) || e.AuthorizationSigned?;
    var serviceFee := if issued && quote.Some? then quote.value.serviceFee else 0;
    var netAmount :=
      if (e.StartRefund? || e.RefundSucceeded?) && !issued then d.gross
      else if quote.Some? then quote.value.netAmount else 0;
    DepositNumericEffects(StateCode(d.state), EventCode(e), d.gross, netAmount, serviceFee, reserved)
  }

  /** The cross-check between the two tables that guards the in-place update. */
  predicate TablesAgree(d: Deposit, next: Deposit, feeCredit: nat, nextCode: nat, effects: DepositEffects) {
    var active := ReservationActive(StateCode(next.state));
    var net := if next.quote.Some? then next.quote.value.netAmount else 0;
    && StateCode(next.state) == nextCode
    && (if active then net else 0) == effects.reservationAfter
    && (if !ReservationActive(StateCode(d.state)) && active then net else 0) == effects.reservationAdd
    && feeCredit == effects.feeCredit
  }

  /** On a well-formed record the kernel table accepts exactly the facts the rich match accepts, and agrees with it. */
  lemma KernelRefinesMatch(d: Deposit, e: DepositEvent)
    requires WellFormed(d) && GuardAccepts(d, e) && !IsReplay(d, e) && ReservedAmount(d).Some?
    requires DepositBlocks(StateBlocks(d.state).0, StateBlocks(d.state).1, LedgerFact(e).0, LedgerFact(e).1).Some?
    ensures DepositTransition(StateCode(d.state), EventCode(e)).Some? <==> NextPhase(d, e).Applied?
    ensures NextPhase(d, e).Applied? ==>
      && StateBlocks(NextPhase(d, e).next.state)
         == DepositBlocks(StateBlocks(d.state).0, StateBlocks(d.state).1, LedgerFact(e).0, LedgerFact(e).1).value
      && TablesAgree(d, NextPhase(d, e).next, NextPhase(d, e).feeCredit,
                     DepositTransition(StateCode(d.state), EventCode(e)).value,
                     KernelEffects(d, e, ReservedAmount(d).value))
  {
  }

  /** The reported amounts move the record's claim, and every unit debited from it goes somewhere. */
  lemma EffectsConserve(d: Deposit, e: DepositEvent)
    requires WellFormed(d) && Step(d, e).Applied?
    ensures ReservedAmount(d).Some?
    ensures var f := KernelEffects(d, e, ReservedAmount(d).value);
      && f.liabilityDebit == f.feeCredit + f.escrowDebit + f.supplyIncrease
      && Claim(Step(d, e).next) == Claim(d) - f.liabilityDebit + (if e.FundingSucceeded? then d.gross else 0)
      && f.reservationAfter == ReservedAmount(d).value + f.reservationAdd - f.reservationRelease
      && ReservedAmount(Step(d, e).next) == Some(f.reservationAfter)
  {
  }

  class DepositRecord {
    const id: nat
    const gross: nat
    const maxServiceFee: nat
    const transfer: Transfer
    var quote: Option<Quote>
    var auth: Option<AuthorizationRecord>
    var mintEvidence: Option<MintEvidence>
    var expiryEvidence: Option<ExpiryEvidence>
    var state: DepositState

    constructor (d: Deposit)
      ensures View() == d
    {
      id, gross, maxServiceFee, transfer := d.id, d.gross, d.maxServiceFee, d.transfer;
      quote, auth, mintEvidence, expiryEvidence := d.quote, d.auth, d.mintEvidence, d.expiryEvidence;
      state := d.state;
    }

    function View(): Deposit
      reads this
    {
      Deposit(id, gross, maxServiceFee, quote, auth, mintEvidence, expiryEvidence, transfer, state)
    }

    /** Refused or replayed facts change nothing; on a well-formed record the update is exactly `Step`. */
    method Apply(e: DepositEvent) returns (r: ApplyResult)
      modifies this
      ensures !r.AppliedWith? ==> View() == old(View())
      ensures WellFormed(old(View())) ==>
        match Step(old(View()), e)
        case Applied(next, fee) => r.AppliedWith? && View() == next && r.effects.feeCredit == fee
        case Replayed => r.Idempotent?
        case Rejected(error) => r == Failed(error)
      ensures WellFormed(old(View())) && r.AppliedWith? ==>
        && r.effects.liabilityDebit == r.effects.feeCredit + r.effects.escrowDebit + r.effects.supplyIncrease
        && Claim(View()) == old(Claim(View())) - r.effects.liabilityDebit + (if e.FundingSucceeded? then gross else 0)
    {
      var blocks := StateBlocks(state);
      var expectedBlocks := DepositBlocks(blocks.0, blocks.1, LedgerFact(e).0, LedgerFact(e).1);
      if expectedBlocks.None? { return Failed(LedgerBlockConflict); }
      var reserved := ReservedAmount(View());
      if reserved.None? { return Failed(InvalidTransition); }
      if IsReplay(View(), e) { return Idempotent; }
      if !GuardAccepts(View(), e) { return Failed(GuardError(View(), e)); }
      if WellFormed(View()) { KernelRefinesMatch(View(), e); }
      var nextCode := DepositTransition(StateCode(state), EventCode(e));
      if nextCode.None? { return Failed(InvalidTransition); }
      var effects := KernelEffects(View(), e, reserved.value);
      var outcome := NextPhase(View(), e);
      if outcome.Rejected? { return Failed(outcome.error); }
      if StateBlocks(outcome.next.state) != expectedBlocks.value
         || !TablesAgree(View(), outcome.next, outcome.feeCredit, nextCode.value, effects)
      {
        return Failed(InvalidTransition);
      }
      if WellFormed(View()) { EffectsConserve(View(), e); }
      state, quote, auth := outcome.next.state, outcome.next.quote, outcome.next.auth;
      mintEvidence, expiryEvidence := outcome.next.mintEvidence, outcome.next.expiryEvidence;
      return AppliedWith(effects);
    }
  }
}
