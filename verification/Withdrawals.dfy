/** Withdrawal records and the reconciliation of ambiguous ledger transfers. */
module Withdrawals {
  import opened Prelude
  import opened Kernel
  import opened Deposits

  datatype Settlement = Settlement(amountOut: nat, serviceFee: nat, ledgerFee: nat)

  datatype WithdrawalState =
    | Observed
    | ReleasePending(attempt: Attempt, settlement: Settlement)
    | Paid(attempt: Attempt, settlement: Settlement, release: nat, source: Option<nat>)
    | ReconciliationHold(hold: nat, attempt: Attempt, settlement: Settlement)

  datatype WithdrawalEvent =
    | StartRelease(attempt: Attempt, settlement: Settlement)
    | ReleaseSucceeded(block: nat)
    | ReleaseAmbiguous(hold: nat)

  datatype Withdrawal = Withdrawal(
    id: nat, destination: Account, amount: nat, maxServiceFee: nat, chargedServiceFee: nat,
    amountOut: nat, state: WithdrawalState)

  function PhaseCode(s: WithdrawalState): nat {
    match s
    case Observed => 0
    case ReleasePending(_, _) => 1
    case Paid(_, _, _, _) => 2
    case ReconciliationHold(_, _, _) => 3
  }

  function EventPhase(e: WithdrawalEvent): nat {
    match e
    case StartRelease(_, _) => 0
    case ReleaseSucceeded(_) => 2
    case ReleaseAmbiguous(_) => 3
  }

  function Observe(id: nat, destination: Account, amount: nat, maxServiceFee: nat, chargedServiceFee: nat, amountOut: nat)
    : Result<Withdrawal, CoreError>
  {
    if amount == 0 || amountOut == 0 || chargedServiceFee > maxServiceFee then Err(InvalidAmount)
    else if amountOut + chargedServiceFee > U128_MAX then Err(ArithmeticOverflow)
    else if amountOut + chargedServiceFee != amount then Err(InvalidAmount)
    else Ok(Withdrawal(id, destination, amount, maxServiceFee, chargedServiceFee, amountOut, Observed))
  }

  /** The checks an attempt passes before it may be sent and again before it may be recorded as paid. */
  function AttemptError(w: Withdrawal, a: Attempt, s: Settlement): Option<CoreError> {
    if w.state.Observed? && a.number != 0 then Some(InvalidLedgerOperation)
    else if a.identity.operation != ReleaseWithdrawal
         || a.identity.amount != w.amountOut || a.identity.fee != s.ledgerFee
         || a.identity.to != w.destination
         || s.amountOut != w.amountOut || s.serviceFee != w.chargedServiceFee then Some(SettlementMismatch)
    else if s.serviceFee > w.maxServiceFee then Some(ServiceFeeAboveMaximum)
    else if s.amountOut + s.serviceFee != w.amount then Some(SettlementMismatch)
    else if OutboundSettlement(s.amountOut, s.ledgerFee, s.serviceFee).None? then Some(SettlementMismatch)
    else None
  }

  predicate IsReleaseReplay(w: Withdrawal, e: WithdrawalEvent) {
    match e
    case StartRelease(a, s) => !w.state.Observed? && w.state.attempt == a && w.state.settlement == s
    case ReleaseSucceeded(b) => w.state.Paid? && w.state.release == b
    case ReleaseAmbiguous(h) => w.state.ReconciliationHold? && w.state.hold == h
  }

  datatype WithdrawalOutcome = ReleaseApplied(next: Withdrawal, feeCredit: nat) | ReleaseReplayed | ReleaseRejected(error: CoreError)

  function ReleaseStep(w: Withdrawal, e: WithdrawalEvent): WithdrawalOutcome {
    var current := if w.state.Paid? then Some(w.state.release) else None;
    var fact := if e.ReleaseSucceeded? then (1, e.block) else (0, 0);
    if WithdrawalBlock(current, fact.0, fact.1).None? then ReleaseRejected(LedgerBlockConflict)
    else if IsReleaseReplay(w, e) then ReleaseReplayed
    else if !WithdrawalPhaseAllows(PhaseCode(w.state), EventPhase(e)) then ReleaseRejected(InvalidTransition)
    else match e {
      case StartRelease(a, s) =>
        if !w.state.Observed? then ReleaseRejected(InvalidTransition)
        else if AttemptError(w, a, s).Some? then ReleaseRejected(AttemptError(w, a, s).value)
        else ReleaseApplied(w.(state := ReleasePending(a, s)), 0)
      case ReleaseSucceeded(b) =>
        if !w.state.ReleasePending? then ReleaseRejected(InvalidTransition)
        else var a, s := w.state.attempt, w.state.settlement;
          if AttemptError(w, a, s).Some? then ReleaseRejected(AttemptError(w, a, s).value)
          else var effects := WithdrawalEffects(1, 2, s.amountOut, s.ledgerFee, s.serviceFee);
            if effects.None? then ReleaseRejected(InvalidTransition)
            else ReleaseApplied(w.(state := Paid(a, s, b, None)), effects.value.1.reserveCredit)
      case ReleaseAmbiguous(h) =>
        if !w.state.ReleasePending? then ReleaseRejected(InvalidTransition)
        else ReleaseApplied(w.(state := ReconciliationHold(h, w.state.attempt, w.state.settlement)), 0)
    }
  }

  predicate WithdrawalWellFormed(w: Withdrawal) {
    && w.amountOut > 0 && w.amountOut + w.chargedServiceFee == w.amount && w.amount <= U128_MAX
    && w.chargedServiceFee <= w.maxServiceFee
    && (!w.state.Observed? ==>
      && w.state.attempt.identity.operation == ReleaseWithdrawal
      && w.state.attempt.identity.amount == w.amountOut
      && w.state.attempt.identity.fee == w.state.settlement.ledgerFee
      && w.state.attempt.identity.to == w.destination
      && w.state.settlement.amountOut == w.amountOut
      && w.state.settlement.serviceFee == w.chargedServiceFee
      && w.state.settlement.ledgerFee <= w.chargedServiceFee
      && w.amountOut + w.state.settlement.ledgerFee <= U128_MAX)
  }

  // Reconciliation holds.

  datatype Request = DepositFunding(deposit: nat) | DepositRefund(deposit: nat) | WithdrawalRelease(withdrawal: nat)

  datatype HoldState = Open | ResolvedSucceeded(block: nat) | ResolvedAbsent(watermark: nat)

  datatype Hold = Hold(id: nat, request: Request, transfer: Transfer, state: HoldState)

  datatype Resolution =
    | TransferFound(block: nat)
    | TransferAbsent(watermark: nat, nextIdentity: Transfer)

  /** Resolving a hold: `Some(true)` is a first resolution, `Some(false)` an exact replay. */
  function ResolveHold(h: Hold, r: Resolution): Option<(Hold, bool)> {
    match r
    case TransferFound(b) =>
      if h.state.Open? then Some((h.(state := ResolvedSucceeded(b)), true))
      else if h.state == ResolvedSucceeded(b) then Some((h, false)) else None
    case TransferAbsent(m, _) =>
      if h.state.Open? then Some((h.(state := ResolvedAbsent(m)), true))
      else if h.state == ResolvedAbsent(m) then Some((h, false)) else None
  }

  datatype HoldOutcome<T> = Resolved(record: T, hold: Hold, feeCredit: nat) | ResolutionReplayed | ResolutionRejected(error: CoreError)

  /** A funding hold either finds its pull on the ledger or cancels the deposit. */
  function ResolveFundingHold(d: Deposit, h: Hold, r: Resolution): HoldOutcome<Deposit> {
    if h.request != DepositFunding(d.id) || h.transfer != d.transfer then ResolutionRejected(HoldMismatch)
    else
      var funding := StateBlocks(d.state).0;
      if r.TransferFound? && DepositBlocks(funding, None, 1, r.block).None? then ResolutionRejected(LedgerBlockConflict)
      else
        var resolved := ResolveHold(h, r);
        if resolved.None? then ResolutionRejected(ConflictingReplay)
        else match r {
          case TransferFound(b) =>
            if d.state == FundingHold(h.id) then Finish(d.(state := EscrowedUnquoted(b)), resolved.value, true)
            else if funding == Some(b) then Finish(d, resolved.value, false)
            else ResolutionRejected(HoldMismatch)
          case TransferAbsent(m, _) =>
            if d.state == FundingHold(h.id) then Finish(d.(state := Cancelled(Some(h.id), Some(m), None)), resolved.value, true)
            else if d.state == Cancelled(Some(h.id), Some(m), None) then Finish(d, resolved.value, false)
            else ResolutionRejected(HoldMismatch)
        }
  }

  /** Hold and record must move together: a first resolution of one with a replay of the other is refused. */
  function Finish<T>(record: T, resolved: (Hold, bool), applied: bool): HoldOutcome<T> {
    if resolved.1 != applied then ResolutionRejected(ConflictingReplay)
    else if applied then Resolved(record, resolved.0, 0) else ResolutionReplayed
  }

  /** A refund hold either records the refund it found or moves on to a distinguishable attempt. */
  function ResolveRefundHold(d: Deposit, h: Hold, r: Resolution): HoldOutcome<Deposit> {
    if h.request != DepositRefund(d.id) then ResolutionRejected(HoldMismatch)
    else match r {
      case TransferFound(b) =>
        var current := if d.state.RefundHold? || d.state.Refunded? then StateBlocks(d.state) else (None, None);
        if DepositBlocks(current.0, current.1, 2, b).None? then ResolutionRejected(LedgerBlockConflict)
        else
          var resolved := ResolveHold(h, r);
          if resolved.None? then ResolutionRejected(ConflictingReplay)
          else if d.state.RefundHold? && d.state.hold == h.id && h.transfer == d.state.attempt.identity then
            Finish(d.(state := Refunded(d.state.reason, d.state.funding, d.state.attempt, b, Some(h.id))), resolved.value, true)
          else if d.state.Refunded? && d.state.source == Some(h.id) && d.state.refund == b && h.transfer == d.state.attempt.identity then
            Finish(d, resolved.value, false)
          else ResolutionRejected(HoldMismatch)
      case TransferAbsent(m, next) =>
        var resolved := ResolveHold(h, r);
        if resolved.None? then ResolutionRejected(ConflictingReplay)
        else if d.state.RefundHold? && d.state.hold == h.id && h.transfer == d.state.attempt.identity then
          var retry := RetryAfterAbsence(d.state.attempt, next);
          if retry.None? then ResolutionRejected(AttemptPayloadChanged)
          else Finish(d.(state := RefundPending(d.state.reason, d.state.funding, retry.value)), resolved.value, true)
        else if d.state.RefundPending? && d.state.attempt.identity == next then Finish(d, resolved.value, false)
        else ResolutionRejected(HoldMismatch)
    }
  }

  /** A release hold; the identity check is only made for a first attempt, as in the source. */
  function ResolveReleaseHold(w: Withdrawal, h: Hold, r: Resolution): HoldOutcome<Withdrawal> {
    if h.request != WithdrawalRelease(w.id) then ResolutionRejected(HoldMismatch)
    else if !(|| (w.state.ReconciliationHold? && w.state.hold == h.id)
              || (w.state.Paid? && w.state.source == Some(h.id))
              || (w.state.ReleasePending? && w.state.attempt.number > 0)) then ResolutionRejected(HoldMismatch)
    else if h.transfer != w.state.attempt.identity && w.state.attempt.number == 0 then ResolutionRejected(HoldMismatch)
    else
      var s := w.state.settlement;
      match r {
        case TransferFound(b) =>
          var current := if w.state.Paid? then Some(w.state.release) else None;
          if WithdrawalBlock(current, 1, b).None? then ResolutionRejected(LedgerBlockConflict)
          else
            var resolved := ResolveHold(h, r);
            if resolved.None? then ResolutionRejected(ConflictingReplay)
            else if w.state.ReconciliationHold? then
              var effects := WithdrawalEffects(3, 4, s.amountOut, s.ledgerFee, s.serviceFee);
              if effects.None? then ResolutionRejected(SettlementMismatch)
              else if !resolved.value.1 then ResolutionRejected(ConflictingReplay)
              else Resolved(w.(state := Paid(w.state.attempt, s, b, Some(h.id))), resolved.value.0, effects.value.1.reserveCredit)
            else if w.state.Paid? && w.state.release == b then Finish(w, resolved.value, false)
            else ResolutionRejected(HoldMismatch)
        case TransferAbsent(m, next) =>
          var resolved := ResolveHold(h, r);
          if resolved.None? then ResolutionRejected(ConflictingReplay)
            else if w.state.ReconciliationHold? then
            var retry := RetryAfterAbsence(w.state.attempt, next);
            if retry.None? then ResolutionRejected(AttemptPayloadChanged)
            else Finish(w.(state := ReleasePending(retry.value, s)), resolved.value, true)
          else if w.state.ReleasePending? && w.state.attempt.identity == next then Finish(w, resolved.value, false)
          else ResolutionRejected(HoldMismatch)
      }
  }
}
