/** The deterministic arithmetic and transition tables shared by the canister's record types. */
module Kernel {
  import opened Prelude

  const U128_MAX: nat := 0xFFFF_FFFF_FFFF_FFFF_FFFF_FFFF_FFFF_FFFF
  const U64_MAX: nat := 0xFFFF_FFFF_FFFF_FFFF

  type u64 = n: nat | n <= U64_MAX
  type u128 = n: nat | n <= U128_MAX

  function CheckedAdd(a: nat, b: nat): Option<nat> {
    if a + b <= U128_MAX then Some(a + b) else None
  }

  function CheckedSub(a: nat, b: nat): Option<nat> {
    if b <= a then Some(a - b) else None
  }

  /** The compact deposit phase table; states and events carry the numbers the source gives them. */
  function DepositTransition(state: nat, event: nat): Option<nat> {
    if state == 0 && event == 0 then Some(1)
    else if state == 0 && event == 1 then Some(5)
    else if state == 0 && event == 2 then Some(9)
    else if state == 1 && event == 3 then Some(2)
    else if state == 1 && event == 4 then Some(4)
    else if state == 2 && event == 4 then Some(4)
    else if state == 2 && event == 5 then Some(3)
    else if state == 3 && event == 4 then Some(4)
    else if (state == 3 || state == 4) && event == 6 then Some(10)
    else if state == 4 && event == 7 then Some(6)
    else if state == 6 && event == 8 then Some(8)
    else if state == 6 && event == 9 then Some(7)
    else None
  }

  predicate ReservationActive(state: nat) {
    state == 2 || state == 3
  }

  datatype DepositEffects = DepositEffects(
    reservationAfter: nat, reservationAdd: nat, reservationRelease: nat,
    feeCredit: nat, liabilityDebit: nat, escrowDebit: nat, supplyIncrease: nat)

  function DepositNumericEffects(state: nat, event: nat, gross: nat, net: nat, fee: nat, reserved: nat): DepositEffects {
    var next := DepositTransition(state, event);
    var wasReserved := ReservationActive(state);
    var afterReserved := next.Some? && ReservationActive(next.value);
    var signed := state == 2 && event == 5;
    var minted := (state == 3 || state == 4) && event == 6;
    var refunded := state == 6 && event == 8;
    var terminalLiability := if net == 0 then gross else net;
    DepositEffects(
      if afterReserved then (if wasReserved then reserved else net) else 0,
      if !wasReserved && afterReserved then net else 0,
      if wasReserved && !afterReserved && next.Some? then reserved else 0,
      if signed then fee else 0,
      if signed then fee else if minted || refunded then terminalLiability else 0,
      if refunded then terminalLiability else 0,
      if minted then net else 0)
  }

  /** Ledger-success evidence may install a deposit's block indexes once; a different index is refused. */
  function DepositBlocks(funding: Option<nat>, refund: Option<nat>, event: nat, block: nat)
    : Option<(Option<nat>, Option<nat>)>
  {
    if event == 0 then Some((funding, refund))
    else if event == 1 then
      if funding.None? then Some((Some(block), refund))
      else if funding.value == block then Some((funding, refund)) else None
    else if event == 2 then
      if funding.Some? && refund.None? then Some((funding, Some(block)))
      else if funding.Some? && refund.value == block then Some((funding, refund)) else None
    else None
  }

  function WithdrawalBlock(release: Option<nat>, event: nat, block: nat): Option<Option<nat>> {
    if event == 0 then Some(release)
    else if event == 1 then
      if release.None? then Some(Some(block))
      else if release.value == block then Some(release) else None
    else None
  }

  /** Escrow debit, reserve credit and liability debit of one committed release. */
  datatype SettlementDecision = SettlementDecision(escrowDebit: nat, reserveCredit: nat, liabilityDebit: nat)

  function OutboundSettlement(amountOut: nat, ledgerFee: nat, serviceFee: nat): Option<SettlementDecision>
  {
    if ledgerFee > serviceFee || amountOut + ledgerFee > U128_MAX || amountOut + serviceFee > U128_MAX then None
    else Some(SettlementDecision(amountOut + ledgerFee, serviceFee - ledgerFee, amountOut + serviceFee))
  }

  function WithdrawalPhaseStep(state: nat, event: nat): nat {
    if state == 0 && event == 0 then 1
    else if state == 1 && event == 1 then 1
    else if state == 1 && event == 2 then 2
    else if state == 1 && event == 3 then 3
    else if state == 3 && event == 4 then 2
    else if state == 3 && event == 5 then 1
    else state
  }

  predicate WithdrawalPhaseAllows(state: nat, event: nat) {
    WithdrawalPhaseStep(state, event) != state || (state == 1 && event == 1)
  }

  /** The next withdrawal phase together with its three amounts. */
  function WithdrawalEffects(state: nat, event: nat, amountOut: nat, ledgerFee: nat, serviceFee: nat)
    : Option<(nat, SettlementDecision)>
  {
    var next := WithdrawalPhaseStep(state, event);
    if next == state && !(state == 1 && event == 1) then None
    else if (state == 1 && event == 2) || (state == 3 && event == 4) then
      var s := OutboundSettlement(amountOut, ledgerFee, serviceFee);
      if s.None? then None else Some((next, s.value))
    else if (state == 0 && event == 0) || (state == 1 && event == 3) || (state == 3 && event == 5) || (state == 1 && event == 1) then
      Some((next, SettlementDecision(0, 0, 0)))
    else None
  }
}
