/** The withdrawal settlement step over four checked 128-bit amounts. */
module Settlement {
  import opened Prelude
  import opened Kernel

  datatype Amounts = Amounts(escrow: nat, supply: nat, reserve: nat, liability: nat)

  datatype Request = Request(amountOut: nat, ledgerFee: nat, serviceFee: nat)

  /** Escrow covers supply, reserve and unpaid liability exactly, and their sum did not wrap. */
  predicate IsBacked(a: Amounts) {
    a.supply + a.reserve <= U128_MAX && a.supply + a.reserve + a.liability <= U128_MAX
    && a.supply + a.reserve + a.liability == a.escrow
  }

  function CheckedAfter(a: Amounts, r: Request): Option<Amounts> {
    if OutboundSettlement(r.amountOut, r.ledgerFee, r.serviceFee).None? then None
    else
      var debit := CheckedAdd(r.amountOut, r.ledgerFee);
      var escrow := if debit.None? then None else CheckedSub(a.escrow, debit.value);
      var credited := CheckedAdd(a.reserve, r.serviceFee);
      var reserve := if credited.None? then None else CheckedSub(credited.value, r.ledgerFee);
      var owed := CheckedAdd(r.amountOut, r.serviceFee);
      var liability := if owed.None? then None else CheckedSub(a.liability, owed.value);
      if escrow.None? || reserve.None? || liability.None? then None
      else Some(Amounts(escrow.value, a.supply, reserve.value, liability.value))
  }

  /** An accepted settlement needs backing before it; anything else leaves all four amounts alone. */
  function Settle(a: Amounts, r: Request): (Amounts, bool) {
    var after := CheckedAfter(a, r);
    if IsBacked(a) && after.Some? then (after.value, true) else (a, false)
  }

  /** From a backed state the only reasons to refuse are the fee, the liability and the reserve's headroom. */
  lemma SettleAccepts(a: Amounts, r: Request)
    requires IsBacked(a)
    ensures Settle(a, r).1 <==>
      r.ledgerFee <= r.serviceFee && r.amountOut + r.serviceFee <= a.liability && a.reserve + r.serviceFee <= U128_MAX
  {
  }

  function SettleAll(a: Amounts, requests: seq<Request>): Amounts {
    if requests == [] then a else Settle(SettleAll(a, requests[..|requests| - 1]), requests[|requests| - 1]).0
  }

  /** Every sequence of settlements keeps backing, never touches supply, and retires liability into payments and fees. */
  lemma {:induction false} SettleAllKeepsBacking(a: Amounts, requests: seq<Request>)
    requires IsBacked(a)
    ensures var z := SettleAll(a, requests);
      && IsBacked(z) && z.supply == a.supply && z.liability <= a.liability && z.escrow <= a.escrow
      && a.liability - z.liability == (a.escrow - z.escrow) + (z.reserve - a.reserve) && a.reserve <= z.reserve
  {
    if requests != [] {
      SettleAllKeepsBacking(a, requests[..|requests| - 1]);
    }
  }
}
