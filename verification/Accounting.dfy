/** Fee accounting over checked 128-bit amounts. */
module Accounting {
  import opened Prelude
  import opened Kernel

  datatype FeeKind = DepositFee | WithdrawalFee

  datatype Books = Books(feeReserve: nat, depositFees: nat, withdrawalFees: nat)

  datatype AmountError = ArithmeticOverflow | ArithmeticUnderflow

  datatype Operation = Confirm(kind: FeeKind, amount: nat) | Spend(amount: nat)

  /** The books after one operation, or the reason it is refused. */
  function Post(b: Books, op: Operation): Result<Books, AmountError> {
    match op
    case Confirm(kind, amount) =>
      var total := if kind.DepositFee? then b.depositFees else b.withdrawalFees;
      if b.feeReserve + amount > U128_MAX || total + amount > U128_MAX then Err(ArithmeticOverflow)
      else if kind.DepositFee? then Ok(Books(b.feeReserve + amount, b.depositFees + amount, b.withdrawalFees))
      else Ok(Books(b.feeReserve + amount, b.depositFees, b.withdrawalFees + amount))
    case Spend(amount) =>
      if amount > b.feeReserve then Err(ArithmeticUnderflow)
      else Ok(b.(feeReserve := b.feeReserve - amount))
  }

  class AccountingState {
    var feeReserve: nat
    var depositFees: nat
    var withdrawalFees: nat

    constructor ()
      ensures View() == Books(0, 0, 0)
    {
      feeReserve, depositFees, withdrawalFees := 0, 0, 0;
    }

    function View(): Books
      reads this
    {
      Books(feeReserve, depositFees, withdrawalFees)
    }

    /** Every check precedes every write, so an overflow in the last addition still changes nothing. */
    method ConfirmFee(kind: FeeKind, amount: nat) returns (r: Result<(), AmountError>)
      modifies this
      ensures match Post(old(View()), Confirm(kind, amount))
              case Ok(next) => r.Ok? && View() == next
              case Err(error) => r == Err(error) && View() == old(View())
    {
      var nextReserve := CheckedAdd(feeReserve, amount);
      if nextReserve.None? { return Err(ArithmeticOverflow); }
      var nextDeposit := if kind.DepositFee? then CheckedAdd(depositFees, amount) else Some(depositFees);
      if nextDeposit.None? { return Err(ArithmeticOverflow); }
      var nextWithdrawal := if kind.WithdrawalFee? then CheckedAdd(withdrawalFees, amount) else Some(withdrawalFees);
      if nextWithdrawal.None? { return Err(ArithmeticOverflow); }
      feeReserve := nextReserve.value;
      depositFees := nextDeposit.value;
      withdrawalFees := nextWithdrawal.value;
      return Ok(());
    }

    method SpendFeeReserve(amount: nat) returns (r: Result<(), AmountError>)
      modifies this`feeReserve
      ensures match Post(old(View()), Spend(amount))
              case Ok(next) => r.Ok? && View() == next
              case Err(error) => r == Err(error) && View() == old(View())
    {
      var next := CheckedSub(feeReserve, amount);
      if next.None? { return Err(ArithmeticUnderflow); }
      feeReserve := next.value;
      return Ok(());
    }
  }

  /** Books and total spending after a run; refused operations are skipped. */
  function Run(b: Books, ops: seq<Operation>): (Books, nat) {
    if ops == [] then (b, 0)
    else
      var before := Run(b, ops[..|ops| - 1]);
      var op := ops[|ops| - 1];
      match Post(before.0, op)
      case Err(_) => before
      case Ok(next) => (next, before.1 + if op.Spend? then op.amount else 0)
  }

  /** No run creates or loses a fee: the reserve and all spending add up to what was confirmed, within 128 bits. */
  lemma {:induction false} RunConserves(ops: seq<Operation>)
    ensures var (b, spent) := Run(Books(0, 0, 0), ops);
      && b.feeReserve + spent == b.depositFees + b.withdrawalFees
      && b.feeReserve <= U128_MAX && b.depositFees <= U128_MAX && b.withdrawalFees <= U128_MAX
  {
    if ops != [] {
      RunConserves(ops[..|ops| - 1]);
    }
  }

  /** Confirmed totals only grow along a run. */
  lemma {:induction false} ConfirmedNeverDecreases(b: Books, ops: seq<Operation>, k: nat)
    requires k <= |ops|
    ensures Run(b, ops[..k]).0.depositFees <= Run(b, ops).0.depositFees
    ensures Run(b, ops[..k]).0.withdrawalFees <= Run(b, ops).0.withdrawalFees
    decreases |ops|
  {
    if k < |ops| {
      ConfirmedNeverDecreases(b, ops[..|ops| - 1], k);
      assert ops[..|ops| - 1][..k] == ops[..k];
    } else {
      assert ops[..k] == ops;
    }
  }
}
