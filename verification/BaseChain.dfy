/** The Base side: authorized mints, committed withdrawals, and the reorganizable chain they live on. */
module BaseChain {
  import opened Prelude
  import opened Kernel
  import opened Deposits

  const FIFTEEN_MINUTES: nat := 900

  /** What the contract fixes at construction. */
  datatype Contract = Contract(
    bridge: nat, token: nat, protocolMaximumFee: nat, perDepositLimit: nat, windowLimit: nat, windowDuration: nat)

  datatype Burn = Burn(amount: nat, maxServiceFee: nat, chargedServiceFee: nat, destination: Account)

  datatype BaseState = BaseState(
    timestamp: nat, supply: nat, processed: set<nat>, burns: seq<Burn>,
    mintsPaused: bool, withdrawalsPaused: bool, epoch: nat, serviceFee: nat,
    windowStartedAt: nat, mintedInWindow: nat)

  datatype RejectReason =
    | Paused | Expired | DeadlineTooFar | EpochMismatch | ZeroRecipient | ForbiddenRecipient
    | GrossExceedsU128 | MaximumFeeExceedsU128 | ChargedFeeExceedsU128 | Processed
    | ProtocolFeeExceeded | UserFeeExceeded | AmountNotAboveFee | DepositLimitExceeded
    | TimestampExceedsU64 | WindowLimitExceeded

  /** The contract's mint policy, in its order of checks; an accepted mint yields the next state. */
  function Mint(c: Contract, b: BaseState, a: Authorization): Result<BaseState, RejectReason> {
    if b.mintsPaused then Err(Paused)
    else if b.timestamp > a.deadline then Err(Expired)
    else if a.deadline > b.timestamp + FIFTEEN_MINUTES then Err(DeadlineTooFar)
    else if a.epoch != b.epoch then Err(EpochMismatch)
    else if a.recipient == 0 then Err(ZeroRecipient)
    else if a.recipient == c.bridge || a.recipient == c.token then Err(ForbiddenRecipient)
    else if a.grossAmount > U128_MAX then Err(GrossExceedsU128)
    else if a.maxServiceFee > U128_MAX then Err(MaximumFeeExceedsU128)
    else if a.chargedServiceFee > U128_MAX then Err(ChargedFeeExceedsU128)
    else if a.depositId in b.processed then Err(Processed)
    else if a.chargedServiceFee > c.protocolMaximumFee then Err(ProtocolFeeExceeded)
    else if a.chargedServiceFee > a.maxServiceFee then Err(UserFeeExceeded)
    else if a.grossAmount <= a.chargedServiceFee then Err(AmountNotAboveFee)
    else
      var net := a.grossAmount - a.chargedServiceFee;
      var reset := b.timestamp >= b.windowStartedAt + c.windowDuration;
      var consumed := if reset then 0 else b.mintedInWindow;
      if net > c.perDepositLimit then Err(DepositLimitExceeded)
      else if reset && b.timestamp > U64_MAX then Err(TimestampExceedsU64)
      else if consumed >= c.windowLimit || net > c.windowLimit - consumed then Err(WindowLimitExceeded)
      else Ok(b.(supply := b.supply + net, processed := b.processed + {a.depositId},
                 windowStartedAt := if reset then b.timestamp else b.windowStartedAt,
                 mintedInWindow := consumed + net))
  }

  /** Committing a withdrawal burns its amount at the fee in force; the holder's balance bounds the amount. */
  function CreateWithdrawal(b: BaseState, balance: nat, amount: nat, maxServiceFee: nat, destination: Account): Option<BaseState> {
    if b.withdrawalsPaused || amount > U128_MAX || maxServiceFee > U128_MAX || amount == 0
       || b.serviceFee > maxServiceFee || amount <= b.serviceFee
       || |destination.owner| == 0 || |destination.owner| > 29 || destination.owner == [4]
       || amount > balance || balance > b.supply
    then None
    else Some(b.(supply := b.supply - amount,
                 burns := b.burns + [Burn(amount, maxServiceFee, b.serviceFee, destination)]))
  }

  /** One later state of the same chain: time does not go back, processed deposits and burns stay. */
  predicate Extends(a: BaseState, b: BaseState) {
    && a.timestamp <= b.timestamp
    && a.processed <= b.processed
    && a.burns <= b.burns
  }

  predicate ChainOk(chain: seq<BaseState>) {
    && |chain| > 0
    && forall k, l {:trigger chain[k], chain[l]} | 0 <= k <= l < |chain| :: Extends(chain[k], chain[l])
  }

  lemma ExtendsTransitive(a: BaseState, b: BaseState, c: BaseState)
    requires Extends(a, b) && Extends(b, c)
    ensures Extends(a, c)
  {
  }

  lemma GrowKeepsChain(chain: seq<BaseState>, b: BaseState)
    requires ChainOk(chain) && Extends(chain[|chain| - 1], b)
    ensures ChainOk(chain + [b])
  {
    forall k, l | 0 <= k <= l < |chain| + 1
      ensures Extends((chain + [b])[k], (chain + [b])[l])
    {
      if k < |chain| && l == |chain| {
        ExtendsTransitive(chain[k], chain[|chain| - 1], b);
      }
    }
  }
}
