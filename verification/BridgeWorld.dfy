/**
 The whole bridge as one step system: the canister's records, the ICP ledger that holds the escrow,
 and a Base chain whose unfinalized suffix may be reorganized. The canister learns about the other two
 only through facts that are true when it learns them; everything may interleave.
 */
module BridgeWorld {
  import opened Prelude
  import opened Kernel
  import opened Deposits
  import opened Withdrawals
  import opened BaseChain
  import opened Accounting

  /** Whose transfer a ledger block carries. Memos are hashes of these identities in the source. */
  datatype Owner = Funding(deposit: nat) | Refund(deposit: nat) | Release(withdrawal: nat) | Payout(payout: nat)

  datatype Block = Block(owner: Owner, transfer: Transfer)

  datatype PayoutState = PayoutPending | PayoutHold | PayoutSucceeded(block: nat) | PayoutFailed

  datatype FeePayoutRecord = FeePayoutRecord(transfer: Transfer, state: PayoutState)

  datatype PayoutFact = PaidOut(block: nat) | NotPaid | PayoutUnknown

  datatype World = World(
    contract: Contract,
    deposits: seq<Deposit>, withdrawals: map<nat, Withdrawal>, holds: map<nat, Hold>,
    payouts: seq<FeePayoutRecord>, books: Books, spent: nat,
    ledger: seq<Block>, sent: set<Block>, clock: nat, ledgerClock: nat,
    chain: seq<BaseState>, finalized: nat)

  datatype Action =
    | AcceptDeposit(gross: nat, maxServiceFee: nat, transfer: Transfer)
    | LearnDeposit(deposit: nat, fact: DepositEvent)
    | DispatchSignature(deposit: nat)
    | ResolveDeposit(deposit: nat, hold: nat, resolution: Resolution)
    | ObserveWithdrawal(withdrawal: nat)
    | LearnWithdrawal(withdrawal: nat, event: WithdrawalEvent)
    | ResolveWithdrawal(withdrawal: nat, hold: nat, resolution: Resolution)
    | RequestPayout(transfer: Transfer)
    | LearnPayout(payout: nat, outcome: PayoutFact)
    | SendTransfer(owner: Owner)
    | LedgerExecutes(owner: Owner, transfer: Transfer)
    | LedgerRefuses(owner: Owner, transfer: Transfer)
    | Tick(clock: nat, ledgerClock: nat)
    | BaseMints(deposit: nat, timestamp: nat)
    | BaseBurns(timestamp: nat, balance: nat, amount: nat, maxServiceFee: nat, destination: Account)
    | BaseAdministers(timestamp: nat, mintsPaused: bool, withdrawalsPaused: bool, epoch: nat, serviceFee: nat)
    | BaseReorganizes(height: nat)
    | BaseFinalizes(height: nat)

  // The ledger's acceptance window, in nanoseconds.

  const LEDGER_DEDUP_NS: nat := 24 * 60 * 60 * 1_000_000_000
  const LEDGER_DRIFT_NS: nat := 60 * 1_000_000_000

  /** The ledger executes a transfer only around its creation time: not before it, and not once it is too old. */
  predicate Acceptable(t: Transfer, ledgerClock: nat) {
    t.createdAt <= ledgerClock + LEDGER_DRIFT_NS && !TooOld(t, ledgerClock)
  }

  predicate TooOld(t: Transfer, ledgerClock: nat) {
    ledgerClock > t.createdAt + LEDGER_DEDUP_NS + LEDGER_DRIFT_NS
  }

  function SaturatingAdd(a: nat, b: nat): nat {
    if a + b > U64_MAX then U64_MAX else a + b
  }

  /** The canister's own test that a transfer can no longer be accepted, in saturating arithmetic. */
  predicate Lapsed(t: Transfer, clock: nat) {
    clock > SaturatingAdd(SaturatingAdd(t.createdAt, LEDGER_DEDUP_NS), LEDGER_DRIFT_NS)
  }

  predicate Executed(ledger: seq<Block>, owner: Owner, transfer: Transfer) {
    Block(owner, transfer) in ledger
  }

  predicate BlockIs(ledger: seq<Block>, block: nat, owner: Owner, transfer: Transfer) {
    block < |ledger| && ledger[block] == Block(owner, transfer)
  }

  predicate RefundDone(d: Deposit, ledger: seq<Block>) {
    HasAttempt(d.state) && Executed(ledger, Refund(d.id), d.state.attempt.identity)
  }

  // Money.

  function BlockEffect(b: Block): int {
    if b.owner.Funding? then b.transfer.amount else -(b.transfer.amount + b.transfer.fee)
  }

  function Escrow(ledger: seq<Block>): int {
    if ledger == [] then 0 else Escrow(ledger[..|ledger| - 1]) + BlockEffect(ledger[|ledger| - 1])
  }

  /** What is really owed for a deposit, whatever the canister has recorded so far. */
  function DepositOwed(d: Deposit, ledger: seq<Block>, processed: set<nat>): int {
    if Executed(ledger, Funding(d.id), d.transfer) && d.id !in processed && !RefundDone(d, ledger)
    then d.gross - ChargedFee(d) else 0
  }

  predicate ReleaseDone(w: Withdrawal, ledger: seq<Block>) {
    !w.state.Observed? && Executed(ledger, Release(w.id), w.state.attempt.identity)
  }

  /** What is owed for a burn: its amount until the release executes, then the fee margin until it is recorded. */
  function BurnOwed(id: nat, burn: Burn, withdrawals: map<nat, Withdrawal>, ledger: seq<Block>): int {
    if id in withdrawals && ReleaseDone(withdrawals[id], ledger) then
      if withdrawals[id].state.Paid? then 0
      else withdrawals[id].chargedServiceFee - withdrawals[id].state.settlement.ledgerFee
    else burn.amount
  }

  function PayoutDebit(p: FeePayoutRecord): nat {
    p.transfer.amount + p.transfer.fee
  }

  predicate PayoutOpen(p: FeePayoutRecord) {
    p.state.PayoutPending? || p.state.PayoutHold?
  }

  function DepositsOwed(deposits: seq<Deposit>, ledger: seq<Block>, processed: set<nat>): seq<int> {
    seq(|deposits|, i requires 0 <= i < |deposits| => DepositOwed(deposits[i], ledger, processed))
  }

  function BurnsOwed(burns: seq<Burn>, withdrawals: map<nat, Withdrawal>, ledger: seq<Block>): seq<int> {
    seq(|burns|, i requires 0 <= i < |burns| => BurnOwed(i, burns[i], withdrawals, ledger))
  }

  /** Payouts that left the escrow but are still in the reserve. */
  function PayoutsUnrecorded(payouts: seq<FeePayoutRecord>, ledger: seq<Block>): seq<int> {
    seq(|payouts|, i requires 0 <= i < |payouts| =>
      if PayoutOpen(payouts[i]) && Executed(ledger, Payout(i), payouts[i].transfer) then PayoutDebit(payouts[i]) else 0)
  }

  function PayoutsPending(payouts: seq<FeePayoutRecord>): seq<int> {
    seq(|payouts|, i requires 0 <= i < |payouts| => if PayoutOpen(payouts[i]) then PayoutDebit(payouts[i]) else 0)
  }

  function Owed(w: World, b: BaseState): int {
    b.supply + w.books.feeReserve - Sum(PayoutsUnrecorded(w.payouts, w.ledger))
    + Sum(DepositsOwed(w.deposits, w.ledger, b.processed)) + Sum(BurnsOwed(b.burns, w.withdrawals, w.ledger))
  }

  /** The 1:1 backing equation, seen from one state of the Base chain. */
  predicate Backed(w: World, b: BaseState) {
    Escrow(w.ledger) == Owed(w, b)
  }

  // Steps. `None` means the action is not possible in this world.

  /**
   The ledger has not executed a transfer and will not: it has refused every request for it, or, where the
   canister scans the history for it, the canister has seen its window close first.
   */
  predicate NotExecuting(w: World, owner: Owner, t: Transfer, scans: bool) {
    !Executed(w.ledger, owner, t) && (Block(owner, t) !in w.sent || (scans && Lapsed(t, w.clock)))
  }

  /** The environment's side of a deposit fact: it describes the ledger and the finalized chain truthfully. */
  predicate DepositFactTrue(w: World, i: nat, e: DepositEvent)
    requires i < |w.deposits| && w.finalized < |w.chain|
  {
    var d := w.deposits[i];
    match e
    case FundingSucceeded(b) => BlockIs(w.ledger, b, Funding(i), d.transfer)
    case FundingFailed(_) => NotExecuting(w, Funding(i), d.transfer, true)
    case FundingAmbiguous(h) => h !in w.holds
    case MintReconciled(ev) => ev.depositId in w.chain[w.finalized].processed
    case StartRefund(_, _, expiry) =>
      expiry.Some? ==>
        && expiry.value.finalizedBlock <= w.finalized
        && w.chain[expiry.value.finalizedBlock].timestamp == expiry.value.finalizedTimestamp
        && (expiry.value.processed <==> expiry.value.depositId in w.chain[expiry.value.finalizedBlock].processed)
    case RefundSucceeded(b) => HasAttempt(d.state) && BlockIs(w.ledger, b, Refund(i), d.state.attempt.identity)
    case RefundAmbiguous(h) => h !in w.holds
    case _ => true
  }

  /** Storing an applied fact credits its fee and opens a hold for an ambiguous transfer, all or nothing. */
  function NextDepositFact(w: World, i: nat, e: DepositEvent): Option<World> {
    if i >= |w.deposits| || w.finalized >= |w.chain| || !DepositFactTrue(w, i, e) then None
    else match Step(w.deposits[i], e) {
      case Applied(next, fee) =>
        var posted := Post(w.books, Confirm(DepositFee, fee));
        if posted.Err? then None
        else
          var holds :=
            if e.FundingAmbiguous? then w.holds[e.hold := Hold(e.hold, DepositFunding(i), next.transfer, Open)]
            else if e.RefundAmbiguous? && next.state.RefundHold? then
              w.holds[e.hold := Hold(e.hold, DepositRefund(i), next.state.attempt.identity, Open)]
            else w.holds;
          Some(w.(deposits := w.deposits[i := next], books := posted.value, holds := holds))
      case _ => None
    }
  }

  function NextDispatch(w: World, i: nat): Option<World> {
    if i >= |w.deposits| || w.deposits[i].auth.None? || w.deposits[i].auth.value.signature.Some? then None
    else
      var r := w.deposits[i].auth.value;
      var r' := r.(dispatchAttempt := r.dispatchAttempt + 1, dispatched := true);
      Some(w.(deposits := w.deposits[i := w.deposits[i].(auth := Some(r'))]))
  }

  /** A hold is resolved by what the ledger's history says about the hold's own transfer. */
  predicate ResolutionTrue(w: World, h: Hold, owner: Owner, r: Resolution) {
    match r
    case TransferFound(b) => BlockIs(w.ledger, b, owner, h.transfer)
    case TransferAbsent(_, _) => !Executed(w.ledger, owner, h.transfer) && Lapsed(h.transfer, w.clock)
  }

  /** What resolving a hold of a deposit does, given what the canister believes about its transfer. */
  function ResolveDepositRecord(w: World, i: nat, h: nat, r: Resolution): Option<World>
    requires i < |w.deposits| && h in w.holds
  {
    var outcome := if w.holds[h].request.DepositFunding? then ResolveFundingHold(w.deposits[i], w.holds[h], r)
                   else ResolveRefundHold(w.deposits[i], w.holds[h], r);
    if outcome.Resolved? then
      Some(w.(deposits := w.deposits[i := outcome.record], holds := w.holds[h := outcome.hold]))
    else None
  }

  function NextResolveDeposit(w: World, i: nat, h: nat, r: Resolution): Option<World> {
    if i >= |w.deposits| || h !in w.holds || w.holds[h].request.WithdrawalRelease? || w.holds[h].request.deposit != i then None
    else
      var owner := if w.holds[h].request.DepositFunding? then Funding(i) else Refund(i);
      if !ResolutionTrue(w, w.holds[h], owner, r) then None else ResolveDepositRecord(w, i, h, r)
  }

  function NextObserve(w: World, id: nat): Option<World> {
    if id in w.withdrawals || w.finalized >= |w.chain| || id >= |w.chain[w.finalized].burns| then None
    else
      var b := w.chain[w.finalized].burns[id];
      if b.chargedServiceFee > b.amount then None
      else
        var r := Observe(id, b.destination, b.amount, b.maxServiceFee, b.chargedServiceFee, b.amount - b.chargedServiceFee);
        if r.Err? then None else Some(w.(withdrawals := w.withdrawals[id := r.value]))
  }

  predicate WithdrawalFactTrue(w: World, id: nat, e: WithdrawalEvent)
    requires id in w.withdrawals
  {
    match e
    case StartRelease(_, _) => true
    case ReleaseSucceeded(b) =>
      !w.withdrawals[id].state.Observed? && BlockIs(w.ledger, b, Release(id), w.withdrawals[id].state.attempt.identity)
    case ReleaseAmbiguous(h) => h !in w.holds
  }

  function NextWithdrawalFact(w: World, id: nat, e: WithdrawalEvent): Option<World> {
    if id !in w.withdrawals || !WithdrawalFactTrue(w, id, e) then None
    else match ReleaseStep(w.withdrawals[id], e) {
      case ReleaseApplied(next, fee) =>
        var posted := Post(w.books, Confirm(WithdrawalFee, fee));
        if posted.Err? then None
        else
          var holds :=
            if e.ReleaseAmbiguous? && next.state.ReconciliationHold? then
              w.holds[e.hold := Hold(e.hold, WithdrawalRelease(id), next.state.attempt.identity, Open)]
            else w.holds;
          Some(w.(withdrawals := w.withdrawals[id := next], books := posted.value, holds := holds))
      case _ => None
    }
  }

  function NextResolveWithdrawal(w: World, id: nat, h: nat, r: Resolution): Option<World> {
    if id !in w.withdrawals || h !in w.holds || w.holds[h].request != WithdrawalRelease(id)
       || !ResolutionTrue(w, w.holds[h], Release(id), r) then None
    else match ResolveReleaseHold(w.withdrawals[id], w.holds[h], r) {
      case Resolved(next, hold, fee) =>
        var posted := Post(w.books, Confirm(WithdrawalFee, fee));
        if posted.Err? then None
        else Some(w.(withdrawals := w.withdrawals[id := next], holds := w.holds[h := hold], books := posted.value))
      case _ => None
    }
  }

  /** A payout is admitted only out of the reserve that no earlier open payout has claimed. */
  function NextRequestPayout(w: World, t: Transfer): Option<World> {
    var pending := Sum(PayoutsPending(w.payouts));
    if t.operation != FeePayout || t.amount == 0 || t.amount + t.fee > U128_MAX
       || pending > w.books.feeReserve || t.amount + t.fee > w.books.feeReserve - pending then None
    else Some(w.(payouts := w.payouts + [FeePayoutRecord(t, PayoutPending)]))
  }

  function NextPayoutFact(w: World, p: nat, f: PayoutFact): Option<World> {
    if p >= |w.payouts| || !PayoutOpen(w.payouts[p]) then None
    else match f {
      case PaidOut(b) =>
        if !BlockIs(w.ledger, b, Payout(p), w.payouts[p].transfer) then None
        else
          var posted := Post(w.books, Spend(PayoutDebit(w.payouts[p])));
          if posted.Err? then None
          else Some(w.(payouts := w.payouts[p := w.payouts[p].(state := PayoutSucceeded(b))],
                       books := posted.value, spent := w.spent + PayoutDebit(w.payouts[p])))
      case NotPaid =>
        if !NotExecuting(w, Payout(p), w.payouts[p].transfer, w.payouts[p].state.PayoutHold?) then None
        else Some(w.(payouts := w.payouts[p := w.payouts[p].(state := PayoutFailed)]))
      case PayoutUnknown =>
        if w.payouts[p].state.PayoutHold? then None
        else Some(w.(payouts := w.payouts[p := w.payouts[p].(state := PayoutHold)]))
    }
  }

  /** The transfer the canister currently has in flight for an owner, if any. */
  function InFlight(w: World, owner: Owner): Option<Transfer> {
    match owner
    case Funding(i) =>
      if i < |w.deposits| && (w.deposits[i].state.FundingPending? || w.deposits[i].state.FundingHold?)
      then Some(w.deposits[i].transfer) else None
    case Refund(i) =>
      if i < |w.deposits| && (w.deposits[i].state.RefundPending? || w.deposits[i].state.RefundHold?)
      then Some(w.deposits[i].state.attempt.identity) else None
    case Release(id) =>
      if id in w.withdrawals && (w.withdrawals[id].state.ReleasePending? || w.withdrawals[id].state.ReconciliationHold?)
      then Some(w.withdrawals[id].state.attempt.identity) else None
    case Payout(p) =>
      if p < |w.payouts| && PayoutOpen(w.payouts[p]) then Some(w.payouts[p].transfer) else None
  }

  /** Sending, or sending again, the transfer in flight; the request may take any time to arrive. */
  function NextSend(w: World, owner: Owner): Option<World> {
    var t := InFlight(w, owner);
    if t.None? then None else Some(w.(sent := w.sent + {Block(owner, t.value)}))
  }

  /** The ledger executes any request that was sent, once, inside its window, and never overdraws the escrow. */
  function NextLedger(w: World, owner: Owner, t: Transfer): Option<World> {
    if Block(owner, t) !in w.sent || Executed(w.ledger, owner, t) || !Acceptable(t, w.ledgerClock)
       || Escrow(w.ledger) + BlockEffect(Block(owner, t)) < 0 then None
    else Some(w.(ledger := w.ledger + [Block(owner, t)]))
  }

  function Grow(w: World, b: BaseState): World {
    w.(chain := w.chain + [b])
  }

  /** A mint needs a signature the canister has released for this contract. */
  function NextMint(w: World, i: nat, t: nat): Option<World> {
    if |w.chain| == 0 || i >= |w.deposits| || !Signed(w.deposits[i]) || t < w.chain[|w.chain| - 1].timestamp
       || w.deposits[i].auth.value.domain.verifyingContract != w.contract.bridge then None
    else match Mint(w.contract, w.chain[|w.chain| - 1].(timestamp := t), w.deposits[i].auth.value.authorization) {
      case Ok(b) => Some(Grow(w, b))
      case Err(_) => None
    }
  }

  function NextBurn(w: World, t: nat, balance: nat, amount: nat, maxServiceFee: nat, to: Account): Option<World> {
    if |w.chain| == 0 || t < w.chain[|w.chain| - 1].timestamp then None
    else match CreateWithdrawal(w.chain[|w.chain| - 1].(timestamp := t), balance, amount, maxServiceFee, to) {
      case Some(b) => Some(Grow(w, b))
      case None => None
    }
  }

  /** Pausing, epochs and the service fee move freely; no administration touches supply, mints or burns. */
  function NextAdminister(w: World, t: nat, mintsPaused: bool, withdrawalsPaused: bool, epoch: nat, fee: nat): Option<World> {
    if |w.chain| == 0 || t < w.chain[|w.chain| - 1].timestamp then None
    else Some(Grow(w, w.chain[|w.chain| - 1].(timestamp := t, mintsPaused := mintsPaused,
                                              withdrawalsPaused := withdrawalsPaused, epoch := epoch, serviceFee := fee)))
  }

  function Next(w: World, a: Action): Option<World> {
    match a
    case AcceptDeposit(gross, fee, t) =>
      var r := Accept(|w.deposits|, gross, fee, t);
      if r.Err? || gross > U128_MAX then None else Some(w.(deposits := w.deposits + [r.value]))
    case LearnDeposit(i, e) => NextDepositFact(w, i, e)
    case DispatchSignature(i) => NextDispatch(w, i)
    case ResolveDeposit(i, h, r) => NextResolveDeposit(w, i, h, r)
    case ObserveWithdrawal(id) => NextObserve(w, id)
    case LearnWithdrawal(id, e) => NextWithdrawalFact(w, id, e)
    case ResolveWithdrawal(id, h, r) => NextResolveWithdrawal(w, id, h, r)
    case RequestPayout(t) => NextRequestPayout(w, t)
    case LearnPayout(p, f) => NextPayoutFact(w, p, f)
    case SendTransfer(owner) => NextSend(w, owner)
    case LedgerExecutes(owner, t) => NextLedger(w, owner, t)
    case LedgerRefuses(owner, t) => Some(w.(sent := w.sent - {Block(owner, t)}))
    case Tick(clock, ledgerClock) =>
      if w.clock <= clock <= ledgerClock && w.ledgerClock <= ledgerClock && clock <= U64_MAX
      then Some(w.(clock := clock, ledgerClock := ledgerClock)) else None
    case BaseMints(i, t) => NextMint(w, i, t)
    case BaseBurns(t, balance, amount, fee, to) => NextBurn(w, t, balance, amount, fee, to)
    case BaseAdministers(t, mp, wp, epoch, fee) => NextAdminister(w, t, mp, wp, epoch, fee)
    case BaseReorganizes(height) =>
      if w.finalized < height <= |w.chain| then Some(w.(chain := w.chain[..height])) else None
    case BaseFinalizes(height) =>
      if w.finalized <= height < |w.chain| then Some(w.(finalized := height)) else None
  }

  predicate Initial(w: World) {
    && w.deposits == [] && w.withdrawals == map[] && w.holds == map[] && w.payouts == []
    && w.books == Books(0, 0, 0) && w.spent == 0 && w.ledger == [] && w.sent == {} && w.finalized == 0
    && w.clock <= w.ledgerClock && w.clock <= U64_MAX
    && |w.chain| == 1 && w.chain[0].supply == 0 && w.chain[0].processed == {} && w.chain[0].burns == []
  }

  /** The world after a run of actions; impossible actions leave it unchanged. */
  function After(w: World, actions: seq<Action>): World {
    if actions == [] then w
    else
      var before := After(w, actions[..|actions| - 1]);
      match Next(before, actions[|actions| - 1])
      case Some(next) => next
      case None => before
  }
}
