/** Deposit records: their phases, the facts that move them, and what each phase still owes. */
module Deposits {
  import opened Prelude
  import opened Kernel

  // 32-byte hashes, addresses and memos are numbers here; zero stands for the all-zero bytes.

  datatype Account = Account(owner: seq<nat>, subaccount: nat)

  datatype LedgerOperation = PullDeposit | RefundDeposit | ReleaseWithdrawal | FeePayout

  datatype Transfer = Transfer(
    operation: LedgerOperation, createdAt: nat, memo: nat, amount: nat, fee: nat,
    from: Account, to: Account, spender: Option<Account>)

  datatype Attempt = Attempt(number: nat, identity: Transfer)

  /** A replacement attempt keeps every payment field and must be distinguishable on the ledger. */
  function RetryAfterAbsence(a: Attempt, next: Transfer): Option<Attempt> {
    if next.createdAt <= a.identity.createdAt || next.memo == a.identity.memo
       || next.operation != a.identity.operation || next.amount != a.identity.amount
       || next.fee != a.identity.fee || next.from != a.identity.from || next.to != a.identity.to
       || next.spender != a.identity.spender || a.number >= U64_MAX
    then None else Some(Attempt(a.number + 1, next))
  }

  const TTL_SECONDS: nat := 900
  const DOMAIN_NAME: string := "KINIC Bridge"
  const DOMAIN_VERSION: string := "1"

  datatype Quote = Quote(serviceFee: nat, netAmount: nat)

  datatype Domain = Domain(name: string, version: string, chainId: nat, verifyingContract: nat)

  datatype Authorization = Authorization(
    depositId: nat, recipient: nat, grossAmount: nat, maxServiceFee: nat,
    chargedServiceFee: nat, deadline: nat, epoch: nat)

  datatype Origin = Origin(blockNumber: nat, blockHash: nat, issuedAt: nat)

  datatype AuthorizationRecord = AuthorizationRecord(
    authorization: Authorization, domain: Domain, digest: nat, origin: Origin,
    dispatchAttempt: nat, dispatched: bool, signature: Option<seq<nat>>)

  datatype MintEvidence = MintEvidence(
    depositId: nat, recipient: nat, digest: nat, chainId: nat, verifyingContract: nat,
    grossAmount: nat, chargedServiceFee: nat, mintedAmount: nat, transactionHash: nat,
    receiptSucceeded: bool, receiptBlock: nat, receiptBlockHash: nat,
    finalizedBlock: nat, finalizedBlockHash: nat, requestDigest: nat, responseDigest: nat)

  datatype ExpiryEvidence = ExpiryEvidence(
    depositId: nat, digest: nat, chainId: nat, verifyingContract: nat, processed: bool,
    finalizedBlock: nat, finalizedBlockHash: nat, finalizedTimestamp: nat,
    runtimeHash: nat, requestDigest: nat, responseDigest: nat)

  datatype RefundReason = BasePaused | ServiceFeeRejected | RefundAmountTooSmall | InvalidRecipient
    | PerDepositLimitExceeded | MintWindowLimitExceeded | AuthorizationExpired

  datatype DepositState =
    | FundingPending
    | EscrowedUnquoted(funding: nat)
    | AuthorizationPending(funding: nat)
    | AuthorizationAvailable(funding: nat)
    | RefundAvailable(reason: RefundReason, funding: nat)
    | FundingHold(hold: nat)
    | RefundPending(reason: RefundReason, funding: nat, attempt: Attempt)
    | RefundHold(reason: RefundReason, funding: nat, hold: nat, attempt: Attempt)
    | Refunded(reason: RefundReason, funding: nat, attempt: Attempt, refund: nat, source: Option<nat>)
    | Cancelled(holdId: Option<nat>, watermark: Option<nat>, failure: Option<nat>)
    | Minted(funding: nat)

  datatype DepositEvent =
    | FundingSucceeded(block: nat)
    | FundingAmbiguous(hold: nat)
    | FundingFailed(code: nat)
    | CommitAuthorization(quote: Quote, record: AuthorizationRecord)
    | MarkRefundAvailable(reason: RefundReason, finalizedTimestamp: Option<nat>)
    | AuthorizationSigned(signature: seq<nat>, observedTimestamp: nat)
    | MintReconciled(evidence: MintEvidence)
    | StartRefund(reason: RefundReason, attempt: Attempt, expiry: Option<ExpiryEvidence>)
    | RefundSucceeded(block: nat)
    | RefundAmbiguous(hold: nat)

  datatype CoreError = InvalidAmount | ArithmeticOverflow | InvalidTransition | ConflictingReplay
    | LedgerBlockConflict | HoldMismatch | AttemptPayloadChanged | RefundIneligible | InvalidLedgerOperation
    | SettlementMismatch | ServiceFeeAboveMaximum

  datatype Deposit = Deposit(
    id: nat, gross: nat, maxServiceFee: nat, quote: Option<Quote>, auth: Option<AuthorizationRecord>,
    mintEvidence: Option<MintEvidence>, expiryEvidence: Option<ExpiryEvidence>,
    transfer: Transfer, state: DepositState)

  function StateCode(s: DepositState): nat {
    match s
    case FundingPending => 0
    case EscrowedUnquoted(_) => 1
    case AuthorizationPending(_) => 2
    case AuthorizationAvailable(_) => 3
    case RefundAvailable(_, _) => 4
    case FundingHold(_) => 5
    case RefundPending(_, _, _) => 6
    case RefundHold(_, _, _, _) => 7
    case Refunded(_, _, _, _, _) => 8
    case Cancelled(_, _, _) => 9
    case Minted(_) => 10
  }

  function EventCode(e: DepositEvent): nat {
    match e
    case FundingSucceeded(_) => 0
    case FundingAmbiguous(_) => 1
    case FundingFailed(_) => 2
    case CommitAuthorization(_, _) => 3
    case MarkRefundAvailable(_, _) => 4
    case AuthorizationSigned(_, _) => 5
    case MintReconciled(_) => 6
    case StartRefund(_, _, _) => 7
    case RefundSucceeded(_) => 8
    case RefundAmbiguous(_) => 9
  }

  function StateBlocks(s: DepositState): (Option<nat>, Option<nat>) {
    match s
    case FundingPending => (None, None)
    case FundingHold(_) => (None, None)
    case Cancelled(_, _, _) => (None, None)
    case Refunded(_, f, _, r, _) => (Some(f), Some(r))
    case _ => (Some(s.funding), None)
  }

  /** Accepting a request fixes its identity; the pull must move exactly the gross amount. */
  function Accept(id: nat, gross: nat, maxServiceFee: nat, transfer: Transfer): Result<Deposit, CoreError> {
    if transfer.operation != PullDeposit then Err(InvalidLedgerOperation)
    else if transfer.amount != gross || gross == 0 then Err(InvalidAmount)
    else Ok(Deposit(id, gross, maxServiceFee, None, None, None, None, transfer, FundingPending))
  }

  predicate Signed(d: Deposit) {
    d.auth.Some? && d.auth.value.signature.Some?
  }

  /** The service fee this deposit has been charged; the charge happens when its signature is installed. */
  function ChargedFee(d: Deposit): nat {
    if Signed(d) && d.quote.Some? then d.quote.value.serviceFee else 0
  }

  predicate QuoteValid(q: Quote, gross: nat) {
    q.netAmount != 0 && q.netAmount + q.serviceFee <= U128_MAX && q.netAmount + q.serviceFee == gross
  }

  predicate CommitAccepted(d: Deposit, q: Quote, r: AuthorizationRecord) {
    var a := r.authorization;
    && QuoteValid(q, d.gross)
    && a.depositId == d.id && a.recipient != 0 && a.grossAmount == d.gross
    && a.maxServiceFee == d.maxServiceFee && a.chargedServiceFee == q.serviceFee
    && r.domain.chainId != 0 && r.domain.verifyingContract != 0 && r.digest != 0
    && r.origin.blockHash != 0 && a.epoch != 0
    && r.domain.name == DOMAIN_NAME && r.domain.version == DOMAIN_VERSION
    && r.origin.issuedAt + TTL_SECONDS <= U64_MAX && a.deadline == r.origin.issuedAt + TTL_SECONDS
    && r.signature.None? && !r.dispatched && r.dispatchAttempt == 0
  }

  predicate SignatureAccepted(d: Deposit, signature: seq<nat>, observed: nat) {
    && d.auth.Some? && d.auth.value.dispatched && d.auth.value.signature.None?
    && |signature| == 65 && observed < d.auth.value.authorization.deadline
  }

  predicate MarkAccepted(d: Deposit, reason: RefundReason, finalizedTimestamp: Option<nat>) {
    match d.state
    case EscrowedUnquoted(_) => finalizedTimestamp.None? && reason != AuthorizationExpired
    case AuthorizationPending(_) =>
      if reason == AuthorizationExpired then
        finalizedTimestamp.Some? && d.auth.Some? && finalizedTimestamp.value > d.auth.value.authorization.deadline
      else
        && (reason == RefundAmountTooSmall || reason == InvalidRecipient) && finalizedTimestamp.None?
        && d.auth.Some? && d.auth.value.signature.None?
    case AuthorizationAvailable(_) =>
      && reason == AuthorizationExpired && finalizedTimestamp.Some? && d.auth.Some?
      && finalizedTimestamp.value > d.auth.value.authorization.deadline
    case _ => false
  }

  predicate MintAccepted(d: Deposit, e: MintEvidence) {
    && d.auth.Some?
    && var r := d.auth.value; var a := r.authorization;
    && r.signature.Some? && e.digest == r.digest && e.depositId == a.depositId && e.recipient == a.recipient
    && e.chainId == r.domain.chainId && e.verifyingContract == r.domain.verifyingContract
    && e.grossAmount == a.grossAmount && e.chargedServiceFee == a.chargedServiceFee
    && a.chargedServiceFee <= a.grossAmount && e.mintedAmount == a.grossAmount - a.chargedServiceFee
    && e.receiptBlock >= r.origin.blockNumber
    && e.receiptSucceeded && e.receiptBlock <= e.finalizedBlock
    && e.transactionHash != 0 && e.receiptBlockHash != 0 && e.finalizedBlockHash != 0
    && e.requestDigest != 0 && e.responseDigest != 0
  }

  /** Expiry evidence binds this authorization to a finalized block past the deadline with no mint. */
  predicate ExpiryMatches(d: Deposit, e: ExpiryEvidence) {
    && d.auth.Some?
    && var r := d.auth.value;
    && e.digest == r.digest && e.depositId == r.authorization.depositId
    && e.chainId == r.domain.chainId && e.verifyingContract == r.domain.verifyingContract
    && e.finalizedBlock >= r.origin.blockNumber && e.finalizedBlockHash != 0 && e.runtimeHash != 0
    && e.requestDigest != 0 && e.responseDigest != 0
    && !e.processed && e.finalizedTimestamp > r.authorization.deadline
  }

  predicate RefundAttemptMatches(d: Deposit, a: Attempt) {
    && a.number == 0 && a.identity.operation == RefundDeposit && a.identity.spender.None?
    && a.identity.from == d.transfer.to && a.identity.to == d.transfer.from
    && a.identity.amount + a.identity.fee <= U128_MAX
    && a.identity.amount + a.identity.fee + ChargedFee(d) <= U128_MAX
    && a.identity.amount + a.identity.fee + ChargedFee(d) == d.gross
  }

  predicate RefundPolicyMatches(d: Deposit, reason: RefundReason, expiry: Option<ExpiryEvidence>) {
    && d.state.RefundAvailable? && d.state.reason == reason
    && if Signed(d) then reason == AuthorizationExpired && expiry.Some? && ExpiryMatches(d, expiry.value)
       else expiry.None?
  }

  predicate GuardAccepts(d: Deposit, e: DepositEvent) {
    match e
    case CommitAuthorization(q, r) => CommitAccepted(d, q, r)
    case AuthorizationSigned(s, t) => SignatureAccepted(d, s, t)
    case MarkRefundAvailable(reason, t) => MarkAccepted(d, reason, t)
    case MintReconciled(ev) => MintAccepted(d, ev)
    case StartRefund(reason, a, expiry) => RefundAttemptMatches(d, a) && RefundPolicyMatches(d, reason, expiry)
    case _ => true
  }

  function GuardError(d: Deposit, e: DepositEvent): CoreError {
    match e
    case CommitAuthorization(q, r) =>
      if q.netAmount == 0 then InvalidAmount
      else if q.netAmount + q.serviceFee > U128_MAX then ArithmeticOverflow
      else if q.netAmount + q.serviceFee != d.gross then InvalidAmount
      else if r.origin.issuedAt + TTL_SECONDS > U64_MAX then ArithmeticOverflow
      else ConflictingReplay
    case AuthorizationSigned(_, _) => ConflictingReplay
    case MintReconciled(_) => ConflictingReplay
    case StartRefund(_, _, _) => RefundIneligible
    case _ => InvalidTransition
  }

  /** Replaying the fact that already produced the current phase is not an error. */
  predicate IsReplay(d: Deposit, e: DepositEvent) {
    match e
    case FundingSucceeded(b) => StateBlocks(d.state).0 == Some(b)
    case FundingAmbiguous(h) => d.state == FundingHold(h)
    case FundingFailed(c) => d.state == Cancelled(None, None, Some(c))
    case CommitAuthorization(q, r) =>
      && (d.state.AuthorizationPending? || d.state.AuthorizationAvailable? || d.state.RefundAvailable? || d.state.Minted?)
      && d.quote == Some(q) && d.auth == Some(r)
    case AuthorizationSigned(s, _) =>
      d.state.AuthorizationAvailable? && d.auth.Some? && d.auth.value.signature == Some(s)
    case MarkRefundAvailable(reason, _) => d.state.RefundAvailable? && d.state.reason == reason
    case MintReconciled(ev) => d.state.Minted? && d.mintEvidence == Some(ev)
    case StartRefund(reason, a, expiry) =>
      d.state.RefundPending? && d.state.reason == reason && d.state.attempt == a && d.expiryEvidence == expiry
    case RefundSucceeded(b) => d.state.Refunded? && d.state.refund == b && d.state.source.None?
    case RefundAmbiguous(h) => d.state.RefundHold? && d.state.hold == h
  }

  function LedgerFact(e: DepositEvent): (nat, nat) {
    match e
    case FundingSucceeded(b) => (1, b)
    case RefundSucceeded(b) => (2, b)
    case _ => (0, 0)
  }

  datatype DepositOutcome = Applied(next: Deposit, feeCredit: nat) | Replayed | Rejected(error: CoreError)

  /** What one fact does to a deposit. This is the specification that the record's own update code meets. */
  function Step(d: Deposit, e: DepositEvent): DepositOutcome {
    var blocks := StateBlocks(d.state);
    if DepositBlocks(blocks.0, blocks.1, LedgerFact(e).0, LedgerFact(e).1).None? then Rejected(LedgerBlockConflict)
    else if ReservationActive(StateCode(d.state)) && d.quote.None? then Rejected(InvalidTransition)
    else if IsReplay(d, e) then Replayed
    else if !GuardAccepts(d, e) then Rejected(GuardError(d, e))
    else NextPhase(d, e)
  }

  function NextPhase(d: Deposit, e: DepositEvent): DepositOutcome
    requires GuardAccepts(d, e)
  {
    match e
    case FundingSucceeded(b) =>
      if d.state.FundingPending? then Applied(Unquoted(d, EscrowedUnquoted(b)), 0) else Rejected(InvalidTransition)
    case FundingAmbiguous(h) =>
      if d.state.FundingPending? then Applied(Unquoted(d, FundingHold(h)), 0) else Rejected(InvalidTransition)
    case FundingFailed(c) =>
      if d.state.FundingPending? then Applied(Unquoted(d, Cancelled(None, None, Some(c))), 0) else Rejected(InvalidTransition)
    case CommitAuthorization(q, r) =>
      if d.state.EscrowedUnquoted? then
        Applied(d.(state := AuthorizationPending(d.state.funding), quote := Some(q), auth := Some(r),
                   mintEvidence := None, expiryEvidence := None), 0)
      else Rejected(InvalidTransition)
    case AuthorizationSigned(s, _) =>
      if d.state.AuthorizationPending? && d.quote.Some? then
        Applied(d.(state := AuthorizationAvailable(d.state.funding),
                   auth := Some(d.auth.value.(signature := Some(s)))), d.quote.value.serviceFee)
      else Rejected(InvalidTransition)
    case MarkRefundAvailable(reason, _) =>
      if d.state.EscrowedUnquoted? || d.state.AuthorizationPending? || d.state.AuthorizationAvailable? then
        Applied(d.(state := RefundAvailable(reason, d.state.funding)), 0)
      else Rejected(InvalidTransition)
    case MintReconciled(ev) =>
      if d.state.AuthorizationAvailable? || d.state.RefundAvailable? then
        Applied(d.(state := Minted(d.state.funding), mintEvidence := Some(ev), expiryEvidence := None), 0)
      else Rejected(InvalidTransition)
    case StartRefund(reason, a, expiry) =>
      if d.state.RefundAvailable? then
        Applied(d.(state := RefundPending(reason, d.state.funding, a), expiryEvidence := expiry), 0)
      else Rejected(InvalidTransition)
    case RefundSucceeded(b) =>
      if d.state.RefundPending? then
        Applied(d.(state := Refunded(d.state.reason, d.state.funding, d.state.attempt, b, None)), 0)
      else Rejected(InvalidTransition)
    case RefundAmbiguous(h) =>
      if d.state.RefundPending? then
        Applied(d.(state := RefundHold(d.state.reason, d.state.funding, h, d.state.attempt)), 0)
      else Rejected(InvalidTransition)
  }

  function Unquoted(d: Deposit, s: DepositState): Deposit {
    d.(state := s, quote := None, auth := None, mintEvidence := None, expiryEvidence := None)
  }

  /** What every stored deposit satisfies: which optional parts each phase carries, and how amounts add up. */
  predicate WellFormed(d: Deposit) {
    && d.gross > 0 && d.transfer.amount == d.gross && d.transfer.operation == PullDeposit
    && (d.quote.Some? <==> d.auth.Some?)
    && (d.quote.Some? ==> QuoteValid(d.quote.value, d.gross) && AuthorizationFits(d))
    && match d.state {
      case FundingPending => d.quote.None?
      case FundingHold(_) => d.quote.None?
      case EscrowedUnquoted(_) => d.quote.None?
      case Cancelled(_, _, _) => d.quote.None?
      case AuthorizationPending(_) => d.quote.Some? && !Signed(d)
      case AuthorizationAvailable(_) => Signed(d)
      case RefundAvailable(_, _) => true
      case Minted(_) => Signed(d)
      case RefundPending(_, _, a) => RefundFits(d, a)
      case RefundHold(_, _, _, a) => RefundFits(d, a)
      case Refunded(_, _, a, _, _) => RefundFits(d, a)
    }
  }

  predicate AuthorizationFits(d: Deposit)
    requires d.quote.Some? && d.auth.Some?
  {
    var a := d.auth.value.authorization;
    a.depositId == d.id && a.grossAmount == d.gross && a.chargedServiceFee == d.quote.value.serviceFee
  }

  /** A refund attempt takes exactly what the escrow still owes, and a signed deposit kept its expiry proof. */
  predicate RefundFits(d: Deposit, a: Attempt) {
    && a.identity.operation == RefundDeposit
    && a.identity.amount + a.identity.fee + ChargedFee(d) == d.gross <= U128_MAX
    && (Signed(d) ==> d.expiryEvidence.Some? && ExpiryMatches(d, d.expiryEvidence.value))
  }

  predicate HasAttempt(s: DepositState) {
    s.RefundPending? || s.RefundHold? || s.Refunded?
  }

  lemma AcceptWellFormed(id: nat, gross: nat, maxServiceFee: nat, transfer: Transfer)
    ensures Accept(id, gross, maxServiceFee, transfer).Ok? ==>
      WellFormed(Accept(id, gross, maxServiceFee, transfer).value)
  {
  }

  /** Every applied fact keeps a deposit well formed and leaves its identity and amounts alone. */
  lemma StepKeepsWellFormed(d: Deposit, e: DepositEvent)
    requires WellFormed(d) && Step(d, e).Applied?
    ensures WellFormed(Step(d, e).next)
    ensures var n := Step(d, e).next; n.id == d.id && n.gross == d.gross && n.transfer == d.transfer
    ensures var n := Step(d, e).next; Signed(d) ==> Signed(n) && n.auth.value.authorization == d.auth.value.authorization
    ensures ChargedFee(Step(d, e).next) == ChargedFee(d) + Step(d, e).feeCredit
    ensures HasAttempt(d.state) ==> HasAttempt(Step(d, e).next.state) && Step(d, e).next.state.attempt == d.state.attempt
  {
  }
}
