/** When a held payout may be recorded as failed because the ledger refused to accept it again. */
module PayoutRefusal {
  import opened Prelude
  import opened Deposits
  import opened Accounting
  import opened BridgeWorld
  import opened BridgeInvariant
  import opened BridgeMoves
  import opened BridgeRequests
  import opened BridgeSafety
  import opened BridgeRuns
  import opened BridgeWindow

  /** A payout whose answer was lost. */
  predicate Held(w: World, p: nat) {
    p < |w.payouts| && w.payouts[p].state.PayoutHold?
  }

  /** What the canister does when sending it again is refused, for instance because the ledger changed its fee. */
  function Refused(w: World, p: nat): World
    requires Held(w, p)
  {
    w.(payouts := w.payouts[p := w.payouts[p].(state := PayoutFailed)])
  }

  /** The first request has been executed, or may still be. */
  predicate Outstanding(w: World, p: nat)
    requires Held(w, p)
  {
    var t := w.payouts[p].transfer;
    Executed(w.ledger, Payout(p), t) || (Block(Payout(p), t) in w.sent && !TooOld(t, w.ledgerClock))
  }

  predicate StaysBacked(w: World, run: seq<Action>) {
    Backing(After(w, run))
  }

  /** Taking a refusal as final keeps backing in every continuation if and only if no earlier request is outstanding. */
  lemma RefusalIsExact(w: World, p: nat)
    requires Invariant(w) && RequestsOk(w) && Held(w, p)
    ensures (forall run :: StaysBacked(Refused(w, p), run)) <==> !Outstanding(w, p)
  {
    if Outstanding(w, p) {
      var run := RefusalBreaksBacking(w, p);
      assert !StaysBacked(Refused(w, p), run);
    } else {
      RefusalKeepsInvariant(w, p);
      forall run ensures StaysBacked(Refused(w, p), run) {
        RunKeepsInvariant(Refused(w, p), run);
      }
    }
  }

  lemma RefusalKeepsInvariant(w: World, p: nat)
    requires Invariant(w) && RequestsOk(w) && Held(w, p) && !Outstanding(w, p)
    ensures Invariant(Refused(w, p)) && RequestsOk(Refused(w, p))
  {
    var idle := w.(sent := {});
    KeepRequest(w, idle);
    KeepPayoutFact(idle, p, NotPaid);
    KeepRequest(Refused(idle, p), Refused(w, p));
    forall owner ensures Leaves(w, Refused(w, p), owner) {
    }
    RecordsKeepRequests(w, Refused(w, p));
  }

  /** A payout that was executed and is recorded as failed stays in the books forever. */
  lemma RefusalUnbacks(w: World, p: nat)
    requires Invariant(w) && Held(w, p) && Executed(w.ledger, Payout(p), w.payouts[p].transfer)
    ensures !Backing(Refused(w, p))
  {
    var b := w.chain[w.finalized];
    assert Backed(w, b) && PayoutOk(w, p);
    PayoutSums(w, p, Refused(w, p).payouts[p]);
    assert !Backed(Refused(w, p), b);
  }

  /** Outstanding, it leaves the escrow without leaving the reserve: at once, or when the ledger executes it late. */
  lemma RefusalBreaksBacking(w: World, p: nat) returns (run: seq<Action>)
    requires Invariant(w) && RequestsOk(w) && Held(w, p) && Outstanding(w, p)
    ensures !StaysBacked(Refused(w, p), run)
  {
    var t := w.payouts[p].transfer;
    if Executed(w.ledger, Payout(p), t) {
      RefusalUnbacks(w, p);
      run := [];
    } else {
      run := LateRefusal(w, p);
    }
  }

  lemma LateRefusal(w: World, p: nat) returns (run: seq<Action>)
    requires Invariant(w) && RequestsOk(w) && Held(w, p) && Outstanding(w, p)
    requires !Executed(w.ledger, Payout(p), w.payouts[p].transfer)
    ensures !StaysBacked(Refused(w, p), run)
  {
    var t, u := w.payouts[p].transfer, Refused(w, p);
    InFlightIsCovered(w, Payout(p), t);
    var later := w.(ledgerClock := Later(w.ledgerClock, t.createdAt));
    KeepRequest(w, later);
    KeepLedger(later, Payout(p), t);
    var v := later.(ledger := w.ledger + [Block(Payout(p), t)]);
    RefusalUnbacks(v, p);
    var r := Start(u);
    r := TakeTime(r, u, u, t.createdAt);
    r := TakeLedger(r, u, Refused(later, p), Payout(p), t);
    LeadsAfter(r, u, Refused(v, p));
    run := r.actions;
  }

  // Such worlds are reached: a signed deposit earns a fee, it is paid out, and the answer is lost.

  const QUOTE := Quote(2, 2)

  function Record(signature: Option<seq<nat>>, dispatched: bool): AuthorizationRecord {
    AuthorizationRecord(
      Authorization(0, 1, 4, 4, 2, TTL_SECONDS, 1), Domain(DOMAIN_NAME, DOMAIN_VERSION, 1, 1), 1, Origin(0, 1, 0),
      if dispatched then 1 else 0, dispatched, signature)
  }

  function Signature(): (s: seq<nat>)
    ensures |s| == 65
  {
    seq(65, _ => 0)
  }

  function Authorized(at: nat, state: DepositState, record: AuthorizationRecord): Deposit {
    Fresh(0, at, 4).(state := state, quote := Some(QUOTE), auth := Some(record))
  }

  lemma SigningSteps(at: nat)
    ensures Step(Fresh(0, at, 4), FundingSucceeded(0)) == Applied(Fresh(0, at, 4).(state := EscrowedUnquoted(0)), 0)
    ensures Step(Fresh(0, at, 4).(state := EscrowedUnquoted(0)), CommitAuthorization(QUOTE, Record(None, false)))
      == Applied(Authorized(at, AuthorizationPending(0), Record(None, false)), 0)
    ensures Step(Authorized(at, AuthorizationPending(0), Record(None, true)), AuthorizationSigned(Signature(), 0))
      == Applied(Authorized(at, AuthorizationAvailable(0), Record(Some(Signature()), true)), 2)
  { }

  /** The world in which the deposit was signed and has earned its fee. */
  function Earned(v: World, at: nat): World {
    v.(deposits := [Authorized(at, AuthorizationAvailable(0), Record(Some(Signature()), true))], books := Books(2, 2, 0))
  }

  lemma EarnFee(r: Trace, w: World, v: World, at: nat) returns (more: Trace)
    requires Leads(r, w, v) && Single(v, Fresh(0, at, 4)) && BlockIs(v.ledger, 0, Funding(0), Pull(at, 4))
    ensures Leads(more, w, Earned(v, at))
  {
    SigningSteps(at);
    var d1 := Fresh(0, at, 4).(state := EscrowedUnquoted(0));
    var d2 := Authorized(at, AuthorizationPending(0), Record(None, false));
    var d3 := Authorized(at, AuthorizationPending(0), Record(None, true));
    more := Learn(r, w, v, FundingSucceeded(0), d1, 0);
    more := Learn(more, w, v.(deposits := [d1]), CommitAuthorization(QUOTE, Record(None, false)), d2, 0);
    more := TakeDispatch(more, w, v.(deposits := [d2]), 0);
    assert NextDispatch(v.(deposits := [d2]), 0).value.deposits == [d3];
    more := Learn(more, w, v.(deposits := [d3]), AuthorizationSigned(Signature(), 0), Earned(v, at).deposits[0], 2);
  }

  function Out(at: nat): Transfer {
    Transfer(FeePayout, at, 0, 1, 1, ANYONE, ANYONE, None)
  }

  /** The fee is paid out, and the answer is lost. */
  lemma PayOut(r: Trace, w: World, v: World, at: nat) returns (more: Trace, u: World)
    requires Leads(r, w, v) && v.payouts == [] && v.books == Books(2, 2, 0) && v.ledgerClock == at
    ensures Leads(more, w, u) && Held(u, 0) && Outstanding(u, 0)
  {
    more := TakeRequestPayout(r, w, v, Out(at));
    u := NextRequestPayout(v, Out(at)).value;
    more := TakeSend(more, w, u, Payout(0));
    u := u.(sent := u.sent + {Block(Payout(0), Out(at))});
    more := TakePayoutFact(more, w, u, 0, PayoutUnknown);
    u := NextPayoutFact(u, 0, PayoutUnknown).value;
  }

  lemma LostPayout(w: World) returns (r: Trace, v: World)
    requires Initial(w)
    ensures Leads(r, w, v) && Held(v, 0) && Outstanding(v, 0)
  {
    r := Start(w);
    r := Fund(r, w, w, 4);
    r := EarnFee(r, w, Funded(w, 4), w.ledgerClock);
    r, v := PayOut(r, w, Earned(Funded(w, 4), w.ledgerClock), w.ledgerClock);
  }

  /** From every start of the bridge a run leads to a held payout for which taking a refusal as final loses backing. */
  lemma OutstandingIsReachable(w: World) returns (run: seq<Action>, more: seq<Action>)
    requires Initial(w)
    ensures Held(After(w, run), 0) && Outstanding(After(w, run), 0)
    ensures !StaysBacked(Refused(After(w, run), 0), more)
  {
    var r, v := LostPayout(w);
    LeadsAfter(r, w, v);
    run := r.actions;
    Reachable(w, run);
    more := RefusalBreaksBacking(v, 0);
  }
}
