/** Runs of the bridge, written down world by world. */
module BridgeRuns {
  import opened Prelude
  import opened Kernel
  import opened Deposits
  import opened BridgeWorld

  datatype Trace = Trace(worlds: seq<World>, actions: seq<Action>)

  predicate Taken(r: Trace, k: nat)
    requires k < |r.actions| && |r.worlds| == |r.actions| + 1
  {
    Next(r.worlds[k], r.actions[k]) == Some(r.worlds[k + 1])
  }

  /** The trace leads from one world to the other, and every action of it was possible. */
  predicate Leads(r: Trace, w: World, v: World) {
    && |r.worlds| == |r.actions| + 1 && r.worlds[0] == w && r.worlds[|r.actions|] == v
    && forall k {:trigger Taken(r, k)} | 0 <= k < |r.actions| :: Taken(r, k)
  }

  lemma Start(w: World) returns (r: Trace)
    ensures Leads(r, w, w)
  {
    r := Trace([w], []);
  }

  lemma Take(r: Trace, w: World, v: World, a: Action) returns (more: Trace)
    requires Leads(r, w, v) && Next(v, a).Some?
    ensures Leads(more, w, Next(v, a).value)
  {
    more := Trace(r.worlds + [Next(v, a).value], r.actions + [a]);
    forall k | 0 <= k < |more.actions| ensures Taken(more, k) {
      assert k < |r.actions| ==> Taken(r, k);
    }
  }

  lemma {:induction false} LeadsAfter(r: Trace, w: World, v: World)
    requires Leads(r, w, v)
    ensures After(w, r.actions) == v
    decreases |r.actions|
  {
    var n := |r.actions|;
    if n > 0 {
      var before := Trace(r.worlds[..n], r.actions[..n - 1]);
      forall k | 0 <= k < n - 1 ensures Taken(before, k) {
        assert Taken(r, k);
      }
      LeadsAfter(before, w, r.worlds[n - 1]);
      assert Taken(r, n - 1);
    }
  }

  // The actions the runs below are made of.

  lemma TakeAccept(r: Trace, w: World, v: World, gross: nat, fee: nat, t: Transfer) returns (more: Trace)
    requires Leads(r, w, v) && Accept(|v.deposits|, gross, fee, t).Ok? && gross <= U128_MAX
    ensures Leads(more, w, v.(deposits := v.deposits + [Accept(|v.deposits|, gross, fee, t).value]))
  {
    more := Take(r, w, v, AcceptDeposit(gross, fee, t));
  }

  lemma TakeFact(r: Trace, w: World, v: World, i: nat, e: DepositEvent) returns (more: Trace)
    requires Leads(r, w, v) && NextDepositFact(v, i, e).Some?
    ensures Leads(more, w, NextDepositFact(v, i, e).value)
  {
    more := Take(r, w, v, LearnDeposit(i, e));
  }

  lemma TakeDispatch(r: Trace, w: World, v: World, i: nat) returns (more: Trace)
    requires Leads(r, w, v) && NextDispatch(v, i).Some?
    ensures Leads(more, w, NextDispatch(v, i).value)
  {
    more := Take(r, w, v, DispatchSignature(i));
  }

  lemma TakeRequestPayout(r: Trace, w: World, v: World, t: Transfer) returns (more: Trace)
    requires Leads(r, w, v) && NextRequestPayout(v, t).Some?
    ensures Leads(more, w, NextRequestPayout(v, t).value)
  {
    more := Take(r, w, v, RequestPayout(t));
  }

  lemma TakePayoutFact(r: Trace, w: World, v: World, p: nat, f: PayoutFact) returns (more: Trace)
    requires Leads(r, w, v) && NextPayoutFact(v, p, f).Some?
    ensures Leads(more, w, NextPayoutFact(v, p, f).value)
  {
    more := Take(r, w, v, LearnPayout(p, f));
  }

  lemma TakeSend(r: Trace, w: World, v: World, owner: Owner) returns (more: Trace)
    requires Leads(r, w, v) && InFlight(v, owner).Some?
    ensures Leads(more, w, v.(sent := v.sent + {Block(owner, InFlight(v, owner).value)}))
  {
    more := Take(r, w, v, SendTransfer(owner));
  }

  lemma TakeLedger(r: Trace, w: World, v: World, owner: Owner, t: Transfer) returns (more: Trace)
    requires Leads(r, w, v) && NextLedger(v, owner, t).Some?
    ensures Leads(more, w, v.(ledger := v.ledger + [Block(owner, t)]))
  {
    more := Take(r, w, v, LedgerExecutes(owner, t));
  }

  function Later(a: nat, b: nat): nat {
    if a < b then b else a
  }

  /** The ledger's clock may run on at any time. */
  lemma TakeTime(r: Trace, w: World, v: World, at: nat) returns (more: Trace)
    requires Leads(r, w, v) && v.clock <= v.ledgerClock && v.clock <= U64_MAX
    ensures Leads(more, w, v.(ledgerClock := Later(v.ledgerClock, at)))
  {
    more := Take(r, w, v, Tick(v.clock, Later(v.ledgerClock, at)));
  }
}
