/** The insurance pool inside the protocol: every token in it is accounted for by donations, stakes,
    withdrawals, yield, and the payouts recorded against defaulted invoices. */
module PoolCustody {
  import opened Base
  import opened Ledger
  import opened ProtocolRuns
  import opened RepaymentSteps
  import opened FinancingSteps
  import InsuranceSteps
  import InsuranceRuns
  import FlatPool
  import TierPools
  import RegistryRuns
  import NegotiationRuns

  ghost function SumOf(claims: seq<Claim>): int {
    if claims == [] then 0 else SumOf(claims[..|claims| - 1]) + claims[|claims| - 1].amount
  }

  ghost function PerInvoice(claims: map<Symbol, seq<Claim>>): map<Symbol, int> {
    map id | id in claims :: SumOf(claims[id])
  }

  /** All insurance ever paid for defaults. */
  ghost function ClaimsPaid(claims: map<Symbol, seq<Claim>>): int { Total(PerInvoice(claims)) }

  lemma NotedClaim(claims: map<Symbol, seq<Claim>>, id: Symbol, c: Claim)
    ensures ClaimsPaid(Noted(claims, id, c)) == ClaimsPaid(claims) + c.amount
  {
    var prior := GetOr(claims, id, []);
    assert (prior + [c])[..|prior|] == prior;
    assert SumOf(prior + [c]) == SumOf(prior) + c.amount;
    assert PerInvoice(Noted(claims, id, c)) == PerInvoice(claims)[id := SumOf(prior) + c.amount];
    hide Total;
    TotalSet(PerInvoice(claims), id, SumOf(prior) + c.amount);
  }

  /** The pool's books balance, the principal in it is what was staked and neither withdrawn nor paid
      for a default, and nothing is reserved. */
  ghost predicate Accounted(w: World) {
    && InsuranceRuns.Inv(Insuring(w))
    && InsuranceRuns.Principal(w.p.ins) == w.fund.staked - ClaimsPaid(w.claims)
    && w.p.ins.flat.book.outstanding == 0
  }

  /** Tokens held, in full. */
  lemma AccountedFor(w: World)
    requires Accounted(w)
    ensures InsuranceRuns.Held(w.p.ins) == w.fund.donated + w.fund.staked - w.fund.yieldPaid - ClaimsPaid(w.claims)
    ensures InsuranceRuns.Principal(w.p.ins) == w.fund.staked - ClaimsPaid(w.claims)
  {
    hide FlatPool.Books, TierPools.Books;
  }

  lemma InsuranceKeeps(w: World, op: InsuranceRuns.Op)
    requires Public(InInsurance(op)) && Accounted(w)
    ensures Accounted(InsuranceStep(w, op))
  {
    if InsuranceRuns.Apply(w.p.ins, op, w.now).Ok? {
      InsuranceRuns.StepKeeps(Insuring(w), op);
      InsuranceRuns.PrincipalMoves(w.p.ins, op, w.now);
      hide InsuranceRuns.Inv, InsuranceRuns.Apply, InsuranceRuns.Principal, InsuranceRuns.Largest,
           InsuranceRuns.YieldPaidBy, ClaimsPaid;
      assert Insuring(InsuranceStep(w, op)) == InsuranceRuns.Step(Insuring(w), op);
    }
  }

  /** The default payout is the one step that takes tokens out for a claim. */
  lemma ReclaimPays(s: Protocol, cfg: Config, invoice: Symbol, o: Symbol, lender: Party, now: Timestamp)
    requires Reclaim(s, cfg, invoice, o, lender, now).Ok?
    ensures var (t, payout) := Reclaim(s, cfg, invoice, o, lender, now).value;
            if cfg.insured
            then InsuranceSteps.PayOut(s.ins, true, lender, Exposure(s.market.fin.offers[o])) == Ok((t.ins, payout))
            else t.ins == s.ins && payout == 0
  {
    hide InsuranceSteps.PayOut, Exposure;
    assert Reclaimable(s, invoice, o, lender, now).Ok?;
  }

  lemma ReclaimKeeps(w: World, cfg: Config, invoice: Symbol, o: Symbol, lender: Party)
    requires Accounted(w)
    ensures Accounted(ReclaimStep(w, cfg, invoice, o, lender))
  {
    var r := Reclaim(w.p, cfg, invoice, o, lender, w.now);
    if r.Ok? {
      ReclaimPays(w.p, cfg, invoice, o, lender, w.now);
      hide Reclaim;
      if cfg.insured {
        PayoutKeeps(w, ReclaimStep(w, cfg, invoice, o, lender), invoice, o, lender, Exposure(w.p.market.fin.offers[o]));
      } else {
        hide InsuranceRuns.Inv, InsuranceRuns.Principal, ClaimsPaid;
        assert Insuring(ReclaimStep(w, cfg, invoice, o, lender)) == Insuring(w);
      }
    }
  }

  /** A payout as the insurance contract's own step. */
  lemma AsPoolStep(n: InsuranceRuns.World, lender: Party, amount: int)
    requires InsuranceSteps.PayOut(n.ins, true, lender, amount).Ok?
    ensures InsuranceRuns.Step(n, InsuranceRuns.DoPayOut(true, lender, amount))
            == n.(ins := InsuranceSteps.PayOut(n.ins, true, lender, amount).value.0)
  {
    hide InsuranceSteps.PayOut;
  }

  lemma PayoutKeeps(w: World, v: World, invoice: Symbol, o: Symbol, lender: Party, amount: int)
    requires Accounted(w) && InsuranceSteps.PayOut(w.p.ins, true, lender, amount).Ok?
    requires var (ins, payout) := InsuranceSteps.PayOut(w.p.ins, true, lender, amount).value;
             v.p.ins == ins && v.now == w.now && v.fund == w.fund
               && v.claims == Noted(w.claims, invoice, Claim(o, payout))
    ensures Accounted(v)
  {
    hide InsuranceSteps.PayOut, InsuranceRuns.Inv, InsuranceRuns.Principal, ClaimsPaid, InsuranceRuns.Step;
    var (ins, payout) := InsuranceSteps.PayOut(w.p.ins, true, lender, amount).value;
    InsuranceRuns.StepKeeps(Insuring(w), InsuranceRuns.DoPayOut(true, lender, amount));
    AsPoolStep(Insuring(w), lender, amount);
    PayoutMovesPrincipal(w.p.ins, lender, amount);
    NotedClaim(w.claims, invoice, Claim(o, payout));
  }

  lemma PayoutMovesPrincipal(s: InsuranceSteps.Insurance, lender: Party, amount: int)
    requires InsuranceSteps.PayOut(s, true, lender, amount).Ok?
    ensures var (t, payout) := InsuranceSteps.PayOut(s, true, lender, amount).value;
            && InsuranceRuns.Principal(t) == InsuranceRuns.Principal(s) - payout
            && t.flat.book.outstanding == s.flat.book.outstanding
  {
    InsuranceRuns.PayoutWithinPool(s, true, lender, amount);
    hide InsuranceSteps.Transfer;
  }

  lemma StepKeepsAccounts(w: World, cfg: Config, op: Op)
    requires Public(op) && Accounted(w)
    ensures Accounted(Step(w, cfg, op))
  {
    match op
    case InInsurance(i) => InsuranceKeeps(w, i);
    case DoReclaim(i, o, a) => ReclaimKeeps(w, cfg, i, o, a);
    case _ => SamePool(w, Step(w, cfg, op), cfg, op);
  }

  /** No other step touches the pool. */
  lemma SamePool(w: World, v: World, cfg: Config, op: Op)
    requires Accounted(w) && v == Step(w, cfg, op) && !op.InInsurance? && !op.DoReclaim?
    ensures Accounted(v)
  {
    assert v.p.ins == w.p.ins && v.fund == w.fund && v.claims == w.claims by { PoolUntouched(w, cfg, op); }
    hide ClaimsPaid, FlatPool.Books, TierPools.Books, Step;
  }

  lemma PoolUntouched(w: World, cfg: Config, op: Op)
    requires !op.InInsurance? && !op.DoReclaim?
    ensures var v := Step(w, cfg, op); v.p.ins == w.p.ins && v.fund == w.fund && v.claims == w.claims
  {
    hide RegistryStep, FinancingStep, Repay;
    match op
    case InRegistry(r) => RegistryLeavesPool(w, r);
    case InFinancing(f) => FinancingLeavesPool(w, f);
    case DoRepay(i, o, a, amount) =>
      if Repay(w.p, cfg, i, o, a, amount, w.now).Ok? { RepayShape(w.p, cfg, i, o, a, amount, w.now); }
    case _ =>
  }

  lemma RegistryLeavesPool(w: World, op: RegistryRuns.Op)
    ensures var v := RegistryStep(w, op); v.p.ins == w.p.ins && v.fund == w.fund && v.claims == w.claims
  {
    hide RegistryRuns.Apply, RegistryRuns.ChangeOf;
  }

  lemma FinancingLeavesPool(w: World, op: NegotiationRuns.Op)
    ensures var v := FinancingStep(w, op); v.p.ins == w.p.ins && v.fund == w.fund && v.claims == w.claims
  {
    hide NegotiationRuns.Apply, FundedBy;
  }

  lemma {:induction false} RunKeepsAccounts(w: World, calls: seq<Call>)
    requires AllPublic(calls) && Accounted(w)
    ensures Accounted(Run(w, calls))
    decreases |calls|
  {
    hide Accounted, Step;
    if calls != [] {
      StepKeepsAccounts(w, calls[0].cfg, calls[0].op);
      RunKeepsAccounts(Step(w, calls[0].cfg, calls[0].op), calls[1..]);
    }
  }

  lemma DeployedAccounted(blacklist: set<Address>, wallets: map<Address, int>, staking: map<Address, int>,
                          now: Timestamp)
    ensures Accounted(Deployed(blacklist, wallets, staking, now))
  {
    InsuranceRuns.DeployedSound(staking, now);
    assert Insuring(Deployed(blacklist, wallets, staking, now)) == InsuranceRuns.Deployed(staking, now);
    assert PerInvoice(map[]) == map[];
    hide InsuranceRuns.Inv;
  }

  /** On every run from deployment the pool holds exactly what was donated and staked, less what was
      withdrawn, the yield paid, and the payouts recorded for defaulted invoices: no token leaves it for
      a default without being counted as that invoice's one claim. */
  lemma EveryTokenIsAccountedFor(blacklist: set<Address>, wallets: map<Address, int>, staking: map<Address, int>,
                                 now: Timestamp, calls: seq<Call>)
    requires AllPublic(calls)
    ensures var w := Run(Deployed(blacklist, wallets, staking, now), calls);
            && InsuranceRuns.Held(w.p.ins) == w.fund.donated + w.fund.staked - w.fund.yieldPaid - ClaimsPaid(w.claims)
            && InsuranceRuns.Principal(w.p.ins) == w.fund.staked - ClaimsPaid(w.claims)
  {
    hide Accounted, Run, Deployed, ClaimsPaid, InsuranceRuns.Principal, InsuranceRuns.Held;
    DeployedAccounted(blacklist, wallets, staking, now);
    RunKeepsAccounts(Deployed(blacklist, wallets, staking, now), calls);
    AccountedFor(Run(Deployed(blacklist, wallets, staking, now), calls));
  }
}
