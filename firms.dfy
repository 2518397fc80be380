/** Firms. The firm module of the engine is not part of this model (its file
    holds an empty class); what is here is the state the controller and the
    consumers read and write — the portfolio, the budget, the sales, market
    share and profit series, the green-adoption marker — and the operations
    the controller calls, each stated only by what it records and by the
    state the controller reads afterwards. Outcomes that the missing code
    would compute (profits, shares, budget changes, the region and budget of
    a new firm) are inputs, given by a FirmOracle. */
module Firms {
  import opened Config
  import opened Cars

  /** One call of a firm operation, in the period it was made. */
  datatype FirmStep =
    | ProfitUpdated(t: nat)
    | ShareUpdated(t: nat)
    | BudgetUpdated(t: nat)
    | PortfolioChanged(t: nat)
    | PortfolioAbandoned(t: nat)
    | RdInvested(t: nat)

  /** What the firm operations compute, by firm id and period: the period's
      profit, the change of budget, the total and per-technology market
      shares, and a firm's region and starting budget. */
  datatype FirmOracle = FirmOracle(
    profit: (nat, nat) -> real,
    budgetDelta: (nat, nat) -> real,
    totalShare: (nat, nat) -> real,
    techShare: (nat, Tech, nat) -> real,
    region: nat -> Region,
    budget: nat -> real)
  {
    /** Market shares are never negative (they weigh the imitation draw). */
    ghost predicate WellFormed() {
      forall i: nat, s: nat :: totalShare(i, s) >= 0.0
    }
  }

  /** The steps a firm records in one offer pass: profit, share and budget,
      then, unless bankrupt, a portfolio change after period 9, abandonment
      and R&D. */
  function OfferSteps(t: nat, bankrupt: bool): (steps: seq<FirmStep>)
    ensures |steps| == if bankrupt then 3 else if t > 9 then 6 else 5
    ensures steps[..3] == [ProfitUpdated(t), ShareUpdated(t), BudgetUpdated(t)]
    ensures PortfolioChanged(t) in steps <==> !bankrupt && t > 9
    ensures RdInvested(t) in steps <==> !bankrupt
  {
    var head := [ProfitUpdated(t), ShareUpdated(t), BudgetUpdated(t)];
    if bankrupt then head
    else if t > 9 then head + [PortfolioChanged(t), PortfolioAbandoned(t), RdInvested(t)]
    else head + [PortfolioAbandoned(t), RdInvested(t)]
  }

  /** The part of a firm an offer pass writes: the budget, the profit and
      market-share series and the steps recorded. */
  datatype Books = Books(budget: real, profit: map<nat, real>, totalShare: map<nat, real>,
                         techShare: map<(Tech, nat), real>, history: seq<FirmStep>)

  /** Firm id's books after its turn of the offer pass of period t: the
      period's profit, total and per-technology shares recorded, the
      budget changed by the period's outcome, and the steps of OfferSteps,
      bankrupt when the new budget is negative. */
  function Tended(b: Books, id: nat, t: nat, o: FirmOracle): Books
  {
    var budget := b.budget + o.budgetDelta(id, t);
    Books(budget, b.profit[t := o.profit(id, t)], b.totalShare[t := o.totalShare(id, t)],
          b.techShare[(Gas, t) := o.techShare(id, Gas, t)][(Green, t) := o.techShare(id, Green, t)],
          b.history + OfferSteps(t, budget < 0.0))
  }

  /** A vehicle manufacturer: a region, a budget, a portfolio of at most one
      vehicle per technology (`techs` keeps the order the portfolio's keys
      were inserted in), and its per-period series. */
  class Firm {
    const id: nat
    const region: Region
    var budget: real
    var cars: map<Tech, Vehicle>
    var techs: seq<Tech>
    var soldCars: map<(Tech, nat), nat>
    var profit: map<nat, real>
    var totalShare: map<nat, real>
    var techShare: map<(Tech, nat), real>
    var greenAdoptionMarker: Option<nat>
    var history: seq<FirmStep>

    /** Each portfolio entry is a vehicle of its own technology with positive
        characteristics and price; `techs` lists the portfolio's keys once
        each; recorded total shares are non-negative. */
    ghost predicate Valid(p: Params)
      reads this`cars, this`techs, this`totalShare, cars.Values`salesPrice
    {
      && (forall k :: k in cars ==>
            && cars[k].tech == k
            && cars[k].productionCost > 0.0 && cars[k].ee > 0.0 && cars[k].ec > 0.0
            && cars[k].salesPrice > 0.0)
      && (forall i, j :: 0 <= i < j < |techs| ==> techs[i] != techs[j])
      && (forall k :: k in cars <==> k in techs)
      && (forall s :: s in totalShare ==> totalShare[s] >= 0.0)
    }

    /** The firm's books (see Books). */
    function Ledger(): Books
      reads this`budget, this`profit, this`totalShare, this`techShare, this`history
    {
      Books(budget, profit, totalShare, techShare, history)
    }

    /** `sold_cars[tech][t]`, a counter that starts at 0. */
    function SoldCount(tech: Tech, t: nat): nat
      reads this`soldCars
    {
      if (tech, t) in soldCars then soldCars[(tech, t)] else 0
    }

    /** `market_share['total'][t]`, 0 before it is recorded. */
    function TotalShareAt(t: nat): real
      reads this`totalShare
    {
      if t in totalShare then totalShare[t] else 0.0
    }

    /** `market_share[tech][t]`, 0 before it is recorded. */
    function TechShareAt(tech: Tech, t: nat): real
      reads this`techShare
    {
      if (tech, t) in techShare then techShare[(tech, t)] else 0.0
    }

    predicate Bankrupt()
      reads this`budget
    {
      budget < 0.0
    }

    /** A firm with no history; with `withGas` its portfolio is one gas
        vehicle at the baseline characteristics, otherwise it is empty. */
    constructor (id: nat, region: Region, budget: real, withGas: bool,
                 p: Parameters, pol: Policy, e: real)
      ensures this.id == id && this.region == region && this.budget == budget
      ensures withGas ==> techs == [Gas] && cars.Keys == {Gas} && fresh(cars[Gas])
      ensures withGas ==> (cars[Gas].productionCost == p.productionCost(Gas)
                           && cars[Gas].ee == p.energyEconomy(Gas) && cars[Gas].ec == p.energyCapacity(Gas))
      ensures !withGas ==> techs == [] && cars == map[]
      ensures soldCars == map[] && profit == map[] && totalShare == map[] && techShare == map[]
      ensures greenAdoptionMarker == None && history == []
      ensures Valid(p)
    {
      this.id, this.region, this.budget := id, region, budget;
      soldCars, profit, totalShare, techShare := map[], map[], map[], map[];
      greenAdoptionMarker, history := None, [];
      if withGas {
        var car := new Vehicle(p, pol, e, Gas, None, None, None, None);
        cars, techs := map[Gas := car], [Gas];
      } else {
        cars, techs := map[], [];
      }
    }

    /** `update_profit`: records the period's profit. */
    method UpdateProfit(t: nat, o: FirmOracle)
      modifies this`profit, this`history
      ensures profit == old(profit)[t := o.profit(id, t)]
      ensures history == old(history) + [ProfitUpdated(t)]
    {
      profit := profit[t := o.profit(id, t)];
      history := history + [ProfitUpdated(t)];
    }

    /** `update_market_share`: records the period's total and per-technology
        shares. */
    method UpdateMarketShare(t: nat, o: FirmOracle, ghost p: Params)
      requires Valid(p) && o.WellFormed()
      modifies this`totalShare, this`techShare, this`history
      ensures totalShare == old(totalShare)[t := o.totalShare(id, t)]
      ensures techShare == old(techShare)[(Gas, t) := o.techShare(id, Gas, t)]
                                           [(Green, t) := o.techShare(id, Green, t)]
      ensures history == old(history) + [ShareUpdated(t)]
      ensures Valid(p)
    {
      totalShare := totalShare[t := o.totalShare(id, t)];
      techShare := techShare[(Gas, t) := o.techShare(id, Gas, t)][(Green, t) := o.techShare(id, Green, t)];
      history := history + [ShareUpdated(t)];
    }

    /** `update_budget`: adds the period's change to the budget. */
    method UpdateBudget(t: nat, o: FirmOracle)
      modifies this`budget, this`history
      ensures budget == old(budget) + o.budgetDelta(id, t)
      ensures history == old(history) + [BudgetUpdated(t)]
    {
      budget := budget + o.budgetDelta(id, t);
      history := history + [BudgetUpdated(t)];
    }

    /** `change_portfolio`: recorded only; its decision logic is not part of
        this model. */
    method ChangePortfolio(t: nat)
      modifies this`history
      ensures history == old(history) + [PortfolioChanged(t)]
    {
      history := history + [PortfolioChanged(t)];
    }

    /** `abandon_portfolio`: recorded only. */
    method AbandonPortfolio(t: nat)
      modifies this`history
      ensures history == old(history) + [PortfolioAbandoned(t)]
    {
      history := history + [PortfolioAbandoned(t)];
    }

    /** `invest_rd`: recorded only. */
    method InvestRd(t: nat)
      modifies this`history
      ensures history == old(history) + [RdInvested(t)]
    {
      history := history + [RdInvested(t)];
    }

    /** `cars[car.tech] = car`: the portfolio holds the car under its
        technology; a technology not held before joins the end of the key
        order. A car with positive characteristics and price keeps the
        portfolio valid. */
    method Adopt(car: Vehicle, ghost p: Params)
      modifies this`cars, this`techs
      ensures cars == old(cars)[car.tech := car]
      ensures techs == if car.tech in old(cars) then old(techs) else old(techs) + [car.tech]
      ensures old(Valid(p)) && car.productionCost > 0.0 && car.ee > 0.0 && car.ec > 0.0 && car.salesPrice > 0.0
              ==> Valid(p)
    {
      if car.tech !in cars {
        techs := techs + [car.tech];
      }
      cars := cars[car.tech := car];
    }

    /** `sales(tech)`: one more unit of `tech` sold in period t; no other
        counter changes. */
    method Sales(tech: Tech, t: nat)
      modifies this`soldCars
      ensures SoldCount(tech, t) == old(SoldCount(tech, t)) + 1
      ensures forall k: Tech, s: nat :: (k, s) != (tech, t) ==> SoldCount(k, s) == old(SoldCount(k, s))
    {
      soldCars := soldCars[(tech, t) := SoldCount(tech, t) + 1];
    }
  }
}
