/** Vehicles (cars.py): drive range, emissions, the policy-dependent price
    and taxes, and the multi-criteria utility a consumer ranks a car by. */
module Cars {
  import opened Config
  import opened Arith

  /** The taxed sales price: every levy multiplies the production cost,
      `(1+pis)(1+cofins)(1+ipi)(1+p_lambda)(1+policy_tax) * cost`. */
  function SalesPrice(p: Params, tech: Tech, cost: real, policyTax: real): real
  {
    (1.0 + p.pis(tech)) * (1.0 + p.cofins(tech)) * (1.0 + p.ipi(tech))
      * (1.0 + p.pLambda) * (1.0 + policyTax) * cost
  }

  /** The taxes owed to government on one sale: the levy rates summed, times
      the production cost (the markup p_lambda is not a tax). */
  function OwedTaxes(p: Params, tech: Tech, cost: real, policyTax: real): real
  {
    (policyTax + p.pis(tech) + p.cofins(tech) + p.ipi(tech)) * cost
  }

  /** A product P that already covers 1 + s also covers 1 + s + x after one
      more factor (1 + x), for non-negative s and x. */
  lemma GrowthBound(prod: real, s: real, x: real)
    requires prod >= 1.0 + s && s >= 0.0 && x >= 0.0
    ensures prod * (1.0 + x) >= 1.0 + s + x
  {
    MulMono(1.0 + s, prod, 1.0 + x);
    MulNonneg(s, x);
  }

  /** With non-negative levies, markup and policy tax, the sales price pays
      the owed taxes and the production cost and leaves at least the markup
      p_lambda * cost to the seller. */
  lemma PriceCoversTaxesAndMarkup(p: Params, tech: Tech, cost: real, policyTax: real)
    requires p.pis(tech) >= 0.0 && p.cofins(tech) >= 0.0 && p.ipi(tech) >= 0.0 && p.pLambda >= 0.0
    requires cost >= 0.0 && policyTax >= 0.0
    ensures SalesPrice(p, tech, cost, policyTax)
      >= cost + OwedTaxes(p, tech, cost, policyTax) + p.pLambda * cost
  {
    var a, b, c := p.pis(tech), p.cofins(tech), p.ipi(tech);
    var l := p.pLambda;
    var f := (1.0 + a) * (1.0 + b) * (1.0 + c) * (1.0 + l) * (1.0 + policyTax);
    GrowthBound(1.0 + a, a, b);
    GrowthBound((1.0 + a) * (1.0 + b), a + b, c);
    GrowthBound((1.0 + a) * (1.0 + b) * (1.0 + c), a + b + c, l);
    GrowthBound((1.0 + a) * (1.0 + b) * (1.0 + c) * (1.0 + l), a + b + c + l, policyTax);
    assert f >= 1.0 + a + b + c + l + policyTax;
    MulMono(1.0 + a + b + c + l + policyTax, f, cost);
    assert SalesPrice(p, tech, cost, policyTax) == f * cost;
  }

  /** A policy surcharge scales the no-policy price by (1 + policy_tax) and
      adds policy_tax * cost to the owed taxes. */
  lemma PolicySurchargeDecomposes(p: Params, tech: Tech, cost: real, policyTax: real)
    ensures SalesPrice(p, tech, cost, policyTax)
      == SalesPrice(p, tech, cost, 0.0) * (1.0 + policyTax)
    ensures OwedTaxes(p, tech, cost, policyTax)
      == OwedTaxes(p, tech, cost, 0.0) + policyTax * cost
  {
  }

  /** A higher policy tax never lowers the sales price nor the owed taxes. */
  lemma PriceMonotoneInPolicyTax(p: Params, tech: Tech, cost: real, low: real, high: real)
    requires p.pis(tech) >= 0.0 && p.cofins(tech) >= 0.0 && p.ipi(tech) >= 0.0 && p.pLambda >= 0.0
    requires cost >= 0.0 && low <= high
    ensures SalesPrice(p, tech, cost, low) <= SalesPrice(p, tech, cost, high)
    ensures OwedTaxes(p, tech, cost, low) <= OwedTaxes(p, tech, cost, high)
  {
    var a, b, c := p.pis(tech), p.cofins(tech), p.ipi(tech);
    var base := (1.0 + a) * (1.0 + b) * (1.0 + c) * (1.0 + p.pLambda);
    MulNonneg(1.0 + a, 1.0 + b);
    MulNonneg((1.0 + a) * (1.0 + b), 1.0 + c);
    MulNonneg((1.0 + a) * (1.0 + b) * (1.0 + c), 1.0 + p.pLambda);
    MulNonneg(base, cost);
    MulMono(1.0 + low, 1.0 + high, base * cost);
    assert SalesPrice(p, tech, cost, low) == (1.0 + low) * (base * cost);
    assert SalesPrice(p, tech, cost, high) == (1.0 + high) * (base * cost);
    MulMono(low, high, cost);
  }

  /** A positive cost and a policy tax above -1 give a positive price. */
  lemma PricePositive(p: Params, tech: Tech, cost: real, policyTax: real)
    requires p.pis(tech) >= 0.0 && p.cofins(tech) >= 0.0 && p.ipi(tech) >= 0.0 && p.pLambda >= 0.0
    requires cost > 0.0 && policyTax > -1.0
    ensures SalesPrice(p, tech, cost, policyTax) > 0.0
  {
    var a, b, c := p.pis(tech), p.cofins(tech), p.ipi(tech);
    MulPos(1.0 + a, 1.0 + b);
    MulPos((1.0 + a) * (1.0 + b), 1.0 + c);
    MulPos((1.0 + a) * (1.0 + b) * (1.0 + c), 1.0 + p.pLambda);
    MulPos((1.0 + a) * (1.0 + b) * (1.0 + c) * (1.0 + p.pLambda), 1.0 + policyTax);
    MulPos((1.0 + a) * (1.0 + b) * (1.0 + c) * (1.0 + p.pLambda) * (1.0 + policyTax), cost);
  }

  /** `x if x else default`: a missing or zero argument takes the default. */
  function OrDefault(x: Option<real>, default: real): real
  {
    if x.None? || x.value == 0.0 then default else x.value
  }

  /** The values of the eight criteria for one car, as one consumer sees it. */
  datatype CriteriaValues = CriteriaValues(
    carAffordability: real,
    useAffordability: real,
    stations: real,
    marketShare: real,
    energyCapacity: real,
    carCleanness: real,
    quality: real,
    emotion: real)
  {
    function Value(c: Criterion): real
    {
      match c
      case CarAffordability => carAffordability
      case UseAffordability => useAffordability
      case Stations => stations
      case MarketShare => marketShare
      case EnergyCapacity => energyCapacity
      case CarCleanness => carCleanness
      case Quality => quality
      case Emotion => emotion
    }
  }

  /** The product of the values of the chosen criteria, folded left to right
      from 1; `value` is a car's criteria table (`CriteriaValues.Value`). */
  function Product(value: Criterion -> real, cs: seq<Criterion>): real
  {
    ProductUpTo(value, cs, |cs|)
  }

  /** The product of the values of the first n chosen criteria: the running
      value of `res` after n rounds of the selection loop. */
  function ProductUpTo(value: Criterion -> real, cs: seq<Criterion>, n: nat): real
    requires n <= |cs|
  {
    if n == 0 then 1.0 else ProductUpTo(value, cs, n - 1) * value(cs[n - 1])
  }

  /** The running product only reads the criteria it has reached. */
  lemma {:induction false} UpToSamePrefix(value: Criterion -> real, cs: seq<Criterion>, ds: seq<Criterion>, n: nat)
    requires n <= |cs| && n <= |ds|
    requires forall i :: 0 <= i < n ==> cs[i] == ds[i]
    ensures ProductUpTo(value, cs, n) == ProductUpTo(value, ds, n)
  {
    if n > 0 {
      UpToSamePrefix(value, cs, ds, n - 1);
    }
  }

  /** Past a, the running product over a + b is a's score times the running
      product over b. */
  lemma {:induction false} UpToAppend(value: Criterion -> real, a: seq<Criterion>, b: seq<Criterion>, k: nat)
    requires k <= |b|
    ensures ProductUpTo(value, a + b, |a| + k) == Product(value, a) * ProductUpTo(value, b, k)
  {
    if k == 0 {
      UpToSamePrefix(value, a + b, a, |a|);
    } else {
      UpToAppend(value, a, b, k - 1);
      assert (a + b)[|a| + k - 1] == b[k - 1];
      Associate(Product(value, a), ProductUpTo(value, b, k - 1), value(b[k - 1]));
    }
  }

  /** Choosing criteria a and then b scores the product of the two scores. */
  lemma ProductAppend(value: Criterion -> real, a: seq<Criterion>, b: seq<Criterion>)
    ensures Product(value, a + b) == Product(value, a) * Product(value, b)
  {
    UpToAppend(value, a, b, |b|);
  }

  /** (x * y) * z == x * (y * z), as a fact with no other context. */
  lemma Associate(x: real, y: real, z: real)
    ensures (x * y) * z == x * (y * z)
  {
  }

  /** (x * y) * z == (x * z) * y, as a fact with no other context. */
  lemma Regroup(x: real, y: real, z: real)
    ensures (x * y) * z == (x * z) * y
  {
  }

  /** Exchanging the last two factors of a product, with the products
      given by name so that nothing else is in view. */
  lemma Swap(whole: real, front: real, rest: real, p: real, v: real, y: real)
    requires whole == front * y && front == p * v && rest == p * y
    ensures whole == rest * v
  {
    Regroup(p, v, y);
  }

  /** Taking out position j of b leaves what a' + [b[j]] leaves without its
      last element, when the two hold the same elements. */
  lemma RemoveMatching<T>(a': seq<T>, b: seq<T>, j: nat)
    requires j < |b| && multiset(a' + [b[j]]) == multiset(b)
    ensures multiset(a') == multiset(b[..j] + b[j + 1..])
  {
    var x := b[j];
    assert b == b[..j] + [x] + b[j + 1..];
    calc {
      multiset(a') + multiset{x};
      multiset(a' + [x]);
      multiset(b);
      multiset(b[..j] + b[j + 1..]) + multiset{x};
    }
    var m, n := multiset(a'), multiset(b[..j] + b[j + 1..]);
    assert m == (m + multiset{x}) - multiset{x};
    assert n == (n + multiset{x}) - multiset{x};
  }

  /** Taking out position j of a criteria list, leaving `rest`, divides its
      score by that criterion's value: the score is the rest's score times
      the value. */
  lemma ProductRemove(value: Criterion -> real, b: seq<Criterion>, j: nat, rest: seq<Criterion>)
    requires j < |b| && rest == b[..j] + b[j + 1..]
    ensures Product(value, b) == Product(value, rest) * value(b[j])
  {
    var front, x, back := b[..j], [b[j]], b[j + 1..];
    assert b == front + x + back;
    assert ProductUpTo(value, x, 0) == 1.0;
    assert Product(value, x) == value(b[j]);
    ProductAppend(value, front + x, back);
    ProductAppend(value, front, x);
    ProductAppend(value, front, back);
    Swap(Product(value, b), Product(value, front + x), Product(value, rest),
         Product(value, front), Product(value, x), Product(value, back));
  }

  /** The score depends only on which criteria were drawn, not on the order
      they were drawn in. */
  lemma {:induction false} ProductReorder(value: Criterion -> real, a: seq<Criterion>, b: seq<Criterion>)
    requires multiset(a) == multiset(b)
    ensures Product(value, a) == Product(value, b)
    decreases |a|
  {
    if a == [] {
      assert b == [];
    } else {
      var x := a[|a| - 1];
      var a' := a[..|a| - 1];
      assert a == a' + [x];
      assert x in multiset(b);
      var j :| 0 <= j < |b| && b[j] == x;
      var rest := b[..j] + b[j + 1..];
      RemoveMatching(a', b, j);
      ProductReorder(value, a', rest);
      UpToSamePrefix(value, a, a', |a'|);
      ProductRemove(value, b, j, rest);
    }
  }

  /** Positive criterion values give a positive running product. */
  lemma {:induction false} UpToPositive(value: Criterion -> real, cs: seq<Criterion>, n: nat)
    requires n <= |cs|
    requires forall i :: 0 <= i < |cs| ==> value(cs[i]) > 0.0
    ensures ProductUpTo(value, cs, n) > 0.0
  {
    if n > 0 {
      UpToPositive(value, cs, n - 1);
      MulPos(ProductUpTo(value, cs, n - 1), value(cs[n - 1]));
    }
  }

  /** Positive criterion values give a positive score. */
  lemma ProductPositive(value: Criterion -> real, cs: seq<Criterion>)
    requires forall i :: 0 <= i < |cs| ==> value(cs[i]) > 0.0
    ensures Product(value, cs) > 0.0
  {
    UpToPositive(value, cs, |cs|);
  }

  /** A real other than 0: a vehicle's energy economy, which the emissions
      divide by (a zero argument of the constructor takes the default). */
  type NonZero = x: real | x != 0.0 witness 1.0

  /** A vehicle of one firm's portfolio. Its characteristics are fixed once
      built; its price and taxes are recomputed by CalculatePrice. */
  class Vehicle {
    const tech: Tech
    const productionCost: real
    const ee: NonZero
    const ec: real
    const ql: real
    var salesPrice: real
    var owedTaxes: real

    /** A vehicle of technology `tech`; each missing (or zero) characteristic
        takes the gas baseline of the parameters. The price is computed at
        once; the owed taxes then start at 0. */
    constructor (p: Parameters, pol: Policy, e: real, tech: Tech,
                 productionCost: Option<real>, ee: Option<real>, ec: Option<real>, ql: Option<real>)
      ensures this.tech == tech
      ensures this.productionCost == OrDefault(productionCost, p.productionCost(Gas))
      ensures this.ee == OrDefault(ee, p.energyEconomy(Gas))
      ensures this.ec == OrDefault(ec, p.energyCapacity(Gas))
      ensures this.ql == OrDefault(ql, p.qualityLevel(Gas))
      ensures this.productionCost > 0.0 ==> salesPrice > 0.0
      ensures salesPrice == SalesPrice(p, tech, this.productionCost, PolicyRate(p, pol, e))
      ensures owedTaxes == 0.0
    {
      this.tech := tech;
      this.productionCost := OrDefault(productionCost, p.productionCost(Gas));
      this.ee := OrDefault(ee, p.energyEconomy(Gas));
      this.ec := OrDefault(ec, p.energyCapacity(Gas));
      this.ql := OrDefault(ql, p.qualityLevel(Gas));
      salesPrice, owedTaxes := 0.0, 0.0;
      new;
      var taxes := CalculatePrice(p, pol, e);
      owedTaxes := 0.0;
      if this.productionCost > 0.0 {
        PricePositive(p, tech, this.productionCost, PolicyRate(p, pol, e));
      }
    }

    /** Driving range: distance per unit of energy times energy carried. */
    function DriveRange(): real
    {
      ee * ec
    }

    /** Emissions per unit of distance: the technology's emission factor
        over the energy economy. */
    function Emissions(p: Params): real
    {
      p.emission(tech) / ee
    }

    /** policy_tax: the level's tax under 'tax', the level's e_max tax times
        the emission-table factor under 'e_max', and 0 otherwise (the R&D
        cashback is applied to firms, not to car prices). */
    function PolicyRate(p: Params, pol: Policy, e: real): (r: real)
      ensures pol.kind != Tax && pol.kind != EMax ==> r == 0.0
      ensures p.WellFormed() ==> r > -1.0
    {
      match pol.kind
      case Tax => p.tax(pol.level)
      case EMax =>
        p.EMaxRate(pol.level, e, Emissions(p))
      case _ => 0.0
    }

    /** Recomputes the sales price and the owed taxes from the current
        characteristics, the policy and the benchmark emission e, and
        returns the owed taxes. */
    method CalculatePrice(p: Params, pol: Policy, e: real) returns (taxes: real)
      modifies this`salesPrice, this`owedTaxes
      ensures salesPrice == SalesPrice(p, tech, productionCost, PolicyRate(p, pol, e))
      ensures owedTaxes == OwedTaxes(p, tech, productionCost, PolicyRate(p, pol, e))
      ensures taxes == owedTaxes
    {
      var policyTax := 0.0;
      if pol.kind == Tax {
        policyTax := p.tax(pol.level);
      } else if pol.kind == EMax {
        policyTax := p.EMaxRate(pol.level, e, Emissions(p));
      }
      salesPrice := (1.0 + p.pis(tech)) * (1.0 + p.cofins(tech)) * (1.0 + p.ipi(tech))
        * (1.0 + p.pLambda) * (1.0 + policyTax) * productionCost;
      owedTaxes := (policyTax + p.pis(tech) + p.cofins(tech) + p.ipi(tech)) * productionCost;
      taxes := owedTaxes;
    }

    /** What the car, at sales price `price`, must provide for the criteria
        table to be computable: no zero denominator among the affordability,
        energy-price and cleanness entries. */
    predicate Rankable(p: Params, price: real, region: Region, firmRegion: Region)
    {
      && p.emission(tech) != 0.0
      && price * (1.0 + p.icms(region)) + p.freight(firmRegion, region) != 0.0
      && p.priceEnergy(region, tech) != 0.0
    }

    /** The criteria table of this car, sold at `price`, for a consumer of
        `region`: price with ICMS and freight, energy price, station density, market share
        floored at epsilon, energy capacity, cleanness, quality, emotion. */
    function Criteria(p: Params, price: real, emotion: real, region: Region, firmRegion: Region,
                      share: real, greenStation: real): (vals: CriteriaValues)
      requires Rankable(p, price, region, firmRegion)
      ensures vals.marketShare >= p.epsilon && vals.marketShare >= share
      ensures vals.marketShare == share || vals.marketShare == p.epsilon
      ensures vals.emotion == emotion && vals.carCleanness * Emissions(p) == 1.0
    {
      CriteriaValues(
        1.0 / (price * (1.0 + p.icms(region)) + p.freight(firmRegion, region)),
        1.0 / p.priceEnergy(region, tech),
        if tech == Green then greenStation else p.gasStations,
        if share >= p.epsilon then share else p.epsilon,
        ec,
        1.0 / Emissions(p),
        ql,
        emotion)
    }

    /** `criteria_selection`: the product, from 1, of the values of the drawn
        criteria. `share` is the selling firm's market share for this
        technology in the current period, `greenStation` the current green
        station proxy. */
    method CriteriaSelection(p: Params, emotion: real, region: Region, firmRegion: Region,
                             share: real, greenStation: real, criteria: seq<Criterion>)
      returns (res: real)
      requires Rankable(p, salesPrice, region, firmRegion)
      ensures res == Product(Criteria(p, salesPrice, emotion, region, firmRegion, share, greenStation).Value, criteria)
    {
      var criterion := Criteria(p, salesPrice, emotion, region, firmRegion, share, greenStation);
      res := 1.0;
      for i := 0 to |criteria|
        invariant res == ProductUpTo(criterion.Value, criteria, i)
      {
        res := res * criterion.Value(criteria[i]);
      }
    }
  }

  /** Positive characteristics and price make the criteria table computable:
      every denominator of the table is positive. */
  lemma RankableWhenPositive(p: Parameters, v: Vehicle, price: real, region: Region, firmRegion: Region)
    requires v.ee > 0.0 && price > 0.0
    ensures v.Rankable(p, price, region, firmRegion)
  {
    MulPos(price, 1.0 + p.icms(region));
  }

  /** More energy economy and more capacity never shorten the range. */
  lemma DriveRangeGrows(v: Vehicle, w: Vehicle)
    requires 0.0 <= v.ee <= w.ee && 0.0 <= v.ec <= w.ec
    ensures v.DriveRange() <= w.DriveRange()
  {
    MulMono(v.ee, w.ee, v.ec);
    MulMono(v.ec, w.ec, w.ee);
  }

  /** For one technology, better energy economy means lower emissions, and
      emissions times economy is the technology's emission factor. */
  lemma CleanerWithEconomy(p: Params, v: Vehicle, w: Vehicle)
    requires v.tech == w.tech && 0.0 < v.ee <= w.ee && p.emission(v.tech) >= 0.0
    ensures w.Emissions(p) <= v.Emissions(p)
    ensures v.Emissions(p) * v.ee == p.emission(v.tech)
  {
    var x := p.emission(v.tech);
    var a, b := x / v.ee, x / w.ee;
    assert a * v.ee == x && b * w.ee == x;
    MulMono(v.ee, w.ee, a);
    assert b * w.ee <= a * w.ee;
  }
}
