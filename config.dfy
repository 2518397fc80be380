/** Exogenous inputs of a run: the constants of params.py, the tax tables that
    cars.py reads from the parameter module, and the run's policy choice. */
module Config {

  datatype Option<+T> = None | Some(value: T)

  /** Vehicle technology; the market counters of model.py know only these two. */
  datatype Tech = Gas | Green

  /** A region index (consumers and firms each have one). */
  type Region = nat

  /** The policy kinds of a run: none, a flat 'tax', the R&D cashback 'p_d'
      (applied at firm level, not in pricing) and the emissions-based 'e_max'. */
  datatype PolicyKind = NoPolicy | Tax | PdCashback | EMax

  /** `sim.policy`: a kind and a strength level (levels are reals in [0, 1]). */
  datatype Policy = Policy(kind: PolicyKind, level: real)

  /** The three usage segments that a consumer's required range is drawn from. */
  datatype Bucket = Segment23 | Segment22 | Segment55

  /** A closed interval [lo, hi] of the parameter file (`dk[...]['min'/'max']`). */
  datatype Range = Range(lo: real, hi: real)

  /** The eight criteria a consumer can rank vehicles by. */
  datatype Criterion =
    | CarAffordability | UseAffordability | Stations | MarketShare
    | EnergyCapacity | CarCleanness | Quality | Emotion

  /** The criteria list of consumers.py, in its order. */
  const AllCriteria: seq<Criterion> :=
    [CarAffordability, UseAffordability, Stations, MarketShare,
     EnergyCapacity, CarCleanness, Quality, Emotion]

  /** The parameter module. Tables keyed by technology or region become total
      functions; `discountTaxTable(e, emission)` is the emission-factor table
      that the 'e_max' policy multiplies by its level's tax. */
  datatype Params = Params(
    T: nat,
    numFirms: nat,
    numConsumers: nat,
    productionCost: Tech -> real,
    energyEconomy: Tech -> real,
    energyCapacity: Tech -> real,
    qualityLevel: Tech -> real,
    emission: Tech -> real,
    pis: Tech -> real,
    cofins: Tech -> real,
    ipi: Tech -> real,
    pLambda: real,
    tax: real -> real,
    eMaxTax: real -> real,
    discountTaxTable: (real, real) -> real,
    icms: Region -> real,
    freight: (Region, Region) -> real,
    priceEnergy: (Region, Tech) -> real,
    gasStations: real,
    epsilon: real,
    probAdoption: real,
    dk: Bucket -> Range,
    pMaxMu: real,
    pMaxSigma: real,
    pMaxProportion: Region -> real,
    distanceMu: real,
    distanceSigma: real,
    numberCharacteristics: nat)
  {
    /** The 'e_max' policy tax: the level's e_max tax times the emission-table
        factor of the benchmark e and the car's emissions. */
    function EMaxRate(level: real, e: real, emissions: real): real
    {
      eMaxTax(level) * discountTaxTable(e, emissions)
    }

    /** The configuration the engine needs to run without a division by zero:
        positive baseline characteristics and emission factors, non-negative
        levies, freight and ICMS, positive energy prices, a policy tax above
        -100% (the flat tax of any level, and the e_max rate of any level
        and emission-table entry), ordered range buckets, and at most eight
        criteria per ranking (`sample` refuses more). */
    ghost predicate WellFormed() {
      && (forall k: Tech :: productionCost(k) > 0.0 && energyEconomy(k) > 0.0)
      && (forall k: Tech :: energyCapacity(k) > 0.0 && emission(k) > 0.0)
      && (forall k: Tech :: pis(k) >= 0.0 && cofins(k) >= 0.0 && ipi(k) >= 0.0)
      && pLambda >= 0.0
      && (forall l: real :: tax(l) > -1.0)
      && (forall l: real, x: real, y: real :: EMaxRate(l, x, y) > -1.0)
      && (forall r: Region :: icms(r) >= 0.0)
      && (forall r: Region, s: Region :: freight(r, s) >= 0.0)
      && (forall r: Region, k: Tech :: priceEnergy(r, k) > 0.0)
      && (forall b: Bucket :: dk(b).lo <= dk(b).hi)
      && numberCharacteristics <= |AllCriteria|
    }
  }

  /** A parameter module the engine can run on (see Params.WellFormed). */
  type Parameters = q: Params | q.WellFormed()
    witness Params(0, 0, 0, _ => 1.0, _ => 1.0, _ => 1.0, _ => 1.0, _ => 1.0, _ => 0.0, _ => 0.0, _ => 0.0, 0.0,
                   _ => 0.0, _ => 0.0, (_, _) => 0.0, _ => 0.0, (_, _) => 0.0, (_, _) => 1.0, 1.0, 0.0, 0.0,
                   _ => Range(0.0, 0.0), 0.0, 0.0, _ => 0.0, 0.0, 0.0, 0)
}
