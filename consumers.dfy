/** Consumers (consumers.py): the adoption gate, the required range drawn
    from one of three usage segments, the viable set, and the utility-ranked
    choice of a car, with the counters a purchase bumps. */
module Consumers {
  import opened Config
  import opened Rand
  import opened Cars
  import opened Firms

  /** A car on offer in the current period, as consumers see it: the firm
      that sells it, the car, its sales price and the firm's market share of
      the car's technology in the period. */
  datatype Offer = Offer(firm: Firm, car: Vehicle, price: real, share: real)

  /** The offer shows the car's current price and its firm's share in
      period t. */
  predicate Current(o: Offer, t: nat)
    reads o.car`salesPrice, o.firm`techShare
  {
    o.price == o.car.salesPrice && o.share == o.firm.TechShareAt(o.car.tech, t)
  }

  /** The usage segment a draw selects: '23' below .23, '22' below .45,
      '55' otherwise. */
  function BucketOf(choice: real): (b: Bucket)
    ensures b == Segment23 <==> choice < 0.23
    ensures b == Segment22 <==> 0.23 <= choice < 0.45
    ensures b == Segment55 <==> 0.45 <= choice
  {
    if choice < 0.23 then Segment23
    else if choice < 0.45 then Segment22
    else Segment55
  }

  /** A car a consumer may consider: cheaper than the reserve price, a range
      beyond the required one, and emissions under the cap. */
  predicate Admissible(p: Params, o: Offer, priceMax: real, dk: real, eMax: real)
  {
    o.price < priceMax && o.car.DriveRange() > dk && o.car.Emissions(p) < eMax
  }

  /** `my_market`: the admissible cars of the market, in market order. */
  function Viable(p: Params, market: seq<Offer>, priceMax: real, dk: real, eMax: real): (r: seq<Offer>)
    ensures forall i :: 0 <= i < |r| ==> r[i] in market && Admissible(p, r[i], priceMax, dk, eMax)
    ensures forall i :: 0 <= i < |market| && Admissible(p, market[i], priceMax, dk, eMax) ==> market[i] in r
    ensures |r| <= |market|
  {
    if market == [] then []
    else
      var rest := Viable(p, market[1..], priceMax, dk, eMax);
      if Admissible(p, market[0], priceMax, dk, eMax) then [market[0]] + rest else rest
  }

  /** The first position of a maximal score. */
  function FirstBest(scores: seq<real>): (best: nat)
    requires |scores| > 0
    ensures best < |scores|
    ensures forall k :: 0 <= k < |scores| ==> scores[k] <= scores[best]
    ensures forall k :: 0 <= k < best ==> scores[k] < scores[best]
  {
    if |scores| == 1 then 0
    else
      var b := FirstBest(scores[..|scores| - 1]);
      if scores[|scores| - 1] > scores[b] then |scores| - 1 else b
  }

  /** `order` lists every index of `scores` once. */
  ghost predicate IndexPermutation(order: seq<nat>, n: nat)
  {
    && |order| == n
    && (forall a :: 0 <= a < n ==> order[a] < n)
    && (forall k :: 0 <= k < n ==> k in order)
  }

  /** `order` is what Python's stable `sort(key, reverse=True)` produces:
      scores non-increasing, and equal scores kept in their original order. */
  ghost predicate StableDescending(scores: seq<real>, order: seq<nat>)
    requires IndexPermutation(order, |scores|)
  {
    && (forall a, b :: 0 <= a < b < |order| ==> scores[order[a]] >= scores[order[b]])
    && (forall a, b :: 0 <= a < b < |order| && scores[order[a]] == scores[order[b]] ==>
          order[a] < order[b])
  }

  /** The car at the head of a stable descending sort is the first of the
      maximal ones, which is the one FirstBest picks: consumers.py reads
      only `my_market[0]` after sorting. */
  lemma SortHeadIsFirstBest(scores: seq<real>, order: seq<nat>, best: nat)
    requires |scores| > 0 && IndexPermutation(order, |scores|)
    requires StableDescending(scores, order)
    requires best < |scores|
    requires forall k :: 0 <= k < |scores| ==> scores[k] <= scores[best]
    requires forall k :: 0 <= k < best ==> scores[k] < scores[best]
    ensures order[0] == best
  {
    assert best in order;
    var a :| 0 <= a < |order| && order[a] == best;
    assert scores[order[0]] == scores[best];
    assert a == 0;
  }

  /** How a consumer scores one car: `criteria_selection` on a sample of
      the configured size drawn from the eight criteria, none twice. */
  ghost predicate ScoredAt(p: Params, o: Offer, score: real, subset: seq<Criterion>,
                           emotion: real, region: Region, greenStation: real)
  {
    && |subset| == p.numberCharacteristics
    && (forall a, b :: 0 <= a < b < |subset| ==> subset[a] != subset[b])
    && o.car.Rankable(p, o.price, region, o.firm.region)
    && score == Product(o.car.Criteria(p, o.price, emotion, region, o.firm.region, o.share, greenStation).Value,
                        subset)
  }

  /** How a consumer scored the shuffled viable cars: each with its own
      sample of criteria. */
  ghost predicate Scored(p: Params, ranked: seq<Offer>, scores: seq<real>,
                         subsets: seq<seq<Criterion>>, emotion: real, region: Region,
                         greenStation: real)
  {
    && |scores| == |ranked| && |subsets| == |ranked|
    && forall k :: 0 <= k < |ranked| ==>
         ScoredAt(p, ranked[k], scores[k], subsets[k], emotion, region, greenStation)
  }

  /** Each criterion is listed once in the criteria list. */
  lemma CriterionOnce(x: Criterion)
    ensures multiset(AllCriteria)[x] == 1
  {
  }

  /** Two equal entries make a value occur at least twice. */
  lemma PairCounted<T>(s: seq<T>, a: nat, b: nat)
    requires a < b < |s|
    ensures s[a] == s[b] ==> multiset(s)[s[a]] >= 2
  {
    if s[a] == s[b] {
      assert s == s[..b] + s[b..];
      assert s[..b][a] == s[a] && s[b..][0] == s[b];
    }
  }

  /** A sample of the criteria list repeats no criterion. */
  lemma SampleDistinct(subset: seq<Criterion>)
    requires multiset(subset) <= multiset(AllCriteria)
    ensures forall a, b :: 0 <= a < b < |subset| ==> subset[a] != subset[b]
  {
    forall a, b | 0 <= a < b < |subset| ensures subset[a] != subset[b] {
      PairCounted(subset, a, b);
      CriterionOnce(subset[a]);
    }
  }

  /** The draws of n samples of k criteria each, counted sample by sample. */
  function SampleDraws(n: nat, k: nat): nat
  {
    if n == 0 then 0 else SampleDraws(n - 1, k) + k
  }

  /** n samples of k criteria take n * k draws. */
  lemma {:induction false} SampleDrawsCount(n: nat, k: nat)
    ensures SampleDraws(n, k) == n * k
  {
    if n > 0 {
      SampleDrawsCount(n - 1, k);
      assert (n - 1) * k + k == n * k;
    }
  }

  /** One car's sort key: `criteria_selection` on a fresh sample of the
      configured number of criteria. */
  method ScoreOne(rng: Rng, p: Parameters, o: Offer, emotion: real, region: Region, greenStation: real)
    returns (score: real, subset: seq<Criterion>)
    requires rng.Valid() && o.car.ee > 0.0 && o.price > 0.0 && o.price == o.car.salesPrice
    modifies rng`pos
    ensures ScoredAt(p, o, score, subset, emotion, region, greenStation)
    ensures rng.pos == old(rng.pos) + p.numberCharacteristics
  {
    subset := rng.Sample(AllCriteria, p.numberCharacteristics);
    SampleDistinct(subset);
    RankableWhenPositive(p, o.car, o.price, region, o.firm.region);
    score := o.car.CriteriaSelection(p, emotion, region, o.firm.region, o.share, greenStation, subset);
  }

  /** `criteria_selection` for every car in turn, each on a fresh sample of
      the criteria, as the sort key of consumers.py computes them. */
  method ScoreAll(rng: Rng, p: Parameters, ranked: seq<Offer>, emotion: real, region: Region,
                  greenStation: real)
    returns (values: seq<real>, ghost subsets: seq<seq<Criterion>>)
    requires rng.Valid()
    requires forall i :: 0 <= i < |ranked| ==>
      ranked[i].car.ee > 0.0 && ranked[i].price > 0.0 && ranked[i].price == ranked[i].car.salesPrice
    modifies rng`pos
    ensures Scored(p, ranked, values, subsets, emotion, region, greenStation)
    ensures rng.pos == old(rng.pos) + SampleDraws(|ranked|, p.numberCharacteristics)
  {
    values, subsets := [], [];
    for i := 0 to |ranked|
      invariant |values| == i && |subsets| == i
      invariant rng.pos == old(rng.pos) + SampleDraws(i, p.numberCharacteristics)
      invariant forall k :: 0 <= k < i ==>
        ScoredAt(p, ranked[k], values[k], subsets[k], emotion, region, greenStation)
    {
      var score, subset := ScoreOne(rng, p, ranked[i], emotion, region, greenStation);
      values := values + [score];
      subsets := subsets + [subset];
    }
  }

  /** `ranked` is a shuffle of `viable`, scored by `scores`, and `chosen`
      is its first best-scoring car (FirstBest's contract: maximal, and
      before it only lower scores). */
  ghost predicate Picked(viable: seq<Offer>, ranked: seq<Offer>, scores: seq<real>, best: nat,
                         chosen: Offer)
  {
    && multiset(ranked) == multiset(viable)
    && |scores| == |ranked| > 0
    && best == FirstBest(scores) && chosen == ranked[best]
  }

  /** The choice among a non-empty viable set: shuffle it, score every car
      on its own criteria sample, and take the first best-scoring one (the
      head of Python's stable descending sort, see SortHeadIsFirstBest). */
  method Choose(rng: Rng, p: Parameters, viable: seq<Offer>, emotion: real, region: Region,
                greenStation: real)
    returns (chosen: Offer, ghost ranked: seq<Offer>, ghost scores: seq<real>, ghost best: nat,
             ghost subsets: seq<seq<Criterion>>)
    requires rng.Valid() && |viable| > 0
    requires forall i :: 0 <= i < |viable| ==>
      viable[i].car.ee > 0.0 && viable[i].price > 0.0 && viable[i].price == viable[i].car.salesPrice
    modifies rng`pos
    ensures Picked(viable, ranked, scores, best, chosen)
    ensures Scored(p, ranked, scores, subsets, emotion, region, greenStation)
    ensures rng.pos == old(rng.pos) + (|viable| - 1) + SampleDraws(|viable|, p.numberCharacteristics)
  {
    var order := Shuffled(rng, viable);
    var values;
    values, subsets := ScoreAll(rng, p, order, emotion, region, greenStation);
    var first := FirstBest(values);
    chosen := order[first];
    ranked, scores, best := order, values, first;
  }

  /** The adoption gate: the draw at `pos` is below prob_adoption. */
  predicate Entered(rng: Rng, pos: nat, p: Params)
  {
    rng.draw(pos) < p.probAdoption
  }

  /** The required range of a consumer who entered at `pos`: the draw after
      the gate selects the segment, and the one after that a uniform value
      in the segment's interval. */
  function RequiredRange(rng: Rng, pos: nat, p: Params): real
  {
    var r := p.dk(BucketOf(rng.draw(pos + 1)));
    UniformOf(r.lo, r.hi, rng.draw(pos + 2))
  }

  /** The required range lies in the interval of the segment drawn. */
  lemma RequiredRangeInSegment(rng: Rng, pos: nat, p: Params)
    requires rng.Valid()
    ensures Between(RequiredRange(rng, pos, p), p.dk(BucketOf(rng.draw(pos + 1))).lo,
                    p.dk(BucketOf(rng.draw(pos + 1))).hi)
  {
    var r := p.dk(BucketOf(rng.draw(pos + 1)));
    UniformBetween(r.lo, r.hi, rng.draw(pos + 2));
  }

  /** The first part of `purchase`: the adoption draw and, past the gate,
      the segment and the range drawn in it. */
  method Enter(rng: Rng, p: Params) returns (entered: bool, dk: real)
    requires rng.Valid()
    modifies rng`pos
    ensures entered == Entered(rng, old(rng.pos), p)
    ensures !entered ==> rng.pos == old(rng.pos) + 1
    ensures entered ==> dk == RequiredRange(rng, old(rng.pos), p) && rng.pos == old(rng.pos) + 3
  {
    dk := 0.0;
    var u := rng.Random();
    entered := u < p.probAdoption;
    if entered {
      var choice := rng.Random();
      var r := p.dk(BucketOf(choice));
      dk := rng.Uniform(r.lo, r.hi);
    }
  }

  /** The number of draws a decision takes from the stream: the adoption
      draw alone when the gate refuses; with the segment and the range, 3
      when no car is viable; otherwise also the emotion, the n - 1 draws of
      the shuffle of the n viable cars and one criteria sample per car. */
  function DrawsUsed(p: Params, entered: bool, n: nat): (used: nat)
    ensures used >= 1
  {
    if !entered then 1
    else if n == 0 then 3
    else 4 + (n - 1) + SampleDraws(n, p.numberCharacteristics)
  }

  /** What a consumer's decision exposes: the required range, the viable
      cars, the emotion value, the shuffled viable cars, their scores, the
      position chosen and each car's criteria sample. */
  datatype Trace = Trace(dk: real, viable: seq<Offer>, emotion: real, ranked: seq<Offer>,
                         scores: seq<real>, best: nat, subsets: seq<seq<Criterion>>)

  /** The decision of `purchase` for a consumer whose draws start at `pos`
      and end before `end`: past the adoption gate, the required range
      comes from the segment drawn and the viable cars are the admissible
      ones; nothing is bought exactly when the gate or an empty viable set
      stops it; otherwise the emotion is the next draw and the car bought
      is the first best-scoring one of a shuffle of the viable cars; the
      decision takes exactly the draws DrawsUsed counts. */
  ghost predicate Decided(rng: Rng, pos: nat, end: nat, p: Params, market: seq<Offer>, priceMax: real,
                          eMax: real, region: Region, greenStation: real,
                          bought: Option<Offer>, tr: Trace)
  {
    && end == pos + DrawsUsed(p, Entered(rng, pos, p), |tr.viable|)
    && (Entered(rng, pos, p) ==>
          tr.dk == RequiredRange(rng, pos, p) && tr.viable == Viable(p, market, priceMax, tr.dk, eMax))
    && (bought.None? <==> !Entered(rng, pos, p) || tr.viable == [])
    && (bought.Some? ==>
          && tr.emotion == rng.draw(pos + 3)
          && Picked(tr.viable, tr.ranked, tr.scores, tr.best, bought.value)
          && Scored(p, tr.ranked, tr.scores, tr.subsets, tr.emotion, region, greenStation))
  }

  /** The choosing part of `purchase`: the gate, the required range, the
      viable set and, if it is not empty, the emotion draw and the choice.
      Only the random stream moves. */
  method Decide(rng: Rng, p: Parameters, market: seq<Offer>, priceMax: real, eMax: real,
                region: Region, greenStation: real)
    returns (bought: Option<Offer>, ghost tr: Trace)
    requires rng.Valid()
    requires forall i :: 0 <= i < |market| ==>
      market[i].car.ee > 0.0 && market[i].price > 0.0 && market[i].price == market[i].car.salesPrice
    modifies rng`pos
    ensures Decided(rng, old(rng.pos), rng.pos, p, market, priceMax, eMax, region, greenStation, bought, tr)
    ensures bought.Some? ==> bought.value in market
  {
    var entered, required := Enter(rng, p);
    if !entered {
      return None, Trace(0.0, [], 0.0, [], [], 0, []);
    }
    var myMarket := Viable(p, market, priceMax, required, eMax);
    if myMarket == [] {
      return None, Trace(required, [], 0.0, [], [], 0, []);
    }
    ghost var at := rng.pos;
    assert at == old(rng.pos) + 3;
    var mood := rng.Random();
    assert mood == rng.draw(at);
    var chosen, ranked, scores, best, subsets := Choose(rng, p, myMarket, mood, region, greenStation);
    assert chosen in multiset(ranked);
    bought := Some(chosen);
    tr := Trace(required, myMarket, mood, ranked, scores, best, subsets);
  }

  /** Firm f recorded one more sale of technology k in period t and no other
      change to its counters. */
  twostate predicate SoldOne(f: Firm, k: Tech, t: nat)
    reads f
  {
    && f.SoldCount(k, t) == old(f.SoldCount(k, t)) + 1
    && forall k': Tech, s: nat :: (k', s) != (k, t) ==> f.SoldCount(k', s) == old(f.SoldCount(k', s))
  }

  /** A buyer. The reserve price and the distance driven per period are
      drawn once, at creation. */
  class Consumer {
    const id: nat
    const region: Region
    const priceMax: real
    const distance: real
    var myCar: Vehicle?

    /** Draws the reserve price (mean p_max['mu'], deviation scaled by the
        region's proportion) and then the distance, and owns no car. */
    constructor (id: nat, region: Region, p: Params, rng: Rng)
      modifies rng`normalPos
      ensures this.id == id && this.region == region && myCar == null
      ensures priceMax == p.pMaxMu + rng.normal(old(rng.normalPos)) * (p.pMaxSigma * p.pMaxProportion(region))
      ensures distance == p.distanceMu + rng.normal(old(rng.normalPos) + 1) * p.distanceSigma
      ensures rng.normalPos == old(rng.normalPos) + 2
    {
      this.id, this.region := id, region;
      var price := rng.NormalVariate(p.pMaxMu, p.pMaxSigma * p.pMaxProportion(region));
      priceMax := price;
      myCar := null;
      var d := rng.NormalVariate(p.distanceMu, p.distanceSigma);
      distance := d;
    }

    /** `purchase`: the decision (see Decided), then, if a car was chosen,
        owning it and recording the sale with its seller. The market is the
        period's offers, each showing its car's current price and share. */
    method Purchase(rng: Rng, p: Parameters, market: seq<Offer>, t: nat, eMax: real, greenStation: real)
      returns (bought: Option<Offer>, ghost tr: Trace)
      requires rng.Valid()
      requires forall i :: 0 <= i < |market| ==>
        market[i].car.ee > 0.0 && market[i].price > 0.0 && Current(market[i], t)
      modifies this`myCar, rng`pos, (set o | o in market :: o.firm)`soldCars
      ensures Decided(rng, old(rng.pos), rng.pos, p, market, priceMax, eMax, region, greenStation, bought, tr)
      ensures forall i :: 0 <= i < |market| ==> Current(market[i], t)
      ensures bought.None? ==> myCar == old(myCar)
      ensures bought.None? ==>
        forall i :: 0 <= i < |market| ==> market[i].firm.soldCars == old(market[i].firm.soldCars)
      ensures bought.Some? ==> bought.value in market && myCar == bought.value.car
      ensures bought.Some? ==> SoldOne(bought.value.firm, bought.value.car.tech, t)
      ensures bought.Some? ==>
        forall i :: 0 <= i < |market| && market[i].firm != bought.value.firm ==>
          market[i].firm.soldCars == old(market[i].firm.soldCars)
    {
      bought, tr := Decide(rng, p, market, priceMax, eMax, region, greenStation);
      assert forall i :: 0 <= i < |market| ==> market[i].firm.soldCars == old(market[i].firm.soldCars);
      assert forall i :: 0 <= i < |market| ==> Current(market[i], t);
      if bought.Some? {
        Buy(bought.value, t, market);
      }
    }

    /** Owning the car bought and recording the sale with its seller. */
    method Buy(o: Offer, t: nat, ghost market: seq<Offer>)
      requires forall i :: 0 <= i < |market| ==> Current(market[i], t)
      modifies this`myCar, o.firm`soldCars
      ensures forall i :: 0 <= i < |market| ==> Current(market[i], t)
      ensures myCar == o.car
      ensures SoldOne(o.firm, o.car.tech, t)
      ensures forall i :: 0 <= i < |market| && market[i].firm != o.firm ==>
        market[i].firm.soldCars == old(market[i].firm.soldCars)
    {
      myCar := o.car;
      o.firm.Sales(o.car.tech, t);
    }

    /** `driving`: the period's emissions, nothing without a car, and
        otherwise the distance times the car's emissions per unit distance. */
    function Driving(p: Params): (r: real)
      reads this`myCar
      ensures myCar == null ==> r == 0.0
      ensures myCar != null ==> r * myCar.ee == distance * p.emission(myCar.tech)
    {
      if myCar != null then distance * myCar.Emissions(p) else 0.0
    }
  }
}
