/** The period controller (model.py): agent creation, the loop over periods,
    the green-infrastructure proxy, the offer pass with the replacement of
    bankrupt firms, the demand pass and the emissions bookkeeping. */
module Model {
  import opened Config
  import opened Rand
  import opened Cars
  import opened Firms
  import opened Consumers

  /** Keys listed once each. */
  predicate Distinct(keys: seq<nat>)
  {
    forall i, j :: 0 <= i < j < |keys| ==> keys[i] != keys[j]
  }

  /** A key not yet listed can be appended. */
  lemma DistinctAppend(keys: seq<nat>, k: nat)
    requires Distinct(keys) && k !in keys
    ensures Distinct(keys + [k])
  {
  }

  /** Distinct keys occur once each. */
  lemma {:induction false} DistinctOnce(keys: seq<nat>, x: nat)
    requires Distinct(keys)
    ensures multiset(keys)[x] <= 1
  {
    if keys != [] {
      var rest := keys[..|keys| - 1];
      assert keys == rest + [keys[|keys| - 1]];
      DistinctOnce(rest, x);
      if keys[|keys| - 1] == x {
        assert x !in rest;
      }
    }
  }

  /** A reordering of distinct keys is distinct. */
  lemma PermutationDistinct(keys: seq<nat>, order: seq<nat>)
    requires Distinct(keys) && multiset(order) == multiset(keys)
    ensures Distinct(order)
  {
    forall i, j | 0 <= i < j < |order|
      ensures order[i] != order[j]
    {
      if order[i] == order[j] {
        var x := order[i];
        assert order == order[..j] + [x] + order[j + 1..];
        assert x in order[..j];
        assert multiset(order[..j])[x] >= 1;
        assert multiset(order)[x] >= 2;
        DistinctOnce(keys, x);
      }
    }
  }

  /** Appending one more element after two lists. */
  lemma AppendOne<T>(a: seq<T>, b: seq<T>, x: T)
    ensures a + (b + [x]) == (a + b) + [x]
  {
  }

  /** The ids from, from + 1, ..., from + n - 1. */
  function Consecutive(from: nat, n: nat): (r: seq<nat>)
    ensures |r| == n
    ensures forall i :: 0 <= i < n ==> r[i] == from + i
  {
    if n == 0 then [] else Consecutive(from, n - 1) + [from + n - 1]
  }

  /** The largest of a non-empty set of values (Python's `max` over the
      values of a dict). */
  method MaxOf(s: set<real>) returns (m: real)
    requires s != {}
    ensures m in s
    ensures forall x :: x in s ==> x <= m
  {
    if forall y :: y !in s {
      assert false;
    }
    var x :| x in s;
    m := x;
    var rest := s - {x};
    while rest != {}
      invariant rest <= s && m in s
      invariant forall y :: y in s && y !in rest ==> y <= m
      decreases |rest|
    {
      if forall z :: z !in rest {
        assert false;
      }
      var y :| y in rest;
      if m < y {
        m := y;
      }
      rest := rest - {y};
    }
  }

  /** `green_cars / total_cars` as model.py writes it: Python raises
      ZeroDivisionError (None here) when no car was sold in the period. */
  function GreenShareAsWritten(green: nat, total: nat): (r: Option<real>)
    ensures r.None? <==> total == 0
    ensures r.Some? ==> r.value * total as real == green as real
  {
    if total == 0 then None else Some(green as real / total as real)
  }

  /** The green share after a period in which nothing was sold is not
      defined as written: the controller stops with an error. */
  lemma NoSalesStopsTheRun(green: nat)
    ensures GreenShareAsWritten(green, 0).None?
  {
  }

  /** The green market share: the green sales over all sales, and 0 when
      nothing was sold. */
  function GreenShare(green: nat, total: nat): (r: real)
    ensures total == 0 ==> r == 0.0
    ensures total > 0 ==> r * total as real == green as real
    ensures 0.0 <= r
    ensures green <= total ==> r <= 1.0
  {
    if total == 0 then 0.0 else green as real / total as real
  }

  /** m is the largest of the values s. */
  predicate IsMaxOf(m: real, s: set<real>)
  {
    m in s && forall x :: x in s ==> x <= m
  }

  /** The green records of the periods before `upTo`: shares are never
      negative, each station value is 1 plus a recorded share, 1 before
      period 9, and station values never decrease from one period to a
      later one. */
  ghost predicate GreenRecords(shares: map<nat, real>, stations: map<nat, real>, upTo: nat)
  {
    && (forall s :: s in shares ==> s < upTo && shares[s] >= 0.0)
    && (forall s :: s in stations ==> s < upTo && stations[s] - 1.0 in shares.Values)
    && (forall s :: s in stations && s < 9 ==> stations[s] == 1.0)
    && (forall s, s' :: s in stations && s' in stations && s <= s' ==> stations[s] <= stations[s'])
  }

  /** Recording period t as update_green_stations does (a share of 0 and
      one station before period 9; from then on a non-negative share and 1
      plus the largest share so far) keeps the records valid: in particular
      the station count is at least 1 and never lower than in any earlier
      period. */
  lemma GreenRecordsStep(shares: map<nat, real>, stations: map<nat, real>, t: nat, share: real, station: real)
    requires GreenRecords(shares, stations, t)
    requires t < 9 ==> share == 0.0 && station == 1.0
    requires t >= 9 ==> share >= 0.0 && IsMaxOf(station - 1.0, shares[t := share].Values)
    ensures GreenRecords(shares[t := share], stations[t := station], t + 1)
    ensures station >= 1.0
    ensures forall s :: s in stations ==> stations[s] <= station
  {
    var sh, st := shares[t := share], stations[t := station];
    assert share in sh.Values by {
      assert sh[t] == share;
    }
    forall x | x in shares.Values
      ensures x in sh.Values
    {
      var s :| s in shares && shares[s] == x;
      assert sh[s] == x;
    }
    forall s | s in st
      ensures st[s] - 1.0 in sh.Values
    {
      if s != t {
        assert st[s] == stations[s];
      }
    }
  }

  /** The offers of firm f's cars of technologies `techs`, in that order,
      each at the car's current price and the firm's current share of its
      technology. */
  function FirmOffers(f: Firm, techs: seq<Tech>, t: nat): (r: seq<Offer>)
    reads f`cars, f`techShare, f.cars.Values`salesPrice
    requires forall k :: k in techs ==> k in f.cars
    ensures |r| == |techs|
    ensures forall i :: 0 <= i < |r| ==> r[i].firm == f && r[i].car == f.cars[techs[i]] && Current(r[i], t)
  {
    if techs == [] then []
    else
      var car := f.cars[techs[|techs| - 1]];
      FirmOffers(f, techs[..|techs| - 1], t) + [Offer(f, car, car.salesPrice, f.TechShareAt(car.tech, t))]
  }

  /** The counter (k, s) of a `defaultdict(int)` table of counters. */
  function CountOf(counts: map<(Tech, nat), nat>, k: Tech, s: nat): nat
  {
    if (k, s) in counts then counts[(k, s)] else 0
  }

  /** `counts[k][s] += 1`: that counter grows by one, no other changes. */
  function Bump(counts: map<(Tech, nat), nat>, k: Tech, s: nat): (r: map<(Tech, nat), nat>)
    ensures CountOf(r, k, s) == CountOf(counts, k, s) + 1
    ensures forall k': Tech, s': nat :: (k', s') != (k, s) ==> CountOf(r, k', s') == CountOf(counts, k', s')
  {
    counts[(k, s) := CountOf(counts, k, s) + 1]
  }

  /** The agents of `agents` under the keys, in the keys' order. */
  function Members<A(==)>(agents: map<nat, A>, keys: seq<nat>): (r: seq<A>)
    requires forall j :: 0 <= j < |keys| ==> keys[j] in agents
    ensures |r| == |keys|
    ensures forall j :: 0 <= j < |keys| ==> r[j] == agents[keys[j]] && r[j] in agents.Values
  {
    if keys == [] then [] else Members(agents, keys[..|keys| - 1]) + [agents[keys[|keys| - 1]]]
  }

  /** Agents keyed by their ids, listed under distinct keys, are distinct. */
  lemma MembersDistinct(agents: map<nat, Consumer>, keys: seq<nat>)
    requires forall j :: 0 <= j < |keys| ==> keys[j] in agents
    requires forall k :: k in agents ==> agents[k].id == k
    requires Distinct(keys)
    ensures forall a, b :: 0 <= a < b < |keys| ==> Members(agents, keys)[a] != Members(agents, keys)[b]
  {
    var r := Members(agents, keys);
    forall a, b | 0 <= a < b < |keys| ensures r[a] != r[b] {
      assert r[a].id == keys[a] && r[b].id == keys[b];
    }
  }

  /** The emissions of the consumers of `cs`, added up in that order. */
  function TotalDriving(cs: seq<Consumer>, p: Params): real
    reads (set i | 0 <= i < |cs| :: cs[i])`myCar
  {
    if cs == [] then 0.0 else TotalDriving(cs[..|cs| - 1], p) + cs[|cs| - 1].Driving(p)
  }

  /** The total over two groups of consumers is the sum of their totals. */
  lemma {:induction false} TotalDrivingAppend(a: seq<Consumer>, b: seq<Consumer>, p: Params)
    ensures TotalDriving(a + b, p) == TotalDriving(a, p) + TotalDriving(b, p)
    decreases |b|
  {
    if b == [] {
      assert a + b == a;
    } else {
      var n := |b| - 1;
      assert (a + b)[..|a + b| - 1] == a + b[..n];
      assert (a + b)[|a + b| - 1] == b[n];
      TotalDrivingAppend(a, b[..n], p);
    }
  }

  /** Where no consumer of `cs` owns a car, they drive nothing. */
  lemma {:induction false} NoCarNoEmissions(cs: seq<Consumer>, p: Params)
    requires forall i :: 0 <= i < |cs| ==> cs[i].myCar == null
    ensures TotalDriving(cs, p) == 0.0
  {
    if cs != [] {
      NoCarNoEmissions(cs[..|cs| - 1], p);
    }
  }

  /** `emissions / report.loc[0, 'emissions']`: the period's emissions
      relative to those of period 0, None for the NaN or infinity of a
      division by a zero base. */
  function EmissionsIndex(emissions: real, base: real): (r: Option<real>)
    ensures r.Some? <==> base != 0.0
  {
    if base != 0.0 then Some(emissions / base) else None
  }

  /** An index times its base gives back the period's emissions; period
      0, its own base, has index 1. */
  lemma EmissionsIndexScales(emissions: real, base: real)
    requires base != 0.0
    ensures EmissionsIndex(emissions, base).value * base == emissions
    ensures EmissionsIndex(base, base) == Some(1.0)
  {
    var q := emissions / base;
    assert q * base == emissions;
    assert base / base == 1.0;
  }

  /** The period at which the `controller` loop, as written, stops when it
      starts at period t and may run at most n more periods: after each
      run the period goes up by one, and the loop ends only when the new
      period equals T. */
  function StopAsWritten(t: nat, T: nat, n: nat): (stop: Option<nat>)
    ensures stop.Some? ==> stop.value == T && t < T <= t + n
    ensures stop.None? && t < T ==> t + n < T
    decreases n
  {
    if n == 0 then None
    else if t + 1 == T then Some(t + 1)
    else StopAsWritten(t + 1, T, n - 1)
  }

  /** As written, a controller with T = 0 never stops, however many
      periods it runs. */
  lemma NeverStopsAtZero(n: nat)
    ensures StopAsWritten(0, 0, n) == None
  {
  }

  /** From a period before T the loop as written stops at T, after T - t
      periods (the behaviour Controller states, given t < T). */
  lemma {:induction false} StopsAtT(t: nat, T: nat)
    requires t < T
    ensures StopAsWritten(t, T, T - t) == Some(T)
    decreases T - t
  {
    if t + 1 < T {
      StopsAtT(t + 1, T);
    }
  }

  /** The report's columns hold every period from `from` to `to` - 1. */
  ghost predicate Reports(shares: map<nat, real>, emitted: map<nat, real>, index: map<nat, Option<real>>,
                          from: nat, to: nat)
  {
    forall s :: from <= s < to ==> s in shares && s in emitted && s in index
  }

  /** A period that adds its row to each column extends the report by
      one period, and period 0's emissions stay in it. */
  lemma ReportsNext(shares: map<nat, real>, emitted: map<nat, real>, index: map<nat, Option<real>>,
                    shares': map<nat, real>, emitted': map<nat, real>, index': map<nat, Option<real>>,
                    from: nat, t: nat)
    requires Reports(shares, emitted, index, from, t) && (t == 0 || 0 in emitted)
    requires shares.Keys + {t} == shares'.Keys && emitted.Keys + {t} == emitted'.Keys
    requires index.Keys + {t} == index'.Keys
    ensures Reports(shares', emitted', index', from, t + 1) && 0 in emitted'
  {
    forall s | from <= s < t + 1 ensures s in shares' && s in emitted' && s in index' {
      assert s == t || (s in shares && s in emitted && s in index);
    }
    assert t == 0 || 0 in emitted;
  }

  /** One consumer's turn of a demand pass: who, the stretch [start, end)
      of the random stream its decision draws, the car bought (if any) and
      the decision's trace. */
  datatype Turn = Turn(buyer: Consumer, start: nat, end: nat, bought: Option<Offer>, trace: Trace)

  /** The turn is the one decision (see Decided) its buyer makes from its
      stretch of the stream. */
  ghost predicate TurnDecided(rng: Rng, p: Params, market: seq<Offer>, eMax: real, station: real, turn: Turn)
  {
    Decided(rng, turn.start, turn.end, p, market, turn.buyer.priceMax, eMax, turn.buyer.region, station,
            turn.bought, turn.trace)
  }

  /** The turns of a demand pass over the market, in order: each a decision
      whose draws start where the previous turn's draws ended. */
  ghost predicate Decisions(rng: Rng, p: Params, market: seq<Offer>, eMax: real, station: real, turns: seq<Turn>)
  {
    && (forall i {:trigger TurnDecided(rng, p, market, eMax, station, turns[i])} :: 0 <= i < |turns| ==>
          TurnDecided(rng, p, market, eMax, station, turns[i]))
    && (forall i :: 0 < i < |turns| ==> turns[i - 1].end == turns[i].start)
  }

  /** A decision that starts where the last turn ended extends a demand
      pass. */
  lemma DecisionsStep(rng: Rng, p: Params, market: seq<Offer>, eMax: real, station: real,
                      turns: seq<Turn>, turn: Turn)
    requires Decisions(rng, p, market, eMax, station, turns)
    requires turns != [] ==> turns[|turns| - 1].end == turn.start
    requires TurnDecided(rng, p, market, eMax, station, turn)
    ensures Decisions(rng, p, market, eMax, station, turns + [turn])
  {
    var all := turns + [turn];
    forall i | 0 <= i < |all| ensures TurnDecided(rng, p, market, eMax, station, all[i]) {
      if i < |turns| {
        assert all[i] == turns[i];
        assert TurnDecided(rng, p, market, eMax, station, turns[i]);
      }
    }
    forall i | 0 < i < |all| ensures all[i - 1].end == all[i].start {
      if i < |turns| {
        assert all[i - 1] == turns[i - 1] && all[i] == turns[i];
      }
    }
  }

  /** The turns of a demand pass draw disjoint, non-empty stretches of
      the stream, in the order of the turns. */
  lemma {:induction false} StartsIncrease(rng: Rng, p: Params, market: seq<Offer>, eMax: real, station: real,
                                          turns: seq<Turn>, i: nat, j: nat)
    requires Decisions(rng, p, market, eMax, station, turns) && j < i < |turns|
    ensures turns[j].start < turns[j].end <= turns[i].start
  {
    assert TurnDecided(rng, p, market, eMax, station, turns[j]);
    if j < i - 1 {
      StartsIncrease(rng, p, market, eMax, station, turns, i - 1, j);
      assert TurnDecided(rng, p, market, eMax, station, turns[i - 1]);
    }
  }

  /** The number of purchases of technology k in the turns. */
  function TechSales(turns: seq<Turn>, k: Tech): (n: nat)
    ensures n <= |turns|
  {
    if turns == [] then 0
    else
      var last := turns[|turns| - 1].bought;
      TechSales(turns[..|turns| - 1], k) + (if last.Some? && last.value.car.tech == k then 1 else 0)
  }

  /** The counters `counts` are those of `base` with the purchases of the
      turns added to period t's counters of their technologies. */
  ghost predicate Tallied(counts: map<(Tech, nat), nat>, base: map<(Tech, nat), nat>, turns: seq<Turn>, t: nat)
  {
    && (forall k: Tech :: CountOf(counts, k, t) == CountOf(base, k, t) + TechSales(turns, k))
    && (forall k: Tech, s: nat :: s != t ==> CountOf(counts, k, s) == CountOf(base, k, s))
  }

  /** Counting one more turn's purchase (`update_car_info`) keeps the tally. */
  lemma TallyStep(counts: map<(Tech, nat), nat>, base: map<(Tech, nat), nat>, turns: seq<Turn>, turn: Turn, t: nat)
    requires Tallied(counts, base, turns, t)
    ensures turn.bought.None? ==> Tallied(counts, base, turns + [turn], t)
    ensures turn.bought.Some? ==> Tallied(Bump(counts, turn.bought.value.car.tech, t), base, turns + [turn], t)
  {
    assert (turns + [turn])[..|turns|] == turns;
  }

  /** 1 when the purchase is a car of technology k from firm f, else 0. */
  function SaleOf(b: Option<Offer>, f: Firm, k: Tech): nat
  {
    if b.Some? && b.value.firm == f && b.value.car.tech == k then 1 else 0
  }

  /** The number of purchases from firm f of technology k in the turns. */
  function FirmSales(turns: seq<Turn>, f: Firm, k: Tech): (n: nat)
    ensures n <= TechSales(turns, k)
  {
    if turns == [] then 0
    else FirmSales(turns[..|turns| - 1], f, k) + SaleOf(turns[|turns| - 1].bought, f, k)
  }

  /** One more turn adds its sale to every firm's count. */
  lemma FirmSalesStep(turns: seq<Turn>, turn: Turn)
    ensures forall f: Firm, k: Tech :: FirmSales(turns + [turn], f, k) == FirmSales(turns, f, k) + SaleOf(turn.bought, f, k)
  {
    assert (turns + [turn])[..|turns|] == turns;
  }

  /** The car a consumer owns after its turn: the one bought, or the one it
      had. */
  function CarAfter(turn: Turn, before: Vehicle?): Vehicle?
  {
    if turn.bought.Some? then turn.bought.value.car else before
  }

  /** The technologies `new_firm` copies from a portfolio whose keys are
      `techs`, for the draw u: out of a portfolio of both technologies both
      below 1/3, only gas below 2/3 and only green otherwise; out of any
      other portfolio all of its technologies. */
  function CopiedTechs(techs: seq<Tech>, u: real): seq<Tech>
  {
    if |techs| == 2 then
      if u < 1.0 / 3.0 then [Gas, Green] else if u < 2.0 / 3.0 then [Gas] else [Green]
    else techs
  }

  /** The copied technologies are technologies of the portfolio, listed
      once each, and there is at least one when the portfolio is not
      empty. */
  lemma CopiedFromPortfolio(techs: seq<Tech>, u: real)
    requires forall i, j :: 0 <= i < j < |techs| ==> techs[i] != techs[j]
    ensures forall k :: k in CopiedTechs(techs, u) ==> k in techs
    ensures forall i, j :: 0 <= i < j < |CopiedTechs(techs, u)| ==>
      CopiedTechs(techs, u)[i] != CopiedTechs(techs, u)[j]
    ensures |CopiedTechs(techs, u)| > 0 <==> |techs| > 0
  {
    if |techs| == 2 {
      assert techs[0] != techs[1];
      assert Gas in techs && Green in techs;
    }
  }

  /** A cell of the report as pandas holds it: a number, or NaN (the value
      of every cell of a row that was created by setting another column). */
  datatype Cell = NaN | Num(value: real)

  /** `cell += 1` on a report cell: NaN stays NaN. */
  function IncrementAsWritten(c: Cell): (r: Cell)
    ensures r.Num? <==> c.Num?
  {
    if c.NaN? then NaN else Num(c.value + 1.0)
  }

  /** The report's new-firm cell of period t as model.py keeps it: the row
      is created by update_green_stations, so the cell starts at NaN, and
      after n replacements it is still NaN. */
  function NewFirmCellAsWritten(n: nat): Cell
  {
    if n == 0 then NaN else IncrementAsWritten(NewFirmCellAsWritten(n - 1))
  }

  /** A period with a replacement never shows it in the report as written:
      after one new firm the cell is NaN where the count 1 was intended. */
  lemma {:induction false} NewFirmCountLost(n: nat)
    ensures NewFirmCellAsWritten(n) == NaN
  {
    if n > 0 {
      NewFirmCountLost(n - 1);
    }
  }

  /** The new-firm count of period s in the report, 0 before the first
      replacement of the period. */
  function NewFirmsAt(column: map<nat, nat>, s: nat): nat
  {
    if s in column then column[s] else 0
  }

  /** `self.report.loc[t, 'new_firms'] += 1` on a count that starts at 0:
      period s counts one more new firm, no other period changes. */
  function CountNewFirm(column: map<nat, nat>, s: nat): (r: map<nat, nat>)
    ensures NewFirmsAt(r, s) == NewFirmsAt(column, s) + 1
    ensures forall s' :: s' != s ==> NewFirmsAt(r, s') == NewFirmsAt(column, s')
  {
    column[s := NewFirmsAt(column, s) + 1]
  }

  /** The car `copy` is new_firm's copy of the car `model` for the three
      draws from position pos: production cost, energy capacity and energy
      economy in turn uniform between the technology's baseline and the
      model's value, and the baseline quality (its price is the one the
      Vehicle constructor computes). */
  ghost predicate Imitates(p: Params, rng: Rng, copy: Vehicle, model: Vehicle, pos: nat)
  {
    var k := model.tech;
    && copy.tech == k
    && copy.productionCost == UniformOf(p.productionCost(k), model.productionCost, rng.draw(pos))
    && copy.ec == UniformOf(p.energyCapacity(k), model.ec, rng.draw(pos + 1))
    && copy.ee as real == UniformOf(p.energyEconomy(k), model.ee as real, rng.draw(pos + 2))
    && copy.ql == p.qualityLevel(Gas)
  }

  /** Every characteristic of a copied car lies between the baseline of its
      technology and the value of the car it copies. */
  lemma ImitationBetween(p: Params, rng: Rng, copy: Vehicle, model: Vehicle, pos: nat)
    requires rng.Valid() && Imitates(p, rng, copy, model, pos)
    ensures Between(copy.productionCost, p.productionCost(model.tech), model.productionCost)
    ensures Between(copy.ec, p.energyCapacity(model.tech), model.ec)
    ensures Between(copy.ee as real, p.energyEconomy(model.tech), model.ee as real)
  {
    var k := model.tech;
    UniformBetween(p.productionCost(k), model.productionCost, rng.draw(pos));
    UniformBetween(p.energyCapacity(k), model.ec, rng.draw(pos + 1));
    UniformBetween(p.energyEconomy(k), model.ee as real, rng.draw(pos + 2));
  }

  /** One pass of the portfolio loop of `new_firm`: three uniform draws and
      the car built from them. A copy of a car with positive
      characteristics has positive characteristics and price. */
  method CopyCar(rng: Rng, p: Parameters, pol: Policy, e: real, model: Vehicle) returns (car: Vehicle)
    requires rng.Valid()
    requires model.productionCost > 0.0 && model.ee > 0.0 && model.ec > 0.0
    modifies rng`pos
    ensures fresh(car) && Imitates(p, rng, car, model, old(rng.pos))
    ensures car.productionCost > 0.0 && car.ee > 0.0 && car.ec > 0.0 && car.salesPrice > 0.0
    ensures rng.pos == old(rng.pos) + 3
  {
    var k := model.tech;
    var pc := rng.Uniform(p.productionCost(k), model.productionCost);
    var ec := rng.Uniform(p.energyCapacity(k), model.ec);
    var ee := rng.Uniform(p.energyEconomy(k), model.ee as real);
    car := new Vehicle(p, pol, e, k, Some(pc), Some(ee), Some(ec), None);
  }

  /** copies[i] is the copy of models[i] drawn from position pos + 3 * i,
      for every i (see Imitates). */
  ghost predicate Copies(p: Params, rng: Rng, copies: seq<Vehicle>, models: seq<Vehicle>, pos: nat)
    decreases |copies|
  {
    && |copies| == |models|
    && (copies == [] ||
        var n := |copies| - 1;
        && Copies(p, rng, copies[..n], models[..n], pos)
        && Imitates(p, rng, copies[n], models[n], pos + 3 * n))
  }

  /** One more copy, drawn right after the ones before, extends the copies. */
  lemma CopiesStep(p: Params, rng: Rng, copies: seq<Vehicle>, models: seq<Vehicle>, pos: nat,
                   copy: Vehicle, at: nat)
    requires |copies| < |models| && Copies(p, rng, copies, models[..|copies|], pos)
    requires at == pos + 3 * |copies| && Imitates(p, rng, copy, models[|copies|], at)
    ensures Copies(p, rng, copies + [copy], models[..|copies| + 1], pos)
  {
    var n := |copies|;
    assert (copies + [copy])[..n] == copies;
    assert models[..n + 1][..n] == models[..n];
  }

  /** Every copy is the copy of its model from its own three draws. */
  lemma {:induction false} CopiesAt(p: Params, rng: Rng, copies: seq<Vehicle>, models: seq<Vehicle>, pos: nat, i: nat)
    requires Copies(p, rng, copies, models, pos) && i < |copies|
    ensures Imitates(p, rng, copies[i], models[i], pos + 3 * i)
  {
    var n := |copies| - 1;
    if i < n {
      CopiesAt(p, rng, copies[..n], models[..n], pos, i);
      assert copies[..n][i] == copies[i] && models[..n][i] == models[i];
    }
  }

  /** The technologies of the cars, in order. */
  function TechsOf(cars: seq<Vehicle>): (r: seq<Tech>)
    ensures |r| == |cars| && forall i :: 0 <= i < |cars| ==> r[i] == cars[i].tech
  {
    seq(|cars|, i requires 0 <= i < |cars| => cars[i].tech)
  }

  /** The portfolio that holds copies[i] under the technology of
      models[i], filled in order. */
  function Portfolio(models: seq<Vehicle>, copies: seq<Vehicle>): map<Tech, Vehicle>
    requires |models| == |copies|
  {
    if models == [] then map[]
    else
      var n := |models| - 1;
      Portfolio(models[..n], copies[..n])[models[n].tech := copies[n]]
  }

  /** Filled from cars of distinct technologies, the portfolio holds
      exactly their technologies, each with its own copy. */
  lemma {:induction false} PortfolioAt(models: seq<Vehicle>, copies: seq<Vehicle>)
    requires |models| == |copies|
    requires forall i, j :: 0 <= i < j < |models| ==> models[i].tech != models[j].tech
    ensures forall k :: k in Portfolio(models, copies) <==> k in TechsOf(models)
    ensures forall i :: 0 <= i < |models| ==> Portfolio(models, copies)[models[i].tech] == copies[i]
  {
    if models != [] {
      var n := |models| - 1;
      PortfolioAt(models[..n], copies[..n]);
      assert TechsOf(models) == TechsOf(models[..n]) + [models[n].tech];
    }
  }

  /** The next copy extends the technologies and the portfolio in order;
      its technology is not held yet. */
  lemma FurnishedNext(models: seq<Vehicle>, copies: seq<Vehicle>, car: Vehicle)
    requires |copies| < |models| && car.tech == models[|copies|].tech
    requires forall i, j :: 0 <= i < j < |models| ==> models[i].tech != models[j].tech
    ensures car.tech !in TechsOf(models[..|copies|])
    ensures TechsOf(models[..|copies|]) + [car.tech] == TechsOf(models[..|copies| + 1])
    ensures Portfolio(models[..|copies|], copies)[car.tech := car] == Portfolio(models[..|copies| + 1], copies + [car])
  {
    var n := |copies|;
    assert models[..n + 1][..n] == models[..n];
    assert (copies + [car])[..n] == copies;
  }

  /** nf holds the cars `copies` under the technologies of the first
      |copies| cars of `models`, in that order, with the green-adoption
      marker set to period t when one of them is green, and a valid
      portfolio. */
  ghost predicate Furnished(nf: Firm, models: seq<Vehicle>, copies: seq<Vehicle>, p: Params, t: nat)
    reads nf`cars, nf`techs, nf`greenAdoptionMarker, nf`totalShare, nf.cars.Values`salesPrice
  {
    && |copies| <= |models|
    && nf.techs == TechsOf(models[..|copies|])
    && nf.cars == Portfolio(models[..|copies|], copies)
    && nf.greenAdoptionMarker == (if Green in nf.techs then Some(t) else None)
    && nf.Valid(p)
  }

  /** One pass of the portfolio loop of `new_firm`: the copy of the next
      car joins the portfolio. */
  method FurnishStep(nf: Firm, models: seq<Vehicle>, rng: Rng, p: Parameters, pol: Policy, e: real,
                     t: nat, n: nat, ghost copies: seq<Vehicle>, ghost pos: nat)
    returns (ghost copies': seq<Vehicle>)
    requires rng.Valid() && n == |copies| < |models| && rng.pos == pos + 3 * n
    requires Furnished(nf, models, copies, p, t) && Copies(p, rng, copies, models[..n], pos)
    requires forall i :: 0 <= i < |models| ==>
      models[i].productionCost > 0.0 && models[i].ee > 0.0 && models[i].ec > 0.0
    requires forall i, j :: 0 <= i < j < |models| ==> models[i].tech != models[j].tech
    modifies nf`cars, nf`techs, nf`greenAdoptionMarker, rng`pos
    ensures Furnished(nf, models, copies', p, t) && Copies(p, rng, copies', models[..n + 1], pos)
    ensures |copies'| == n + 1 && rng.pos == pos + 3 * (n + 1)
  {
    ghost var at := rng.pos;
    var car := CopyCar(rng, p, pol, e, models[n]);
    FurnishedNext(models, copies, car);
    nf.Adopt(car, p);
    if car.tech == Green {
      nf.greenAdoptionMarker := Some(t);
    }
    copies' := copies + [car];
    CopiesStep(p, rng, copies, models, pos, car, at);
  }

  /** The cars of the portfolio `cars` under the technologies, in order. */
  function ModelsOf(cars: map<Tech, Vehicle>, techs: seq<Tech>): (r: seq<Vehicle>)
    requires forall k :: k in techs ==> k in cars
    ensures |r| == |techs| && forall i :: 0 <= i < |techs| ==> r[i] == cars[techs[i]]
  {
    seq(|techs|, i requires 0 <= i < |techs| => cars[techs[i]])
  }

  /** The portfolio loop of `new_firm` on the new firm nf, whose portfolio
      is empty: per car of `models`, in order, nf adopts a copy of it (see
      Imitates and Copies); adopting a green car sets the green-adoption
      marker to period t. */
  /** The cars a portfolio holds for distinct technologies are distinct
      vehicles of those technologies, in that order, with the portfolio's
      positive characteristics. */
  lemma ModelsOfPortfolio(cars: map<Tech, Vehicle>, techs: seq<Tech>)
    requires forall k :: k in cars ==>
      cars[k].tech == k && cars[k].productionCost > 0.0 && cars[k].ee > 0.0 && cars[k].ec > 0.0
    requires forall k :: k in techs ==> k in cars
    requires forall i, j :: 0 <= i < j < |techs| ==> techs[i] != techs[j]
    ensures TechsOf(ModelsOf(cars, techs)) == techs
    ensures forall i :: 0 <= i < |techs| ==>
      ModelsOf(cars, techs)[i].productionCost > 0.0 && ModelsOf(cars, techs)[i].ee > 0.0
      && ModelsOf(cars, techs)[i].ec > 0.0
    ensures forall i, j :: 0 <= i < j < |techs| ==> ModelsOf(cars, techs)[i].tech != ModelsOf(cars, techs)[j].tech
  {
  }

  method Furnish(nf: Firm, models: seq<Vehicle>, rng: Rng, p: Parameters, pol: Policy, e: real, t: nat, ghost pos: nat)
    returns (ghost copies: seq<Vehicle>)
    requires rng.Valid() && rng.pos == pos && nf.Valid(p) && nf.cars == map[] && nf.techs == [] && nf.greenAdoptionMarker == None
    requires forall i :: 0 <= i < |models| ==>
      models[i].productionCost > 0.0 && models[i].ee > 0.0 && models[i].ec > 0.0
    requires forall i, j :: 0 <= i < j < |models| ==> models[i].tech != models[j].tech
    requires nf.soldCars == map[] && nf.profit == map[] && nf.totalShare == map[] && nf.techShare == map[]
    requires nf.history == []
    modifies nf`cars, nf`techs, nf`greenAdoptionMarker, rng`pos
    ensures |copies| == |models| && nf.Valid(p)
    ensures nf.techs == TechsOf(models) && nf.cars == Portfolio(models, copies)
    ensures nf.greenAdoptionMarker == (if Green in nf.techs then Some(t) else None)
    ensures Copies(p, rng, copies, models, pos)
    ensures rng.pos == pos + 3 * |models|
    ensures nf.soldCars == map[] && nf.profit == map[] && nf.totalShare == map[] && nf.techShare == map[]
    ensures nf.history == []
  {
    copies := [];
    for n := 0 to |models|
      invariant |copies| == n
      invariant Furnished(nf, models, copies, p, t) && Copies(p, rng, copies, models[..n], pos)
      invariant rng.pos == pos + 3 * n
    {
      copies := FurnishStep(nf, models, rng, p, pol, e, t, n, copies, pos);
    }
    assert models[..|models|] == models;
  }

  /** The new firm nf that `new_firm` makes under the id in period s,
      copying the portfolio (cars, techs) of the firm it imitates, from the
      draws at position pos on: the id's region and budget from the
      outcomes; the technologies that CopiedTechs gives for the draw at
      pos, in that order, each with a copy of the imitated car made from
      the following draws (see Copies); the green-adoption marker set when
      green is copied; no records. */
  ghost predicate Spawned(nf: Firm, p: Params, rng: Rng, o: FirmOracle, cars: map<Tech, Vehicle>, techs: seq<Tech>,
                          id: nat, s: nat, copies: seq<Vehicle>, pos: nat)
    reads nf
  {
    var copied := CopiedTechs(techs, rng.draw(pos));
    && (forall k :: k in copied ==> k in cars)
    && nf.id == id && nf.region == o.region(id) && nf.budget == o.budget(id)
    && Copies(p, rng, copies, ModelsOf(cars, copied), pos + 1)
    && nf.techs == copied && nf.cars == Portfolio(ModelsOf(cars, copied), copies)
    && nf.greenAdoptionMarker == (if Green in copied then Some(s) else None)
    && nf.soldCars == map[] && nf.profit == map[] && nf.totalShare == map[] && nf.techShare == map[]
    && nf.history == []
  }

  /** The firm `new_firm` builds by copying a valid portfolio (cars, techs),
      from the draws at position pos on: the first decides what is copied,
      three more per copied car (see Spawned). */
  method Spawn(rng: Rng, p: Parameters, pol: Policy, e: real, o: FirmOracle,
               cars: map<Tech, Vehicle>, techs: seq<Tech>, id: nat, t: nat, ghost pos: nat)
    returns (nf: Firm, ghost copies: seq<Vehicle>)
    requires rng.Valid() && rng.pos == pos
    requires forall k :: k in cars ==>
      cars[k].tech == k && cars[k].productionCost > 0.0 && cars[k].ee > 0.0 && cars[k].ec > 0.0
    requires (forall k :: k in cars <==> k in techs) && forall i, j :: 0 <= i < j < |techs| ==> techs[i] != techs[j]
    modifies rng`pos
    ensures fresh(nf) && nf.Valid(p) && Spawned(nf, p, rng, o, cars, techs, id, t, copies, pos)
    ensures rng.pos == pos + 1 + 3 * |CopiedTechs(techs, rng.draw(pos))|
  {
    var u := rng.Random();
    var copied := CopiedTechs(techs, u);
    CopiedFromPortfolio(techs, u);
    var models := ModelsOf(cars, copied);
    ModelsOfPortfolio(cars, copied);
    nf := new Firm(id, o.region(id), o.budget(id), false, p, pol, e);
    copies := Furnish(nf, models, rng, p, pol, e, t, pos + 1);
  }

  /** One firm's turn of the offer pass (`update_profit`,
      `update_market_share`, `update_budget`, then, unless the firm is
      bankrupt, `change_portfolio` after period 9, `abandon_portfolio` and
      `invest_rd`): its books become those Tended gives, and the result is
      whether it went bankrupt. */
  method Tend(f: Firm, t: nat, o: FirmOracle, ghost p: Params) returns (bankrupt: bool)
    requires f.Valid(p) && o.WellFormed()
    modifies f`budget, f`profit, f`totalShare, f`techShare, f`history
    ensures f.Ledger() == Tended(old(f.Ledger()), f.id, t, o)
    ensures bankrupt <==> f.Ledger().budget < 0.0
    ensures f.Valid(p)
  {
    ghost var h := f.history;
    f.UpdateProfit(t, o);
    f.UpdateMarketShare(t, o, p);
    f.UpdateBudget(t, o);
    bankrupt := f.Bankrupt();
    OfferStepsAfter(h, t, bankrupt);
    if bankrupt {
      return;
    }
    if t > 9 {
      f.ChangePortfolio(t);
    }
    f.AbandonPortfolio(t);
    f.InvestRd(t);
  }

  /** The steps of a firm's turn, appended to its history one call at a
      time. */
  lemma OfferStepsAfter(h: seq<FirmStep>, t: nat, bankrupt: bool)
    ensures var head := h + [ProfitUpdated(t)] + [ShareUpdated(t)] + [BudgetUpdated(t)];
      && (bankrupt ==> h + OfferSteps(t, bankrupt) == head)
      && (!bankrupt && t > 9 ==>
            h + OfferSteps(t, bankrupt) == head + [PortfolioChanged(t)] + [PortfolioAbandoned(t)] + [RdInvested(t)])
      && (!bankrupt && t <= 9 ==> h + OfferSteps(t, bankrupt) == head + [PortfolioAbandoned(t)] + [RdInvested(t)])
  {
  }

  /** The books of the firms `keys` after each took its turn of the offer
      pass of period t, given their books before. */
  function TendedAll(before: seq<Books>, keys: seq<nat>, t: nat, o: FirmOracle): (after: seq<Books>)
    requires |before| == |keys|
    ensures |after| == |keys|
    ensures forall j :: 0 <= j < |keys| ==> after[j] == Tended(before[j], keys[j], t, o)
  {
    seq(|keys|, j requires 0 <= j < |keys| => Tended(before[j], keys[j], t, o))
  }

  /** The `landfill` of an offer pass: the keys, in pass order, whose
      books after the pass show a negative budget. */
  function Broke(keys: seq<nat>, after: seq<Books>): (r: seq<nat>)
    requires |keys| == |after|
    ensures forall k :: k in r <==> exists j :: 0 <= j < |keys| && keys[j] == k && after[j].budget < 0.0
    ensures |r| <= |keys|
  {
    if keys == [] then []
    else
      var n := |keys| - 1;
      Broke(keys[..n], after[..n]) + (if after[n].budget < 0.0 then [keys[n]] else [])
  }

  /** Growing the pass by one firm adds that firm to the landfill exactly
      when it went bankrupt. */
  lemma BrokeNext(keys: seq<nat>, after: seq<Books>, i: nat)
    requires |keys| == |after| && i < |keys|
    ensures Broke(keys[..i + 1], after[..i + 1])
            == Broke(keys[..i], after[..i]) + (if after[i].budget < 0.0 then [keys[i]] else [])
  {
    assert keys[..i + 1][..i] == keys[..i];
    assert after[..i + 1][..i] == after[..i];
  }

  /** A landfill of a pass over distinct keys lists each key once. */
  lemma {:induction false} BrokeDistinct(keys: seq<nat>, after: seq<Books>)
    requires |keys| == |after| && Distinct(keys)
    ensures Distinct(Broke(keys, after))
  {
    if keys != [] {
      var n := |keys| - 1;
      BrokeDistinct(keys[..n], after[..n]);
      if after[n].budget < 0.0 {
        assert keys[n] !in keys[..n];
        DistinctAppend(Broke(keys[..n], after[..n]), keys[n]);
      }
    }
  }

  /** The books of `keys`, in that order. */
  function BooksOf(books: map<nat, Books>, keys: seq<nat>): (r: seq<Books>)
    requires forall k :: k in keys ==> k in books
    ensures |r| == |keys| && forall j :: 0 <= j < |keys| ==> r[j] == books[keys[j]]
  {
    seq(|keys|, j requires 0 <= j < |keys| => books[keys[j]])
  }

  /** `del self.firms[x]` on the key order: x is gone, the other keys keep
      their order. */
  function Without(keys: seq<nat>, x: nat): (r: seq<nat>)
    ensures forall k :: k in r <==> k in keys && k != x
    ensures Distinct(keys) ==> Distinct(r)
  {
    if keys == [] then []
    else
      var n := |keys| - 1;
      var rest := Without(keys[..n], x);
      if keys[n] == x then rest
      else
        assert Distinct(keys) ==> keys[n] !in keys[..n];
        rest + [keys[n]]
  }

  /** Deleting a key of the front part of a key order leaves the back part
      as it is. */
  lemma {:induction false} WithoutAppend(front: seq<nat>, back: seq<nat>, x: nat)
    requires x !in back
    ensures Without(front + back, x) == Without(front, x) + back
  {
    if back != [] {
      var n := |back| - 1;
      assert (front + back)[..|front| + n] == front + back[..n];
      WithoutAppend(front, back[..n], x);
      assert back == back[..n] + [back[n]];
    } else {
      assert front + back == front;
    }
  }

  /** The key order after deleting the keys of `gone`, one after another. */
  function WithoutAll(keys: seq<nat>, gone: seq<nat>): (r: seq<nat>)
    ensures forall k :: k in r <==> k in keys && k !in gone
    ensures Distinct(keys) ==> Distinct(r)
  {
    if gone == [] then keys
    else Without(WithoutAll(keys, gone[..|gone| - 1]), gone[|gone| - 1])
  }

  /** Deleting a listed key from distinct keys shortens them by one. */
  lemma {:induction false} WithoutLength(keys: seq<nat>, x: nat)
    requires Distinct(keys) && x in keys
    ensures |Without(keys, x)| == |keys| - 1
  {
    var n := |keys| - 1;
    var front := keys[..n];
    assert keys == front + [keys[n]];
    assert Distinct(front) by {
      forall i, j | 0 <= i < j < |front| ensures front[i] != front[j] {
        assert front[i] == keys[i] && front[j] == keys[j];
      }
    }
    if keys[n] != x {
      assert x in front;
      WithoutLength(front, x);
      assert Without(keys, x) == Without(front, x) + [keys[n]];
    } else {
      assert x !in front by {
        forall i | 0 <= i < n ensures front[i] != x {
          assert front[i] == keys[i];
        }
      }
      WithoutGone(front, x);
      assert Without(keys, x) == Without(front, x);
    }
  }

  /** Deleting a key that is not listed changes nothing. */
  lemma {:induction false} WithoutGone(keys: seq<nat>, x: nat)
    requires x !in keys
    ensures Without(keys, x) == keys
  {
    if keys != [] {
      var n := |keys| - 1;
      WithoutGone(keys[..n], x);
      assert keys == keys[..n] + [keys[n]];
    }
  }

  /** Deleting distinct listed keys from distinct keys shortens them by
      the number of keys deleted. */
  lemma {:induction false} WithoutAllLength(keys: seq<nat>, gone: seq<nat>)
    requires Distinct(keys) && Distinct(gone) && forall k :: k in gone ==> k in keys
    ensures |WithoutAll(keys, gone)| + |gone| == |keys|
  {
    if gone != [] {
      var n := |gone| - 1;
      WithoutAllLength(keys, gone[..n]);
      assert gone[n] !in gone[..n];
      WithoutLength(WithoutAll(keys, gone[..n]), gone[n]);
    }
  }

  /** The offer pass keeps the number of firms: each bankrupt firm of the
      landfill, a part of the firms, is deleted and a new one takes the
      next id. */
  lemma FirmCountKept(keys: seq<nat>, landfill: seq<nat>, from: nat)
    requires Distinct(keys) && Distinct(landfill) && forall k :: k in landfill ==> k in keys
    ensures |WithoutAll(keys, landfill) + Consecutive(from, |landfill|)| == |keys|
  {
    WithoutAllLength(keys, landfill);
  }

  /** One more replacement on the key order: deleting the next bankrupt
      key after appending the next new id is deleting it from the old
      keys, with the new ids after them. */
  lemma ReplacedKeys(keys: seq<nat>, gone: seq<nat>, j: nat, from: nat, before: seq<nat>, after: seq<nat>)
    requires j < |gone| && gone[j] < from
    requires before == WithoutAll(keys, gone[..j]) + Consecutive(from, j)
    requires after == Without(before + [from + j], gone[j])
    ensures after == WithoutAll(keys, gone[..j + 1]) + Consecutive(from, j + 1)
  {
    assert gone[..j + 1][..j] == gone[..j];
    var front, back := WithoutAll(keys, gone[..j]), Consecutive(from, j) + [from + j];
    assert gone[j] !in back;
    WithoutAppend(front, back, gone[j]);
    assert front + Consecutive(from, j) + [from + j] == front + back;
  }

  /** The firms, key order, next id and new-firm counts after the first j
      replacements of the landfill, from those before them: the first j
      bankrupt keys gone from the key order and j new ids after it, the
      other firms untouched, and j more new firms counted in period s. */
  ghost predicate Replaced(firms0: map<nat, Firm>, keys0: seq<nat>, ids0: nat, column0: map<nat, nat>,
                           s: nat, landfill: seq<nat>, j: nat,
                           firms: map<nat, Firm>, keys: seq<nat>, ids: nat, column: map<nat, nat>)
  {
    && j <= |landfill|
    && keys == WithoutAll(keys0, landfill[..j]) + Consecutive(ids0, j)
    && ids == ids0 + j
    && NewFirmsAt(column, s) == NewFirmsAt(column0, s) + j
    && forall k :: k in firms0 && k !in landfill[..j] ==> k in firms && firms[k] == firms0[k]
  }

  /** One replacement more: a new firm under the next id and the next
      bankrupt firm deleted. */
  lemma ReplacedNext(firms0: map<nat, Firm>, keys0: seq<nat>, ids0: nat, column0: map<nat, nat>,
                     s: nat, landfill: seq<nat>, j: nat,
                     firms1: map<nat, Firm>, keys1: seq<nat>, ids1: nat, column1: map<nat, nat>,
                     firms2: map<nat, Firm>, keys2: seq<nat>, ids2: nat, column2: map<nat, nat>)
    requires Distinct(landfill) && j < |landfill| && landfill[j] < ids0
    requires Replaced(firms0, keys0, ids0, column0, s, landfill, j, firms1, keys1, ids1, column1)
    requires keys2 == Without(keys1 + [ids1], landfill[j]) && ids2 == ids1 + 1
    requires NewFirmsAt(column2, s) == NewFirmsAt(column1, s) + 1
    requires forall k :: k in firms1 && k != landfill[j] ==> k in firms2 && firms2[k] == firms1[k]
    ensures Replaced(firms0, keys0, ids0, column0, s, landfill, j + 1, firms2, keys2, ids2, column2)
  {
    ReplacedKeys(keys0, landfill, j, ids0, keys1, keys2);
    forall k | k in firms0 && k !in landfill[..j + 1]
      ensures k in firms2 && firms2[k] == firms0[k]
    {
      assert k !in landfill[..j] && k != landfill[j];
    }
  }

  /** `sim`: the configuration, the random stream, the outcomes of the firm
      operations, the agents keyed by id (with their dicts' insertion order),
      the per-period records and the report's columns. */
  class Simulation {
    const p: Parameters
    const policy: Policy
    const e: real
    const eMax: real
    const rng: Rng
    const oracle: FirmOracle
    const regionOf: nat -> Region
    var t: nat
    var ids: nat
    var running: bool
    var firms: map<nat, Firm>
    var firmKeys: seq<nat>
    var consumers: map<nat, Consumer>
    var consumerKeys: seq<nat>
    var greenMarketShare: map<nat, real>
    var greenStations: map<nat, real>
    var numCars: map<(Tech, nat), nat>
    var emissions: real
    var shareColumn: map<nat, real>
    var newFirmColumn: map<nat, nat>
    var emissionsColumn: map<nat, real>
    var indexColumn: map<nat, Option<real>>

    /** `Simulation()` with a given random stream: period 0, running, no
        records, and the agents of `create_agents`. */
    constructor (p: Parameters, policy: Policy, e: real, eMax: real, rng: Rng, oracle: FirmOracle,
                 regionOf: nat -> Region)
      requires rng.Valid() && oracle.WellFormed()
      modifies rng`normalPos
      ensures this.p == p && this.policy == policy && this.e == e && this.eMax == eMax
      ensures this.rng == rng && this.oracle == oracle && this.regionOf == regionOf
      ensures t == 0 && running && ids == p.numFirms + p.numConsumers
      ensures firmKeys == Consecutive(0, p.numFirms)
      ensures consumerKeys == Consecutive(p.numFirms, p.numConsumers)
      ensures greenMarketShare == map[] && greenStations == map[] && numCars == map[] && emissions == 0.0
      ensures shareColumn == map[] && newFirmColumn == map[] && emissionsColumn == map[] && indexColumn == map[]
      ensures Valid()
    {
      this.p, this.policy, this.e, this.eMax := p, policy, e, eMax;
      this.rng, this.oracle, this.regionOf := rng, oracle, regionOf;
      t, ids, running := 0, 0, true;
      firms, firmKeys, consumers, consumerKeys := map[], [], map[], [];
      greenMarketShare, greenStations, numCars, emissions := map[], map[], map[], 0.0;
      shareColumn, newFirmColumn, emissionsColumn, indexColumn := map[], map[], map[], map[];
      new;
      CreateAgents();
    }

    /** `create_agents`: num_firms firms, then num_consumers consumers,
        under consecutive fresh ids (see AddGasFirm and AddConsumer for
        what each new agent holds). */
    method CreateAgents()
      requires FirmsValid() && ConsumersValid()
      modifies this`firms, this`firmKeys, this`consumers, this`consumerKeys, this`ids, rng`normalPos
      ensures ids == old(ids) + p.numFirms + p.numConsumers
      ensures firmKeys == old(firmKeys) + Consecutive(old(ids), p.numFirms)
      ensures consumerKeys == old(consumerKeys) + Consecutive(old(ids) + p.numFirms, p.numConsumers)
      ensures forall k :: k in old(firms) ==> k in firms && firms[k] == old(firms[k])
      ensures forall k :: k in old(consumers) ==> k in consumers && consumers[k] == old(consumers[k])
      ensures FirmsValid() && ConsumersValid()
      ensures rng.normalPos == old(rng.normalPos) + 2 * p.numConsumers
    {
      CreateFirms();
      CreateConsumers();
    }

    /** The firm loop of `create_agents`. */
    method CreateFirms()
      requires FirmsValid()
      modifies this`firms, this`firmKeys, this`ids
      ensures ids == old(ids) + p.numFirms
      ensures firmKeys == old(firmKeys) + Consecutive(old(ids), p.numFirms)
      ensures forall k :: k in old(firms) ==> k in firms && firms[k] == old(firms[k])
      ensures FirmsValid()
    {
      for i := 0 to p.numFirms
        invariant ids == old(ids) + i
        invariant firmKeys == old(firmKeys) + Consecutive(old(ids), i)
        invariant forall k :: k in old(firms) ==> k in firms && firms[k] == old(firms[k])
        invariant FirmsValid()
      {
        AppendOne(old(firmKeys), Consecutive(old(ids), i), ids);
        AddGasFirm();
      }
    }

    /** A firm as `Firm(id, sim)` creates it: a portfolio of the baseline
        gas car, and the region and budget of the firm outcomes. */
    predicate GasFirm(f: Firm, k: nat)
      reads f`techs, f`budget
    {
      f.id == k && f.techs == [Gas] && f.region == oracle.region(k) && f.budget == oracle.budget(k)
    }

    /** One step of the firm loop: `self.firms[self.ids] = Firm(self.ids,
        self)`, then `self.ids += 1`. */
    method AddGasFirm()
      requires FirmsValid()
      modifies this`firms, this`firmKeys, this`ids
      ensures ids == old(ids) + 1 && firmKeys == old(firmKeys) + [old(ids)]
      ensures old(ids) in firms && firms == old(firms)[old(ids) := firms[old(ids)]]
      ensures fresh(firms[old(ids)]) && GasFirm(firms[old(ids)], old(ids))
      ensures FirmsValid()
    {
      var f := new Firm(ids, oracle.region(ids), oracle.budget(ids), true, p, policy, e);
      DistinctAppend(firmKeys, ids);
      firms := firms[ids := f];
      firmKeys := firmKeys + [ids];
      ids := ids + 1;
    }

    /** The consumer loop of `create_agents`. */
    method CreateConsumers()
      requires ConsumersValid()
      modifies this`consumers, this`consumerKeys, this`ids, rng`normalPos
      ensures ids == old(ids) + p.numConsumers
      ensures consumerKeys == old(consumerKeys) + Consecutive(old(ids), p.numConsumers)
      ensures forall k :: k in old(consumers) ==> k in consumers && consumers[k] == old(consumers[k])
      ensures rng.normalPos == old(rng.normalPos) + 2 * p.numConsumers
      ensures ConsumersValid()
    {
      for j := 0 to p.numConsumers
        invariant ids == old(ids) + j
        invariant consumerKeys == old(consumerKeys) + Consecutive(old(ids), j)
        invariant forall k :: k in old(consumers) ==> k in consumers && consumers[k] == old(consumers[k])
        invariant rng.normalPos == old(rng.normalPos) + 2 * j
        invariant ConsumersValid()
      {
        AppendOne(old(consumerKeys), Consecutive(old(ids), j), ids);
        AddConsumer();
      }
    }

    /** A consumer as `Consumer(id, region, sim)` creates it, with the
        region of `regionOf` and its draws starting at normal deviate `at`:
        no car, the reserve price and the distance from the deviates at
        `at` and `at + 1`. */
    predicate NewConsumer(c: Consumer, k: nat, at: nat)
      reads c`myCar
    {
      && c.id == k && c.myCar == null && c.region == regionOf(k)
      && c.priceMax == p.pMaxMu + rng.normal(at) * (p.pMaxSigma * p.pMaxProportion(regionOf(k)))
      && c.distance == p.distanceMu + rng.normal(at + 1) * p.distanceSigma
    }

    /** One step of the consumer loop: `self.consumers[self.ids] =
        Consumer(...)`, then `self.ids += 1`. */
    method AddConsumer()
      requires ConsumersValid()
      modifies this`consumers, this`consumerKeys, this`ids, rng`normalPos
      ensures ids == old(ids) + 1 && consumerKeys == old(consumerKeys) + [old(ids)]
      ensures old(ids) in consumers && consumers == old(consumers)[old(ids) := consumers[old(ids)]]
      ensures fresh(consumers[old(ids)]) && NewConsumer(consumers[old(ids)], old(ids), old(rng.normalPos))
      ensures rng.normalPos == old(rng.normalPos) + 2
      ensures ConsumersValid()
    {
      var c := new Consumer(ids, regionOf(ids), p, rng);
      DistinctAppend(consumerKeys, ids);
      consumers := consumers[ids := c];
      consumerKeys := consumerKeys + [ids];
      ids := ids + 1;
    }

    /** The state between two periods: a valid configuration and random
        stream, valid agents, the green records of the periods run so far,
        an emissions accumulator at 0, and, once period 0 has run, its
        emissions in the report. */
    ghost predicate Valid()
      reads this, firms.Values, Vehicles(), consumers.Values
    {
      && rng.Valid() && oracle.WellFormed()
      && FirmsValid() && ConsumersValid() && RecordsValid(t) && emissions == 0.0
      && (t == 0 || 0 in emissionsColumn)
    }

    /** `controller`: `run` and the next period until period T, where the
        run stops. The result is false where a `new_firm` raises (the run
        stops there). Otherwise every period from the first to T - 1 has
        its green share, emissions and emissions index in the report, and
        the state is valid. */
    method Controller() returns (ok: bool)
      requires Valid() && running && t < p.T
      modifies this, rng, firms.Values, consumers.Values
      ensures ok ==> t == p.T && !running && Valid()
      ensures ok ==> Reported(old(t), p.T)
    {
      ok := true;
      ghost var t0 := t;
      while running
        invariant Valid() && t0 <= t <= p.T && (running <==> t < p.T) && Reported(t0, t)
        invariant consumers == old(consumers)
        invariant forall k :: k in firms ==> firms[k] in old(firms.Values) || fresh(firms[k])
        decreases p.T - t
      {
        ok := Step(t0);
        if !ok {
          return;
        }
      }
    }

    /** One pass of the loop of `controller`: `run`, then the next period;
        the run stops at period T. */
    method Step(ghost t0: nat) returns (ok: bool)
      requires Valid() && running && t0 <= t < p.T && Reported(t0, t)
      modifies this`greenMarketShare, this`greenStations, this`shareColumn, rng`pos
      modifies firms.Values`budget, firms.Values`profit, firms.Values`totalShare, firms.Values`techShare
      modifies firms.Values`history, this`firms, this`firmKeys, this`ids, this`newFirmColumn
      modifies consumers.Values`myCar, firms.Values`soldCars, this`numCars
      modifies this`emissions, this`emissionsColumn, this`indexColumn, this`t, this`running
      ensures ok ==> Valid() && t == old(t) + 1 && (running <==> t < p.T) && Reported(t0, t)
      ensures ok ==> forall k :: k in firms ==> (k in old(firms) && firms[k] == old(firms[k])) || fresh(firms[k])
    {
      ghost var shares, emitted, index := shareColumn, emissionsColumn, indexColumn;
      ok := Run();
      if !ok {
        return;
      }
      ReportsNext(shares, emitted, index, shareColumn, emissionsColumn, indexColumn, t0, t);
      Advance(t0);
    }

    /** `self.t += 1`, and the run stops at period T. */
    method Advance(ghost t0: nat)
      requires rng.Valid() && oracle.WellFormed() && t < p.T
      requires FirmsValid() && ConsumersValid() && RecordsValid(t + 1) && emissions == 0.0 && 0 in emissionsColumn
      requires Reported(t0, t + 1)
      modifies this`t, this`running
      ensures t == old(t) + 1 && (running <==> t < p.T) && Valid() && Reported(t0, t)
    {
      t := t + 1;
      running := t < p.T;
    }

    /** Every period from `from` to `to` - 1 has its green share, its
        emissions and its emissions index in the report. */
    ghost predicate Reported(from: nat, to: nat)
      reads this`shareColumn, this`emissionsColumn, this`indexColumn
    {
      Reports(shareColumn, emissionsColumn, indexColumn, from, to)
    }

    /** The green share `update_green_stations` owes period t: 0 before
        period 9, and from then on the green share of period t - 1's
        sales. */
    ghost function ShareDue(): real
      reads this`t, this`firms, this`firmKeys, this`numCars, firms.Values`cars, firms.Values`soldCars
      requires forall k :: k in firmKeys ==> k in firms
    {
      if t < 9 then 0.0 else GreenShare(GreenSold(firmKeys, t - 1), NumCars(Gas, t - 1) + NumCars(Green, t - 1))
    }

    /** Period t's green records: the share, and one station before
        period 9, then 1 plus the largest share recorded so far. */
    ghost predicate GreenPeriod(share: real)
      reads this`t, this`greenMarketShare, this`greenStations, this`shareColumn
    {
      && t in greenMarketShare && greenMarketShare[t] == share
      && t in shareColumn && shareColumn[t] == share
      && t in greenStations
      && (if t < 9 then greenStations[t] == 1.0 else TopShare(greenStations[t] - 1.0, greenMarketShare))
    }

    /** m is the largest share recorded in `shares`, by period. */
    ghost predicate TopShare(m: real, shares: map<nat, real>)
    {
      && (exists s :: s in shares && shares[s] == m)
      && (forall s :: s in shares ==> shares[s] <= m)
    }

    /** The largest of the recorded values is the top share by period. */
    lemma TopShareOfMax(m: real, shares: map<nat, real>)
      requires IsMaxOf(m, shares.Values)
      ensures TopShare(m, shares)
    {
      var s :| s in shares && shares[s] == m;
      forall s' | s' in shares
        ensures shares[s'] <= m
      {
        assert shares[s'] in shares.Values;
      }
    }

    /** Period t's report row of `driving`: the emissions `total`, and
        their index against period 0. */
    ghost predicate EmissionsPeriod(total: real)
      reads this`t, this`emissionsColumn, this`indexColumn
    {
      && t in emissionsColumn && emissionsColumn[t] == total && 0 in emissionsColumn
      && t in indexColumn && indexColumn[t] == EmissionsIndex(emissionsColumn[t], emissionsColumn[0])
    }

    /** `run`: `offer`, `apply_policies` (which does nothing), `demand`
        over the catalogue of all portfolios, then `driving`. The result is
        false where a `new_firm` raises. Otherwise the period has its green
        share, emissions and emissions index in the report, the earlier
        periods keep theirs, and the state is valid for the next period. */
    method Run() returns (ok: bool)
      requires Valid()
      modifies this`greenMarketShare, this`greenStations, this`shareColumn, rng`pos
      modifies firms.Values`budget, firms.Values`profit, firms.Values`totalShare, firms.Values`techShare
      modifies firms.Values`history, this`firms, this`firmKeys, this`ids, this`newFirmColumn
      modifies consumers.Values`myCar, firms.Values`soldCars, this`numCars
      modifies this`emissions, this`emissionsColumn, this`indexColumn
      ensures ok ==> FirmsValid() && ConsumersValid() && RecordsValid(t + 1) && emissions == 0.0
      ensures ok ==> old(shareColumn.Keys) + {t} == shareColumn.Keys
      ensures ok ==> old(emissionsColumn.Keys) + {t} == emissionsColumn.Keys
      ensures ok ==> old(indexColumn.Keys) + {t} == indexColumn.Keys
      ensures ok ==> forall k :: k in firms ==> (k in old(firms) && firms[k] == old(firms[k])) || fresh(firms[k])
      ensures ok ==> GreenPeriod(old(ShareDue())) && EmissionsPeriod(Driven())
      ensures t == old(t)
    {
      ok := Supply();
      if !ok {
        return;
      }
      Consume();
    }

    /** The supply side of `run`: `offer` (see Offer), which leaves the
        consumers and the emissions records alone and records the period's
        green share and stations; each firm is either kept as it was or
        new. */
    method Supply() returns (ok: bool)
      requires Valid()
      modifies this`greenMarketShare, this`greenStations, this`shareColumn, rng`pos
      modifies firms.Values`budget, firms.Values`profit, firms.Values`totalShare, firms.Values`techShare
      modifies firms.Values`history, this`firms, this`firmKeys, this`ids, this`newFirmColumn
      ensures ok ==> DemandState() == old(DemandState()) && ids >= old(ids)
      ensures ok ==> FirmsValid() && ConsumersValid() && RecordsValid(t + 1) && t in greenStations
      ensures ok ==> GreenPeriod(old(ShareDue()))
      ensures ok ==> old(shareColumn.Keys) + {t} == shareColumn.Keys
      ensures ok ==> forall k :: k in firms ==> (k in old(firms) && firms[k] == old(firms[k])) || fresh(firms[k])
    {
      var landfill;
      ghost var order, pass;
      ok, order, pass, landfill := Offer();
    }

    ghost function DemandState(): (map<nat, Consumer>, seq<nat>, real, map<nat, real>, map<nat, Option<real>>)
      reads this`consumers, this`consumerKeys, this`emissions, this`emissionsColumn, this`indexColumn
    {
      (consumers, consumerKeys, emissions, emissionsColumn, indexColumn)
    }

    /** The demand side of `run`: `demand` (see Market), then `driving`
        (see Driving): the period's emissions are the accumulator plus the
        driving of the consumers with the cars they own after their
        purchases, indexed over period 0; the green records stay. */
    method Consume()
      requires rng.Valid() && FirmsValid() && ConsumersValid() && t in greenStations
      requires t == 0 || 0 in emissionsColumn
      modifies rng`pos, consumers.Values`myCar, firms.Values`soldCars, this`numCars
      modifies this`emissions, this`emissionsColumn, this`indexColumn
      ensures EmissionsPeriod(old(emissions) + Driven())
      ensures old(emissionsColumn.Keys) + {t} == emissionsColumn.Keys
      ensures old(indexColumn.Keys) + {t} == indexColumn.Keys
      ensures FirmsValid() && ConsumersValid() && emissions == 0.0
      ensures greenMarketShare == old(greenMarketShare) && greenStations == old(greenStations)
      ensures shareColumn == old(shareColumn) && t == old(t)
    {
      var offers;
      ghost var order, buyers, turns;
      offers, order, buyers, turns := Market();
      Driving();
    }

    /** `demand` over the catalogue of all portfolios (see Demand and
        Purchases); the firms and consumers stay valid. */
    method Market() returns (offers: seq<Offer>, ghost order: seq<nat>, ghost buyers: seq<Consumer>, ghost turns: seq<Turn>)
      requires rng.Valid() && FirmsValid() && ConsumersValid() && t in greenStations
      modifies rng`pos, consumers.Values`myCar, firms.Values`soldCars, this`numCars
      ensures emissions == old(emissions) && emissionsColumn == old(emissionsColumn) && indexColumn == old(indexColumn)
      ensures offers == old(Catalogue(firmKeys))
      ensures forall j :: 0 <= j < |order| ==> order[j] in old(consumers)
      ensures buyers == Members(old(consumers), order)
      ensures Purchases(offers, old(greenStations[t]), order, buyers, turns)
      ensures Sold(old(firms.Values), turns)
      ensures ConsumersValid() && FirmsValid()
    {
      offers := Catalogue(firmKeys);
      order, buyers, turns := Demand(offers);
      FirmsKept();
    }

    /** The firms stay valid over a step that leaves their keys, portfolios
        and the prices of their cars alone. */
    twostate lemma FirmsKept()
      requires old(FirmsValid())
      requires firms == old(firms) && firmKeys == old(firmKeys) && ids == old(ids)
      requires forall f :: f in old(firms.Values) ==> unchanged(f`cars, f`techs, f`totalShare)
      requires forall v :: v in old(Vehicles()) ==> unchanged(v`salesPrice)
      ensures FirmsValid()
    {
      assert Vehicles() == old(Vehicles());
    }

    /** The period's emissions of the consumers, in key order, with the
        cars they own. */
    ghost function Driven(): real
      reads this`consumers, this`consumerKeys, this`ids, consumers.Values`myCar
      requires ConsumersValid()
    {
      TotalDriving(Members(consumers, consumerKeys), p)
    }

    /** The cars of all portfolios. */
    ghost function Vehicles(): set<Vehicle>
      reads this`firms, firms.Values`cars
    {
      set k, tk | k in firms && tk in firms[k].cars :: firms[k].cars[tk]
    }

    /** The firms: keyed by their ids, all below `ids`, listed once each in
        `firmKeys`, each with a valid portfolio. */
    ghost predicate FirmsValid()
      reads this`firms, this`firmKeys, this`ids
      reads firms.Values`cars, firms.Values`techs, firms.Values`totalShare, Vehicles()`salesPrice
    {
      && Distinct(firmKeys)
      && (forall k :: k in firms <==> k in firmKeys)
      && (forall k :: k in firms ==> firms[k].id == k && k < ids && firms[k].Valid(p))
    }

    /** The consumers: keyed by their ids, all below `ids`, listed once
        each in `consumerKeys`. */
    ghost predicate ConsumersValid()
      reads this`consumers, this`consumerKeys, this`ids
    {
      && Distinct(consumerKeys)
      && (forall k :: k in consumers <==> k in consumerKeys)
      && (forall k :: k in consumers ==> consumers[k].id == k && k < ids)
    }

    /** The green records of the periods run before `upTo`. */
    ghost predicate RecordsValid(upTo: nat)
      reads this`greenMarketShare, this`greenStations
    {
      GreenRecords(greenMarketShare, greenStations, upTo)
    }

    /** The offers a consumer sees (`my_market`'s source in consumers.py):
        the cars of the firms of `keys`, firm by firm, each firm's cars in
        portfolio order, at their current prices and shares; every car has
        positive energy economy and price. */
    function Catalogue(keys: seq<nat>): (market: seq<Offer>)
      reads this`firms, this`firmKeys, this`ids, this`t
      reads firms.Values`cars, firms.Values`techs, firms.Values`totalShare, firms.Values`techShare
      reads Vehicles()`salesPrice
      requires FirmsValid() && forall k :: k in keys ==> k in firms
      ensures forall i :: 0 <= i < |market| ==>
        market[i].firm in firms.Values && market[i].car.ee > 0.0 && market[i].price > 0.0 && Current(market[i], t)
    {
      if keys == [] then []
      else
        var f := firms[keys[|keys| - 1]];
        Catalogue(keys[..|keys| - 1]) + FirmOffers(f, f.techs, t)
    }

    /** What `demand` did to the consumers between the earlier state and
        this one: the consumers, each once in `order`, took their turns in
        that order; each turn is a decision over the offers at `station`
        stations; each consumer owns what it bought; the period's counters
        grow by the purchases. */
    twostate predicate Purchases(offers: seq<Offer>, station: real, order: seq<nat>, buyers: seq<Consumer>, new turns: seq<Turn>)
      reads this`numCars, buyers
    {
      && multiset(order) == multiset(old(consumerKeys))
      && (forall j :: 0 <= j < |order| ==> order[j] in old(consumers))
      && buyers == Members(old(consumers), order)
      && |turns| == |buyers| && (forall j :: 0 <= j < |buyers| ==> turns[j].buyer == buyers[j])
      && Decisions(rng, p, offers, eMax, station, turns)
      && Tallied(numCars, old(numCars), turns, old(t))
      && (forall j :: 0 <= j < |buyers| ==> buyers[j].myCar == CarAfter(turns[j], old(buyers[j].myCar)))
    }

    /** What `demand` did to the sellers between the earlier state and
        this one: the counters of the period of each firm of `sellers` grow
        by its sales in the turns, and no other counter changes. */
    twostate predicate Sold(sellers: set<Firm>, new turns: seq<Turn>)
      reads sellers
    {
      forall f: Firm, k: Tech, s: nat :: f in sellers ==>
        f.SoldCount(k, s) == old(f.SoldCount(k, s)) + (if s == old(t) then FirmSales(turns, f, k) else 0)
    }

    /** `demand`: the consumers, in a shuffled order, each `purchase` over
        the period's offers (the caller passes the catalogue of all
        portfolios; nothing a purchase changes alters it). The first turn
        starts right after the shuffle's draws, and each later one where
        the one before ended; see Purchases for the rest. */
    method Demand(offers: seq<Offer>) returns (ghost order: seq<nat>, ghost buyers: seq<Consumer>, ghost turns: seq<Turn>)
      requires rng.Valid() && ConsumersValid() && t in greenStations
      requires forall i :: 0 <= i < |offers| ==>
        offers[i].car.ee > 0.0 && offers[i].price > 0.0 && Current(offers[i], t) && offers[i].firm in firms.Values
      modifies rng`pos, consumers.Values`myCar, firms.Values`soldCars, this`numCars
      ensures forall j :: 0 <= j < |order| ==> order[j] in old(consumers)
      ensures buyers == Members(old(consumers), order)
      ensures Purchases(offers, old(greenStations[t]), order, buyers, turns)
      ensures Sold(old(firms.Values), turns)
      ensures Distinct(order)
      ensures order != [] ==> turns[0].start == old(rng.pos) + |order| - 1
      ensures ConsumersValid()
      ensures firms == old(firms) && firmKeys == old(firmKeys) && ids == old(ids)
      ensures forall f :: f in old(firms.Values) ==> unchanged(f`cars, f`techs, f`totalShare)
      ensures forall v :: v in old(Vehicles()) ==> unchanged(v`salesPrice)
    {
      var station := greenStations[t];
      var keys := Shuffled(rng, consumerKeys);
      order := keys;
      PermutationDistinct(consumerKeys, keys);
      assert forall j :: 0 <= j < |keys| ==> keys[j] in consumers;
      var visitors := Members(consumers, keys);
      MembersDistinct(consumers, keys);
      buyers := visitors;
      turns := Visit(visitors, offers, station);
    }

    /** The loop of `demand` over the consumers of `keys`, in that order:
        each consumer's turn is a decision over the offers, drawn from where
        the previous turn's draws ended; each consumer owns the car it
        bought; each firm's counters of period t grow by its sales; and
        the period's counters grow by the purchases. */
    method Visit(buyers: seq<Consumer>, offers: seq<Offer>, station: real) returns (ghost turns: seq<Turn>)
      requires rng.Valid()
      requires forall j :: 0 <= j < |buyers| ==> buyers[j] in consumers.Values
      requires forall a, b :: 0 <= a < b < |buyers| ==> buyers[a] != buyers[b]
      requires forall i :: 0 <= i < |offers| ==>
        offers[i].car.ee > 0.0 && offers[i].price > 0.0 && Current(offers[i], t) && offers[i].firm in firms.Values
      modifies rng`pos, consumers.Values`myCar, firms.Values`soldCars, this`numCars
      ensures |turns| == |buyers|
      ensures Decisions(rng, p, offers, eMax, station, turns)
      ensures forall j :: 0 <= j < |buyers| ==> turns[j].buyer == buyers[j]
      ensures |buyers| > 0 ==> turns[0].start == old(rng.pos)
      ensures rng.pos == if buyers == [] then old(rng.pos) else turns[|turns| - 1].end
      ensures Tallied(numCars, old(numCars), turns, t)
      ensures forall j :: 0 <= j < |buyers| ==> buyers[j].myCar == CarAfter(turns[j], old(buyers[j].myCar))
      ensures forall f: Firm, k: Tech, s: nat :: f in old(firms.Values) ==>
        f.SoldCount(k, s) == old(f.SoldCount(k, s)) + (if s == t then FirmSales(turns, f, k) else 0)
      ensures forall f :: f in old(firms.Values) ==> unchanged(f`cars, f`techs, f`totalShare)
      ensures forall v :: v in old(Vehicles()) ==> unchanged(v`salesPrice)
    {
      turns := [];
      ghost var period := t;
      assert forall f: Firm, k: Tech :: FirmSales(turns, f, k) == 0;
      for i := 0 to |buyers|
        invariant |turns| == i
        invariant forall j :: 0 <= j < |offers| ==> Current(offers[j], t)
        invariant Decisions(rng, p, offers, eMax, station, turns)
        invariant i > 0 ==> turns[i - 1].end == rng.pos && turns[0].start == old(rng.pos)
        invariant i == 0 ==> rng.pos == old(rng.pos)
        invariant forall j :: 0 <= j < i ==> turns[j].buyer == buyers[j]
        invariant Tallied(numCars, old(numCars), turns, t)
        invariant forall j :: 0 <= j < i ==> buyers[j].myCar == CarAfter(turns[j], old(buyers[j].myCar))
        invariant forall j :: i <= j < |buyers| ==> buyers[j].myCar == old(buyers[j].myCar)
        invariant period == t
        invariant forall f: Firm, k: Tech, s: nat :: f in old(firms.Values) ==>
          f.SoldCount(k, s) == old(f.SoldCount(k, s)) + (if s == period then FirmSales(turns, f, k) else 0)
      {
        ghost var turn;
        turn := TakeTurn(buyers[i], offers, station, old(numCars), turns);
        FirmSalesStep(turns, turn);
        turns := turns + [turn];
      }
    }

    /** One consumer's turn of `demand`: its `purchase` over the offers,
        with the call of `update_car_info` when it buys. */
    method TakeTurn(c: Consumer, offers: seq<Offer>, station: real, ghost base: map<(Tech, nat), nat>,
                    ghost turns: seq<Turn>)
      returns (ghost turn: Turn)
      requires c in consumers.Values && rng.Valid()
      requires forall i :: 0 <= i < |offers| ==>
        offers[i].car.ee > 0.0 && offers[i].price > 0.0 && Current(offers[i], t) && offers[i].firm in firms.Values
      requires Decisions(rng, p, offers, eMax, station, turns)
      requires turns != [] ==> turns[|turns| - 1].end == rng.pos
      requires Tallied(numCars, base, turns, t)
      modifies c`myCar, rng`pos, firms.Values`soldCars, this`numCars
      ensures turn.buyer == c && turn.start == old(rng.pos) && turn.end == rng.pos
      ensures Decisions(rng, p, offers, eMax, station, turns + [turn])
      ensures Tallied(numCars, base, turns + [turn], t)
      ensures forall i :: 0 <= i < |offers| ==> Current(offers[i], t)
      ensures c.myCar == CarAfter(turn, old(c.myCar))
      ensures forall f: Firm, k: Tech, s: nat :: f in old(firms.Values) ==>
        f.SoldCount(k, s) == old(f.SoldCount(k, s)) + (if s == t then SaleOf(turn.bought, f, k) else 0)
    {
      var b, tr := Shop(c, offers, station);
      turn := Turn(c, old(rng.pos), rng.pos, b, tr);
      DecisionsStep(rng, p, offers, eMax, station, turns, turn);
      TallyStep(numCars, base, turns, turn, t);
      if b.Some? {
        UpdateCarInfo(b.value.car.tech);
      }
    }

    /** The consumer's `purchase` over the offers: its decision, the car it
        then owns, and one more sale in period t on the counters of the
        seller, if it bought, and of no other firm. */
    method Shop(c: Consumer, offers: seq<Offer>, station: real)
      returns (b: Option<Offer>, ghost tr: Trace)
      requires rng.Valid()
      requires forall i :: 0 <= i < |offers| ==>
        offers[i].car.ee > 0.0 && offers[i].price > 0.0 && Current(offers[i], t) && offers[i].firm in firms.Values
      modifies c`myCar, rng`pos, firms.Values`soldCars
      ensures Decided(rng, old(rng.pos), rng.pos, p, offers, c.priceMax, eMax, c.region, station, b, tr)
      ensures forall i :: 0 <= i < |offers| ==> Current(offers[i], t)
      ensures c.myCar == if b.Some? then b.value.car else old(c.myCar)
      ensures forall f: Firm, k: Tech, s: nat :: f in old(firms.Values) ==>
        f.SoldCount(k, s) == old(f.SoldCount(k, s)) + (if s == t then SaleOf(b, f, k) else 0)
    {
      b, tr := c.Purchase(rng, p, offers, t, eMax, station);
    }

    /** `num_cars[k][s]`, a counter that starts at 0. */
    function NumCars(k: Tech, s: nat): nat
      reads this`numCars
    {
      CountOf(numCars, k, s)
    }

    /** `update_car_info(k)`: one more car of technology k sold in the
        current period; no other counter changes. */
    method UpdateCarInfo(k: Tech)
      modifies this`numCars
      ensures numCars == Bump(old(numCars), k, t)
      ensures NumCars(k, t) == old(NumCars(k, t)) + 1
      ensures forall k': Tech, s: nat :: (k', s) != (k, t) ==> NumCars(k', s) == old(NumCars(k', s))
    {
      numCars := Bump(numCars, k, t);
    }

    /** `driving`: the consumers' emissions of the period, in insertion
        order, into the report's emissions column together with their index
        against period 0 (the period's own total at period 0); the
        accumulator is back at 0. */
    method Driving()
      requires ConsumersValid() && (t == 0 || 0 in emissionsColumn)
      modifies this`emissions, this`emissionsColumn, this`indexColumn
      ensures EmissionsPeriod(old(emissions) + Driven())
      ensures emissionsColumn == old(emissionsColumn)[t := emissionsColumn[t]]
      ensures indexColumn == old(indexColumn)[t := indexColumn[t]]
      ensures emissions == 0.0
      ensures old(emissionsColumn.Keys) + {t} == emissionsColumn.Keys
      ensures old(indexColumn.Keys) + {t} == indexColumn.Keys
      ensures ConsumersValid() && (old(FirmsValid()) ==> FirmsValid())
    {
      var cs := Members(consumers, consumerKeys);
      var total := Emitted(cs, emissions);
      Report(total, cs);
    }

    /** The period's emissions and emissions index into the report, and
        the accumulator back to 0; the consumers' driving total and the
        validity of the firms are kept. */
    method Report(total: real, ghost cs: seq<Consumer>)
      requires t == 0 || 0 in emissionsColumn
      modifies this`emissions, this`emissionsColumn, this`indexColumn
      ensures TotalDriving(cs, p) == old(TotalDriving(cs, p))
      ensures emissionsColumn == old(emissionsColumn)[t := total]
      ensures indexColumn == old(indexColumn)[t := EmissionsIndex(total, emissionsColumn[0])]
      ensures EmissionsPeriod(total)
      ensures emissions == 0.0
      ensures old(FirmsValid()) ==> FirmsValid()
    {
      var column := emissionsColumn[t := total];
      emissionsColumn, indexColumn, emissions := column, indexColumn[t := EmissionsIndex(total, column[0])], 0.0;
    }

    /** The loop of `driving`: `self.emissions += each.driving()` for the
        consumers of `cs`, in that order, from `start`. */
    method Emitted(cs: seq<Consumer>, start: real) returns (total: real)
      ensures total == start + TotalDriving(cs, p)
      ensures old(FirmsValid()) ==> FirmsValid()
    {
      total := start;
      for i := 0 to |cs|
        invariant total == start + TotalDriving(cs[..i], p)
      {
        assert cs[..i + 1][..i] == cs[..i];
        total := total + cs[i].Driving(p);
      }
      assert cs[..|cs|] == cs;
    }

    /** The green cars sold in period s by the firms of `keys` that hold a
        green car. */
    function GreenSold(keys: seq<nat>, s: nat): nat
      reads this`firms, firms.Values`cars, firms.Values`soldCars
      requires forall k :: k in keys ==> k in firms
    {
      if keys == [] then 0
      else
        var f := firms[keys[|keys| - 1]];
        GreenSold(keys[..|keys| - 1], s) + (if Green in f.cars then f.SoldCount(Green, s) else 0)
    }

    /** `update_green_stations`: before period 9 a share of 0 and one
        station; from period 9 on, the green share of the previous period's
        sales and 1 plus the largest share recorded so far. The report's
        share column takes the period's share. */
    method UpdateGreenStations()
      requires forall k :: k in firmKeys ==> k in firms
      requires RecordsValid(t)
      modifies this`greenMarketShare, this`greenStations, this`shareColumn
      ensures t < 9 ==> greenMarketShare == old(greenMarketShare)[t := 0.0]
      ensures t < 9 ==> greenStations == old(greenStations)[t := 1.0]
      ensures t >= 9 ==> greenMarketShare == old(greenMarketShare)[t :=
        GreenShare(old(GreenSold(firmKeys, t - 1)), old(NumCars(Gas, t - 1) + NumCars(Green, t - 1)))]
      ensures t in greenStations && t in greenMarketShare
      ensures t >= 9 ==> greenStations == old(greenStations)[t := greenStations[t]]
      ensures t >= 9 ==> IsMaxOf(greenStations[t] - 1.0, greenMarketShare.Values)
      ensures greenStations[t] >= 1.0
      ensures forall s :: s in old(greenStations) ==> old(greenStations[s]) <= greenStations[t]
      ensures shareColumn == old(shareColumn)[t := greenMarketShare[t]]
      ensures RecordsValid(t + 1)
      ensures GreenPeriod(old(ShareDue()))
      ensures Ledgers() == old(Ledgers())
      ensures DemandState() == old(DemandState())
    {
      var share, station := 0.0, 1.0;
      if t >= 9 {
        share, station := GreenFigures();
      }
      GreenRecordsStep(greenMarketShare, greenStations, t, share, station);
      Record(share, station);
      if t >= 9 {
        TopShareOfMax(station - 1.0, greenMarketShare);
      }
    }

    /** The branch of `update_green_stations` from period 9: the share of
        green cars in the previous period's sales, and 1 plus the largest
        share recorded so far, this one included. */
    method GreenFigures() returns (share: real, station: real)
      requires t >= 9 && forall k :: k in firmKeys ==> k in firms
      ensures share == GreenShare(old(GreenSold(firmKeys, t - 1)), old(NumCars(Gas, t - 1) + NumCars(Green, t - 1)))
      ensures share >= 0.0 && IsMaxOf(station - 1.0, old(greenMarketShare)[t := share].Values)
      ensures Ledgers() == old(Ledgers()) && DemandState() == old(DemandState())
    {
      var greenCars := GreenSold(firmKeys, t - 1);
      var totalCars := NumCars(Gas, t - 1) + NumCars(Green, t - 1);
      share := GreenShare(greenCars, totalCars);
      var values := greenMarketShare[t := share].Values;
      assert greenMarketShare[t := share][t] in values;
      var top := MaxOf(values);
      station := 1.0 + top;
    }

    /** The period's green share and station count, into the records and
        the report; the firms' books stay. */
    method Record(share: real, station: real)
      modifies this`greenMarketShare, this`greenStations, this`shareColumn
      ensures greenMarketShare == old(greenMarketShare)[t := share]
      ensures greenStations == old(greenStations)[t := station]
      ensures shareColumn == old(shareColumn)[t := share]
      ensures Ledgers() == old(Ledgers())
      ensures DemandState() == old(DemandState())
    {
      greenMarketShare := greenMarketShare[t := share];
      greenStations := greenStations[t := station];
      shareColumn := shareColumn[t := share];
    }

    /** `offer`: the green records of the period (see
        UpdateGreenStations), then the firms' turns in a shuffled order and
        the replacement of the bankrupt firms (see Turnover). The result
        is false where a `new_firm` raises. */
    method Offer() returns (ok: bool, ghost order: seq<nat>, ghost pass: seq<Books>, landfill: seq<nat>)
      requires rng.Valid() && oracle.WellFormed() && FirmsValid() && RecordsValid(t)
      modifies this`greenMarketShare, this`greenStations, this`shareColumn, rng`pos
      modifies firms.Values`budget, firms.Values`profit, firms.Values`totalShare, firms.Values`techShare
      modifies firms.Values`history, this`firms, this`firmKeys, this`ids, this`newFirmColumn
      ensures t < 9 ==> greenMarketShare == old(greenMarketShare)[t := 0.0]
      ensures t < 9 ==> greenStations == old(greenStations)[t := 1.0]
      ensures t >= 9 ==> greenMarketShare == old(greenMarketShare)[t :=
        GreenShare(old(GreenSold(firmKeys, t - 1)), old(NumCars(Gas, t - 1) + NumCars(Green, t - 1)))]
      ensures t in greenStations && greenStations[t] >= 1.0
      ensures GreenPeriod(old(ShareDue()))
      ensures shareColumn == old(shareColumn)[t := greenMarketShare[t]]
      ensures RecordsValid(t + 1)
      ensures multiset(order) == multiset(old(firmKeys)) && Distinct(order)
      ensures forall k :: k in order ==> k in old(firms)
      ensures pass == TendedAll(BooksOf(old(Ledgers()), order), order, t, oracle)
      ensures landfill == Broke(order, pass) && Distinct(landfill)
      ensures ok ==> firmKeys == WithoutAll(old(firmKeys), landfill) + Consecutive(old(ids), |landfill|)
      ensures ok ==> ids == old(ids) + |landfill|
      ensures ok ==> NewFirmsAt(newFirmColumn, t) == NewFirmsAt(old(newFirmColumn), t) + |landfill|
      ensures ok ==> forall j :: 0 <= j < |order| && order[j] !in landfill ==>
                       order[j] in firms && firms[order[j]] == old(firms[order[j]]) && firms[order[j]].Ledger() == pass[j]
      ensures ok ==> forall k :: k in firms ==> (k in old(firms) && firms[k] == old(firms[k])) || fresh(firms[k])
      ensures DemandState() == old(DemandState())
      ensures FirmsValid()
    {
      UpdateGreenStations();
      ok, order, pass, landfill := Turnover();
    }

    /** The firm loop and the replacement loop of `offer`: every firm, in
        a shuffled order of the keys, takes its turn (see FirmPass); the
        landfill lists the bankrupt ones in that order. Where no `new_firm`
        raises, each bankrupt firm gave way to a new firm at the end of the
        key order, and every surviving firm is the same firm with the books
        of its turn. */
    method Turnover() returns (ok: bool, ghost order: seq<nat>, ghost pass: seq<Books>, landfill: seq<nat>)
      requires rng.Valid() && oracle.WellFormed() && FirmsValid()
      modifies rng`pos, firms.Values`budget, firms.Values`profit, firms.Values`totalShare, firms.Values`techShare
      modifies firms.Values`history, this`firms, this`firmKeys, this`ids, this`newFirmColumn
      ensures multiset(order) == multiset(old(firmKeys)) && Distinct(order)
      ensures forall k :: k in order ==> k in old(firms)
      ensures pass == TendedAll(BooksOf(old(Ledgers()), order), order, t, oracle)
      ensures landfill == Broke(order, pass) && Distinct(landfill)
      ensures ok ==> firmKeys == WithoutAll(old(firmKeys), landfill) + Consecutive(old(ids), |landfill|)
      ensures ok ==> ids == old(ids) + |landfill|
      ensures ok ==> NewFirmsAt(newFirmColumn, t) == NewFirmsAt(old(newFirmColumn), t) + |landfill|
      ensures ok ==> forall j :: 0 <= j < |order| && order[j] !in landfill ==>
                       order[j] in firms && firms[order[j]] == old(firms[order[j]]) && firms[order[j]].Ledger() == pass[j]
      ensures ok ==> forall k :: k in firms ==> (k in old(firms) && firms[k] == old(firms[k])) || fresh(firms[k])
      ensures FirmsValid()
      ensures DemandState() == old(DemandState())
    {
      ghost var firms0, keys0, ids0, column0 := firms, firmKeys, ids, newFirmColumn;
      order, landfill, pass := Pass();
      ok := Renewal(landfill, order, pass, firms0, keys0, ids0, column0);
    }

    /** The shuffle and the firm loop of `offer`, with the books the
        loop leaves as a value; the firms, their keys and the ids stay. */
    method Pass() returns (ghost order: seq<nat>, landfill: seq<nat>, ghost pass: seq<Books>)
      requires rng.Valid() && FirmsValid() && oracle.WellFormed()
      modifies rng`pos, firms.Values`budget, firms.Values`profit, firms.Values`totalShare, firms.Values`techShare
      modifies firms.Values`history
      ensures multiset(order) == multiset(old(firmKeys)) && Distinct(order)
      ensures forall k :: k in order ==> k in old(firms)
      ensures pass == TendedAll(BooksOf(old(Ledgers()), order), order, t, oracle)
      ensures landfill == Broke(order, pass) && Distinct(landfill)
      ensures forall k :: k in landfill ==> k in firms
      ensures forall j :: 0 <= j < |order| ==> firms[order[j]].Ledger() == pass[j]
      ensures firms == old(firms) && firmKeys == old(firmKeys) && ids == old(ids) && newFirmColumn == old(newFirmColumn)
      ensures FirmsValid()
    {
      var keys := ShuffledKeys();
      order := keys;
      landfill, pass := PassOver(keys);
    }

    /** `keys = list(self.firms); self.seed.shuffle(keys)`: the firm keys
        in a shuffled order; nothing but the stream position changes. */
    method ShuffledKeys() returns (keys: seq<nat>)
      requires rng.Valid() && FirmsValid()
      modifies rng`pos
      ensures multiset(keys) == multiset(firmKeys) && Distinct(keys)
      ensures forall k :: k in keys ==> k in firms
      ensures Ledgers() == old(Ledgers())
      ensures FirmsValid()
    {
      keys := Shuffled(rng, firmKeys);
      PermutationDistinct(firmKeys, keys);
    }

    /** FirmPass over `keys`, with the books it leaves as a value. */
    method PassOver(keys: seq<nat>) returns (landfill: seq<nat>, ghost pass: seq<Books>)
      requires FirmsValid() && oracle.WellFormed() && Distinct(keys) && forall k :: k in keys ==> k in firms
      modifies firms.Values`budget, firms.Values`profit, firms.Values`totalShare, firms.Values`techShare
      modifies firms.Values`history
      ensures pass == TendedAll(BooksOf(old(Ledgers()), keys), keys, t, oracle)
      ensures landfill == Broke(keys, pass) && Distinct(landfill)
      ensures forall k :: k in landfill ==> k in firms
      ensures forall j :: 0 <= j < |keys| ==> firms[keys[j]].Ledger() == pass[j]
      ensures FirmsValid()
    {
      landfill := FirmPass(keys);
      pass := BooksOf(Ledgers(), keys);
      BrokeDistinct(keys, pass);
    }

    /** Replace over the landfill of a pass over `keys`: the surviving
        firms keep the books the pass left. */
    method Renewal(landfill: seq<nat>, ghost keys: seq<nat>, ghost pass: seq<Books>, ghost firms0: map<nat, Firm>,
                   ghost keys0: seq<nat>, ghost ids0: nat, ghost column0: map<nat, nat>)
      returns (ok: bool)
      requires rng.Valid() && oracle.WellFormed() && FirmsValid()
      requires firms0 == firms && keys0 == firmKeys && ids0 == ids && column0 == newFirmColumn
      requires Distinct(landfill) && forall k :: k in landfill ==> k in firms
      requires |keys| == |pass| && forall k :: k in keys ==> k in firms
      requires forall j :: 0 <= j < |keys| ==> firms[keys[j]].Ledger() == pass[j]
      modifies this`firms, this`firmKeys, this`ids, this`newFirmColumn, rng`pos
      ensures FirmsValid()
      ensures ok ==> firmKeys == WithoutAll(keys0, landfill) + Consecutive(ids0, |landfill|)
      ensures ok ==> ids == ids0 + |landfill|
      ensures ok ==> NewFirmsAt(newFirmColumn, t) == NewFirmsAt(column0, t) + |landfill|
      ensures ok ==> forall j :: 0 <= j < |keys| && keys[j] !in landfill ==>
                       keys[j] in firms && firms[keys[j]] == firms0[keys[j]] && firms[keys[j]].Ledger() == pass[j]
      ensures ok ==> forall k :: k in firms ==> (k in firms0 && firms[k] == firms0[k]) || fresh(firms[k])
    {
      ok := Replace(landfill);
      if ok {
        assert landfill[..|landfill|] == landfill;
      }
    }

    /** The books of the firms, by key. */
    ghost function Ledgers(): map<nat, Books>
      reads this`firms, firms.Values`budget, firms.Values`profit, firms.Values`totalShare
      reads firms.Values`techShare, firms.Values`history
    {
      map k | k in firms :: firms[k].Ledger()
    }

    /** The firm loop of `offer` over the firms of `keys`, in that order:
        every firm's books become those its turn gives (see Tended), the
        landfill lists the firms that went bankrupt, in pass order, and
        the firms stay valid. */
    method FirmPass(keys: seq<nat>) returns (landfill: seq<nat>)
      requires FirmsValid() && oracle.WellFormed() && Distinct(keys) && forall k :: k in keys ==> k in firms
      modifies firms.Values`budget, firms.Values`profit, firms.Values`totalShare, firms.Values`techShare
      modifies firms.Values`history
      ensures FirmsValid()
      ensures BooksOf(Ledgers(), keys) == TendedAll(BooksOf(old(Ledgers()), keys), keys, t, oracle)
      ensures landfill == Broke(keys, BooksOf(Ledgers(), keys))
    {
      ghost var before := BooksOf(Ledgers(), keys);
      ghost var after := TendedAll(before, keys, t, oracle);
      landfill := TendAll(keys, before, after);
      assert BooksOf(Ledgers(), keys) == after;
    }

    /** The loop of FirmPass, from the books `before` to the books `after`
        of the pass. */
    method TendAll(keys: seq<nat>, ghost before: seq<Books>, ghost after: seq<Books>) returns (landfill: seq<nat>)
      requires FirmsValid() && oracle.WellFormed() && Distinct(keys) && forall k :: k in keys ==> k in firms
      requires |before| == |keys| && after == TendedAll(before, keys, t, oracle)
      requires forall j :: 0 <= j < |keys| ==> firms[keys[j]].Ledger() == before[j]
      modifies firms.Values`budget, firms.Values`profit, firms.Values`totalShare, firms.Values`techShare
      modifies firms.Values`history
      ensures FirmsValid()
      ensures forall j :: 0 <= j < |keys| ==> firms[keys[j]].Ledger() == after[j]
      ensures landfill == Broke(keys, after)
    {
      landfill := [];
      for i := 0 to |keys|
        invariant forall j :: 0 <= j < |keys| ==> firms[keys[j]].Ledger() == if j < i then after[j] else before[j]
        invariant landfill == Broke(keys[..i], after[..i])
        invariant FirmsValid()
      {
        landfill := PassStep(keys, i, firms[keys[i]], before, after, landfill);
      }
      assert keys[..|keys|] == keys && after[..|keys|] == after;
    }

    /** One firm's turn of the firm loop of `offer`, the firm at position i
        of the pass. */
    method PassStep(keys: seq<nat>, i: nat, f: Firm, ghost before: seq<Books>, ghost after: seq<Books>,
                    landfill: seq<nat>)
      returns (landfill': seq<nat>)
      requires FirmsValid() && oracle.WellFormed() && Distinct(keys) && forall k :: k in keys ==> k in firms
      requires i < |keys| == |before| && after == TendedAll(before, keys, t, oracle) && f == firms[keys[i]]
      requires forall j :: 0 <= j < |keys| ==> firms[keys[j]].Ledger() == if j < i then after[j] else before[j]
      requires landfill == Broke(keys[..i], after[..i])
      modifies f`budget, f`profit, f`totalShare, f`techShare, f`history
      ensures FirmsValid()
      ensures forall j :: 0 <= j < |keys| ==> firms[keys[j]].Ledger() == if j < i + 1 then after[j] else before[j]
      ensures landfill' == Broke(keys[..i + 1], after[..i + 1])
    {
      var bankrupt := TendFirm(keys, i, f);
      BrokeNext(keys, after, i);
      landfill' := if bankrupt then landfill + [keys[i]] else landfill;
    }

    /** Tend on the firm at position i of `keys`; the other firms keep
        their books and the firms stay valid. */
    method TendFirm(keys: seq<nat>, i: nat, f: Firm) returns (bankrupt: bool)
      requires FirmsValid() && oracle.WellFormed() && Distinct(keys) && forall k :: k in keys ==> k in firms
      requires i < |keys| && f == firms[keys[i]]
      modifies f`budget, f`profit, f`totalShare, f`techShare, f`history
      ensures f.Ledger() == Tended(old(f.Ledger()), f.id, t, oracle)
      ensures bankrupt <==> f.Ledger().budget < 0.0
      ensures forall j :: 0 <= j < |keys| && j != i ==> firms[keys[j]].Ledger() == old(firms[keys[j]].Ledger())
      ensures FirmsValid()
    {
      bankrupt := Tend(f, t, oracle, p);
    }

    /** `[f.market_share['total'][t] for f in firms.values()]` for the
        firms of `keys`, in that order. */
    function Weights(keys: seq<nat>): (w: seq<real>)
      reads this`firms, this`t, firms.Values`totalShare
      requires forall k :: k in keys ==> k in firms
      ensures |w| == |keys|
      ensures forall j :: 0 <= j < |keys| ==> w[j] == firms[keys[j]].TotalShareAt(t)
    {
      if keys == [] then [] else Weights(keys[..|keys| - 1]) + [firms[keys[|keys| - 1]].TotalShareAt(t)]
    }

    /** `new_firm`: a firm picked with probability proportional to its
        total market share of the period (the first draw), and a new firm
        under the next id that copies its portfolio from the following
        draws (see Spawned); the period's new-firm count grows by one.
        Where `choices` raises ValueError (no firm, or no firm with a
        positive share) nothing changes and the result is false. */
    method NewFirm() returns (ok: bool, ghost pick: nat, ghost nf: Firm?, ghost copies: seq<Vehicle>)
      requires rng.Valid() && oracle.WellFormed() && FirmsValid()
      modifies this`firms, this`firmKeys, this`ids, this`newFirmColumn, rng`pos
      ensures ok <==> old(Weights(firmKeys)) != [] && Sum(old(Weights(firmKeys))) > 0.0
      ensures !ok ==> firms == old(firms) && firmKeys == old(firmKeys) && ids == old(ids)
      ensures !ok ==> newFirmColumn == old(newFirmColumn) && rng.pos == old(rng.pos)
      ensures ok ==> pick < |old(firmKeys)| && old(firmKeys[pick]) in old(firms)
      ensures ok ==> WeightedPick(old(Weights(firmKeys)), rng.draw(old(rng.pos)), pick)
      ensures ok ==> old(ids) !in old(firms) && firmKeys == old(firmKeys) + [old(ids)] && ids == old(ids) + 1
      ensures ok ==> nf != null && fresh(nf) && firms == old(firms)[old(ids) := nf]
      ensures ok ==> newFirmColumn == CountNewFirm(old(newFirmColumn), old(t))
      ensures ok ==> nf.id == old(ids)
      ensures ok ==> Spawned(nf, p, rng, oracle, old(firms[firmKeys[pick]].cars), old(firms[firmKeys[pick]].techs),
                             nf.id, old(t), copies, old(rng.pos) + 1)
      ensures FirmsValid()
    {
      var choice, cars, techs := Imitated();
      if choice.None? {
        return false, 0, null, [];
      }
      pick := choice.value;
      var born;
      born, copies := Establish(cars, techs, old(rng.pos) + 1);
      nf := born;
      ok := true;
    }

    /** The new firm of `new_firm`, given the portfolio it imitates: made
        as Spawn says and registered under the next id. */
    method Establish(cars: map<Tech, Vehicle>, techs: seq<Tech>, ghost pos: nat) returns (nf: Firm, ghost copies: seq<Vehicle>)
      requires rng.Valid() && oracle.WellFormed() && FirmsValid() && rng.pos == pos
      requires forall k :: k in cars ==>
        cars[k].tech == k && cars[k].productionCost > 0.0 && cars[k].ee > 0.0 && cars[k].ec > 0.0
      requires (forall k :: k in cars <==> k in techs) && forall i, j :: 0 <= i < j < |techs| ==> techs[i] != techs[j]
      modifies this`firms, this`firmKeys, this`ids, this`newFirmColumn, rng`pos
      ensures old(ids) !in old(firms) && firmKeys == old(firmKeys) + [old(ids)] && ids == old(ids) + 1
      ensures fresh(nf) && firms == old(firms)[old(ids) := nf]
      ensures newFirmColumn == CountNewFirm(old(newFirmColumn), t) && nf.id == old(ids)
      ensures Spawned(nf, p, rng, oracle, cars, techs, nf.id, t, copies, pos)
      ensures FirmsValid()
    {
      nf, copies := Spawn(rng, p, policy, e, oracle, cars, techs, ids, t, pos);
      Register(nf, cars, techs, copies, pos);
    }

    /** The draw of `choices(firms, weights)`: the position, in the key
        order, of the firm to imitate, with that firm's portfolio; None
        where Python raises. */
    method Imitated() returns (choice: Option<nat>, cars: map<Tech, Vehicle>, techs: seq<Tech>)
      requires rng.Valid() && FirmsValid()
      modifies rng`pos
      ensures choice.Some? <==> old(Weights(firmKeys)) != [] && Sum(old(Weights(firmKeys))) > 0.0
      ensures choice.None? ==> rng.pos == old(rng.pos)
      ensures choice.Some? ==> choice.value < |firmKeys| && old(firmKeys[choice.value]) in old(firms)
      ensures choice.Some? ==> WeightedPick(old(Weights(firmKeys)), rng.draw(old(rng.pos)), choice.value)
      ensures choice.Some? ==> rng.pos == old(rng.pos) + 1
      ensures choice.Some? ==> cars == old(firms[firmKeys[choice.value]].cars)
                               && techs == old(firms[firmKeys[choice.value]].techs)
      ensures forall k :: k in cars ==>
        cars[k].tech == k && cars[k].productionCost > 0.0 && cars[k].ee > 0.0 && cars[k].ec > 0.0
      ensures (forall k :: k in cars <==> k in techs) && forall i, j :: 0 <= i < j < |techs| ==> techs[i] != techs[j]
    {
      var weights := Weights(firmKeys);
      choice := rng.Choices(weights);
      if choice.None? {
        return choice, map[], [];
      }
      var f := firms[firmKeys[choice.value]];
      cars, techs := f.cars, f.techs;
    }

    /** The replacement loop of `offer`: for each bankrupt firm, in
        landfill order, `new_firm` and then `del self.firms[i]`. Where a
        `new_firm` raises, the loop stops there and the result is false.
        Otherwise the landfill's firms are gone, one new firm per bankrupt
        firm joined at the end of the key order under the next ids, the
        other firms are as they were, and the period's new-firm count grew
        by the landfill's length. */
    method Replace(landfill: seq<nat>) returns (ok: bool)
      requires rng.Valid() && oracle.WellFormed() && FirmsValid()
      requires Distinct(landfill) && forall k :: k in landfill ==> k in firms
      modifies this`firms, this`firmKeys, this`ids, this`newFirmColumn, rng`pos
      ensures FirmsValid()
      ensures ok ==> Replaced(old(firms), old(firmKeys), old(ids), old(newFirmColumn), old(t), landfill, |landfill|,
                              firms, firmKeys, ids, newFirmColumn)
      ensures ok ==> forall k :: k in firms ==> (k in old(firms) && firms[k] == old(firms[k])) || fresh(firms[k])
    {
      ok := true;
      for j := 0 to |landfill|
        invariant FirmsValid()
        invariant Replaced(old(firms), old(firmKeys), old(ids), old(newFirmColumn), old(t), landfill, j,
                           firms, firmKeys, ids, newFirmColumn)
        invariant forall k :: k in firms ==> (k in old(firms) && firms[k] == old(firms[k])) || fresh(firms[k])
      {
        ok := ReplaceStep(old(firms), old(firmKeys), old(ids), old(newFirmColumn), old(t), landfill, j);
        if !ok {
          return;
        }
      }
    }

    /** The j-th replacement of the loop. */
    method ReplaceStep(ghost firms0: map<nat, Firm>, ghost keys0: seq<nat>, ghost ids0: nat,
                       ghost column0: map<nat, nat>, ghost s: nat, landfill: seq<nat>, j: nat)
      returns (ok: bool)
      requires rng.Valid() && oracle.WellFormed() && FirmsValid()
      requires Distinct(landfill) && j < |landfill| && forall k :: k in landfill ==> k in firms0
      requires (forall k :: k in firms0 ==> k < ids0) && s == t
      requires Replaced(firms0, keys0, ids0, column0, s, landfill, j, firms, firmKeys, ids, newFirmColumn)
      modifies this`firms, this`firmKeys, this`ids, this`newFirmColumn, rng`pos
      ensures FirmsValid()
      ensures ok ==> Replaced(firms0, keys0, ids0, column0, s, landfill, j + 1, firms, firmKeys, ids, newFirmColumn)
      ensures ok ==> forall k :: k in firms ==> (k in old(firms) && firms[k] == old(firms[k])) || fresh(firms[k])
    {
      var x := landfill[j];
      assert x in firms0 && x !in landfill[..j];
      assert x in firms && x < ids0;
      ghost var firms1, keys1, ids1, column1 := firms, firmKeys, ids, newFirmColumn;
      ok := Renew(x, firms1, keys1, ids1, column1, s);
      if ok {
        ReplacedNext(firms0, keys0, ids0, column0, s, landfill, j, firms1, keys1, ids1, column1,
                     firms, firmKeys, ids, newFirmColumn);
      }
    }

    /** One step of the replacement loop: `new_firm`, then the bankrupt
        firm x deleted. */
    method Renew(x: nat, ghost firms1: map<nat, Firm>, ghost keys1: seq<nat>, ghost ids1: nat,
                 ghost column1: map<nat, nat>, ghost s: nat)
      returns (ok: bool)
      requires rng.Valid() && oracle.WellFormed() && FirmsValid() && x in firms
      requires firms1 == firms && keys1 == firmKeys && ids1 == ids && column1 == newFirmColumn && s == t
      modifies this`firms, this`firmKeys, this`ids, this`newFirmColumn, rng`pos
      ensures FirmsValid()
      ensures ok ==> firmKeys == Without(keys1 + [ids1], x) && ids == ids1 + 1
      ensures ok ==> NewFirmsAt(newFirmColumn, s) == NewFirmsAt(column1, s) + 1
      ensures ok ==> forall k :: k in firms1 && k != x ==> k in firms && firms[k] == firms1[k]
      ensures ok ==> forall k :: k in firms ==> (k in firms1 && firms[k] == firms1[k]) || fresh(firms[k])
    {
      ok := Join(firms1, keys1, ids1, column1, s);
      if ok {
        Retire(x, firms, firmKeys);
      }
    }

    /** `new_firm`, stated by what the replacement loop needs of it: where
        it does not raise, one firm more under the next id at the end of the
        key order, the others untouched, one more new firm counted. */
    method Join(ghost firms1: map<nat, Firm>, ghost keys1: seq<nat>, ghost ids1: nat,
                ghost column1: map<nat, nat>, ghost s: nat)
      returns (ok: bool)
      requires rng.Valid() && oracle.WellFormed() && FirmsValid()
      requires firms1 == firms && keys1 == firmKeys && ids1 == ids && column1 == newFirmColumn && s == t
      modifies this`firms, this`firmKeys, this`ids, this`newFirmColumn, rng`pos
      ensures FirmsValid()
      ensures ok ==> firmKeys == keys1 + [ids1] && ids == ids1 + 1
      ensures ok ==> NewFirmsAt(newFirmColumn, s) == NewFirmsAt(column1, s) + 1
      ensures ok ==> forall k :: k in firms1 ==> k in firms && firms[k] == firms1[k]
      ensures ok ==> forall k :: k in firms && k !in firms1 ==> fresh(firms[k])
    {
      ghost var pick, nf, copies;
      ok, pick, nf, copies := NewFirm();
    }

    /** `del self.firms[x]`: the firm is gone from the firms and from the
        key order, the others keep their order, and the firms stay valid. */
    method Retire(x: nat, ghost firms2: map<nat, Firm>, ghost keys2: seq<nat>)
      requires FirmsValid() && firms2 == firms && keys2 == firmKeys
      modifies this`firms, this`firmKeys
      ensures firms == firms2 - {x} && firmKeys == Without(keys2, x)
      ensures FirmsValid()
    {
      firms := firms - {x};
      firmKeys := Without(firmKeys, x);
    }

    /** `self.firms[self.ids] = ...; self.ids += 1` with the report's
        new-firm count: the firm joins under the next id, at the end of
        the key order, and the agents stay valid. */
    method Register(nf: Firm, ghost cars: map<Tech, Vehicle>, ghost techs: seq<Tech>,
                    ghost copies: seq<Vehicle>, ghost pos: nat)
      requires FirmsValid() && nf.id == ids && nf.Valid(p)
      requires Spawned(nf, p, rng, oracle, cars, techs, nf.id, t, copies, pos)
      ensures Spawned(nf, p, rng, oracle, cars, techs, nf.id, old(t), copies, pos)
      modifies this`firms, this`firmKeys, this`ids, this`newFirmColumn
      ensures old(ids) !in old(firms)
      ensures firms == old(firms)[old(ids) := nf] && firmKeys == old(firmKeys) + [old(ids)] && ids == old(ids) + 1
      ensures newFirmColumn == CountNewFirm(old(newFirmColumn), t)
      ensures FirmsValid()
    {
      DistinctAppend(firmKeys, ids);
      firms := firms[ids := nf];
      firmKeys := firmKeys + [ids];
      newFirmColumn := CountNewFirm(newFirmColumn, t);
      ids := ids + 1;
    }
  }
}
