# eco_cars market engine in Dafny

This project models the discrete-time vehicle-market engine of eco_cars:

- **Vehicles** (`cars.py`). A vehicle has a technology (gas or green), a production cost, an energy economy, an energy capacity and a quality level. From these come:
  - its driving range and its emissions;
  - its taxed sales price and the taxes it owes under the run's policy (none, a flat tax, the R&D cashback or the emissions-based 'e_max' surcharge);
  - the multiplicative score a consumer gives it on a sample of eight criteria.
- **Consumers** (`consumers.py`). A consumer draws a reserve price and a distance when created. In each period it:
  - passes an adoption gate or not;
  - draws a required range from one of three usage segments;
  - keeps the cars that are cheap enough, go far enough and emit under the cap;
  - shuffles and scores them, each car on its own random sample of criteria;
  - buys the car at the head of the stable descending sort, recording the sale with the seller and with the simulation's counters.
- **The controller** (`model.py`).
  - It creates the firms and then the consumers under consecutive ids.
  - It runs periods until period T. Each period has four steps:
    - **Offer.** Updates the green-market-share and green-station proxy.
    - **Firm pass.** A shuffled pass over the firms updates profit, share and budget. It queues bankrupt firms. In the others it triggers portfolio change (only after period 9), abandonment and R&D.
    - **Replacement.** Each queued firm is replaced by a new firm and then deleted. The new firm imitates a firm drawn in proportion to the market shares. It copies a part of that firm's portfolio, with characteristics drawn between the baseline and the imitated car's.
    - **Demand and driving.** The consumers purchase in shuffled order. Then the emissions are recorded and the accumulator is reset.

**How the model is built.**

- **Randomness.** Every random draw comes from an explicit, fixed stream (`Rand.Rng`). The stream is a tape of uniform values in [0, 1) for `random`, `uniform`, `shuffle`, `sample` and `choices`, plus a tape of normal deviates for `normalvariate`. The contracts of a purchase, of the demand pass and of a new firm's construction say exactly which draws each uses.
- **Imperative code stays imperative:**
  - the agents are classes whose fields the methods update;
  - loops carry their invariants;
  - `shuffle` works in place on an array.
- **Specifications.** Each such method is proved against a specification on values:
  - `Firms.Tended`, `Model.TendedAll` and `Model.Broke` for the firm pass;
  - `Consumers.Decided` for a purchase;
  - `Model.Decisions` and `Model.Tallied` for the demand pass;
  - `Model.Spawned` for a new firm;
  - `Model.Replaced` for the replacement loop;
  - `Model.TotalDriving` and `Model.EmissionsIndex` for the emissions;
  - `Model.GreenShare` and `Model.GreenRecords` for the green proxy.
- **Key order.** Python dictionaries iterate in insertion order, so the firm and consumer maps carry their key order as a sequence (`firmKeys`, `consumerKeys`).
- **Numbers.** Floats are real numbers.

**Behaviour of the Python code that the model keeps as written:**
- only the two technologies `gas` and `green` exist, since the counters of `model.py` know no other;
- the imitated firm is drawn from all firms in the map when `new_firm` runs, bankrupt ones not yet deleted included;
- the viable-set filter compares the bare sales price with the reserve price, with no regional loading;
- abandonment and R&D run in every period; only `change_portfolio` waits for periods after 9;
- the `controller` loop assumes T >= 1: with T = 0 it never stops, so `Controller` requires `t < T` (see Findings).

**Where the model departs from the code:** the green share of a period after one in which nothing was sold is 0 in the model, while `update_green_stations` divides by zero there (see Findings and Left out).

## Model

| member | source | states |
|---|---|---|
| Rand.Accumulate | model.py:73 | the running totals of `choices`: same length as the weights, entry i the sum of the first i + 1 weights |
| Rand.PrefixMonotone | model.py:72-73 | running totals of non-negative weights never decrease |
| Rand.AccumulateSorted | model.py:72-73 | the cumulative weights of non-negative market shares are sorted, as `bisect` needs |
| Rand.Bisect | model.py:73 | bisect_right on a sorted prefix: everything before the result is <= x, everything from it to hi is > x |
| Rand.PickHasPositiveWeight | model.py:72-74 | with non-negative weights of positive total, a weighted pick never lands on a firm of zero share |
| Rand.PickFound | model.py:72-74 | what bisect returns on the running totals is the weighted pick, and it has positive weight |
| Rand.UniformBetween | model.py:97-99 | `uniform(a, b)` lies between a and b, in either order |
| Rand.Index | consumers.py:47 | the index drawn below n lies in [0, n) |
| Rand.PoolStep | consumers.py:49-50 | one selection step of `sample` removes exactly the chosen element from the pool |
| Rand.Shuffled | model.py:146-147 | a shuffled copy of a list is a permutation of it, using len - 1 draws |
| Rand.Rng.constructor | model.py:30-33 | a stream at its start, every uniform draw in [0, 1) |
| Rand.Rng.Random | consumers.py:18 | `random()` is the next uniform draw, in [0, 1), and advances the stream by one |
| Rand.Rng.RandBelow | consumers.py:47 | the index below n of the next draw, advancing the stream by one |
| Rand.Rng.Uniform | consumers.py:26 | `uniform(a, b)` from the next draw, between a and b |
| Rand.Rng.NormalVariate | consumers.py:11-12 | `normalvariate(mu, sigma)` is mu + z * sigma for the next normal deviate z |
| Rand.Rng.Shuffle | model.py:147 | in-place `shuffle` leaves a permutation of the array, using length - 1 draws |
| Rand.Rng.Sample | consumers.py:49-50 | `sample(population, k)` returns k elements drawn without replacement from the population |
| Rand.Rng.Choices | model.py:73 | `choices` fails exactly when there are no weights or their total is not positive (no draw used); otherwise it is the weighted pick of one draw and lands on a positive weight |
| Cars.PriceCoversTaxesAndMarkup | cars.py:48-54 | with non-negative levies, cost and policy tax, the sales price covers the production cost, the owed taxes and the markup |
| Cars.PolicySurchargeDecomposes | cars.py:48-54 | a policy tax multiplies the no-policy price by (1 + policy_tax) and adds policy_tax * cost to the owed taxes |
| Cars.PriceMonotoneInPolicyTax | cars.py:48-54 | with non-negative levies and cost, a higher policy tax never lowers the sales price or the owed taxes |
| Cars.PricePositive | cars.py:48-51 | a positive production cost, non-negative levies and a policy tax above -100% give a positive sales price |
| Cars.UpToAppend | cars.py:71-74 | once the loop is past the criteria a, its running value over a + b is a's score times the running value over b |
| Cars.ProductAppend | cars.py:71-74 | scoring on criteria a then b gives the product of the two scores (the empty selection scores 1) |
| Cars.ProductRemove | cars.py:71-74 | removing one criterion from the selection, leaving the rest, divides the score by its value |
| Cars.ProductReorder | cars.py:71-74 | the score depends only on which criteria the sample holds, not on their order |
| Cars.ProductPositive | cars.py:71-74 | positive criterion values give a positive score |
| Cars.Vehicle.constructor | cars.py:11-25 | missing or zero characteristics take the gas baseline; the price is computed as calculate_price defines it; the owed taxes are then 0 |
| Cars.Vehicle.PolicyRate | cars.py:37-44 | the policy tax is 0 for no policy and for the R&D cashback, and above -100% under a well-formed configuration |
| Cars.Vehicle.CalculatePrice | cars.py:34-55 | the sales price is the product of the levy factors times the cost; the owed taxes are the sum of the levies times the cost; the result is the owed taxes |
| Cars.Vehicle.Criteria | cars.py:58-70 | the market-share criterion is the firm's share floored at epsilon (never below either); emotion is passed through; car cleanness is the inverse of the emissions |
| Cars.Vehicle.CriteriaSelection | cars.py:57-74 | the loop returns the product, from 1, of the selected criteria's values; after i rounds `res` is the product of the first i |
| Cars.RankableWhenPositive | cars.py:61-68 | positive economy and price make every denominator of the criteria table non-zero |
| Cars.DriveRangeGrows | cars.py:27-29 | the range EE * EC never shrinks when economy and capacity grow |
| Cars.CleanerWithEconomy | cars.py:31-32 | emissions times economy is the technology's emission factor; more economy means fewer emissions |
| Firms.OfferSteps | model.py:149-161 | a bankrupt firm records only profit, share and budget; otherwise it records abandonment and R&D, plus a portfolio change exactly when t > 9 |
| Firms.Firm.constructor | model.py:90 | a firm with its id, region and budget and no records; a portfolio of the baseline gas car, or none for `gas=False` |
| Firms.Firm.UpdateProfit | model.py:150 | the period's profit is recorded; nothing else is |
| Firms.Firm.UpdateMarketShare | model.py:151 | the period's total and per-technology shares are recorded; the firm stays valid |
| Firms.Firm.UpdateBudget | model.py:152 | the budget changes by the period's outcome |
| Firms.Firm.ChangePortfolio | model.py:159 | the call is recorded in the firm's history |
| Firms.Firm.AbandonPortfolio | model.py:160 | the call is recorded in the firm's history |
| Firms.Firm.InvestRd | model.py:161 | the call is recorded in the firm's history |
| Firms.Firm.Adopt | model.py:100 | `cars[tech] = car`: the car is held under its technology, a new key joins the key order at the end, and a car with positive characteristics keeps the portfolio valid |
| Firms.Firm.Sales | consumers.py:54 | the seller's counter for that technology and period grows by exactly one, and no other counter changes |
| Consumers.BucketOf | consumers.py:25-30 | segment '23' exactly below .23, '22' exactly in [.23, .45), '55' otherwise |
| Consumers.Viable | consumers.py:33-35 | my_market holds exactly the admissible cars of the market (price below the reserve, range above dk, emissions under the cap) |
| Consumers.FirstBest | consumers.py:48-53 | the chosen position scores at least every other, and all before it score strictly less |
| Consumers.SortHeadIsFirstBest | consumers.py:48-53 | the head of any stable descending sort of the scores is the first best-scoring position |
| Consumers.ScoreAll | consumers.py:48-51 | each shuffled car is scored by criteria_selection on its own sample of the criteria, one sample after the other, taking exactly one sample's draws per car |
| Consumers.SampleDistinct | consumers.py:41-50 | a sample of the criteria list never repeats a criterion |
| Consumers.SampleDrawsCount | consumers.py:48-50 | n samples of k criteria take n * k draws |
| Consumers.ScoreOne | consumers.py:48-50 | one car's sort key is criteria_selection on a fresh sample, taking exactly number_characteristics draws |
| Consumers.Choose | consumers.py:45-53 | the car bought is the first best-scoring car of a permutation of the viable cars; the shuffle and the samples take n - 1 plus n samples' draws for n viable cars |
| Consumers.RequiredRangeInSegment | consumers.py:23-30 | the required range lies in the [min, max] of the segment drawn |
| Consumers.Enter | consumers.py:18-30 | the gate is the first draw below prob_adoption (one draw if refused); past it, dk comes from the next two draws |
| Consumers.Decide | consumers.py:16-53 | nothing is bought exactly when the gate refuses or the viable set is empty; otherwise the purchase is the first best-scoring car of a shuffled viable set, and it belongs to the market; the decision ends exactly after the draws DrawsUsed counts |
| Consumers.Consumer.constructor | consumers.py:7-14 | the reserve price and the distance are the next two normal deviates, scaled as purchase needs; no car owned |
| Consumers.Consumer.Purchase | consumers.py:16-55 | the decision is Decide's; with no purchase the car and every seller counter stay; with one, the car is owned and only the seller's counter for it grows, by one |
| Consumers.Consumer.Buy | consumers.py:53-54 | the consumer owns the car and its seller records one sale; other sellers are untouched |
| Consumers.Consumer.Driving | consumers.py:57-59 | 0 without a car, otherwise distance times the car's emissions per unit distance |
| Model.PermutationDistinct | model.py:146-147 | a shuffle of distinct keys is distinct |
| Model.Consecutive | model.py:46-52 | the ids handed out from a counter are `from`, `from + 1`, ... |
| Model.MaxOf | model.py:115 | `max` of the recorded shares: a member that is at least every other |
| Model.GreenShareAsWritten | model.py:110-113 | the division as written: undefined exactly when no car was sold; otherwise share times total is the green count |
| Model.NoSalesStopsTheRun | model.py:112-113 | a period after one without sales has no green share as written |
| Model.GreenShare | model.py:110-113 | green over total, 0 when nothing was sold, within [0, 1] when the green cars are among the cars sold |
| Model.GreenRecordsStep | model.py:104-115 | a new record keeps the green proxy invariant: 0 and 1 before period 9, then 1 + the maximum recorded share; stations never decrease |
| Model.FirmOffers | consumers.py:33 | one offer per technology, each of this firm's car and showing its current price and share |
| Model.Bump | model.py:68 | `counts[k][s] += 1` on a defaultdict: that counter grows by one and no other counter changes |
| Model.Members | model.py:178 | the agents under the keys, in key order |
| Model.MembersDistinct | model.py:174 | distinct keys give distinct consumers |
| Model.TotalDrivingAppend | model.py:178-179 | the emissions of two groups of consumers add up |
| Model.NoCarNoEmissions | model.py:178-179 | consumers without cars emit nothing |
| Model.EmissionsIndex | model.py:181 | the index exists exactly when the base-period emissions are non-zero |
| Model.EmissionsIndexScales | model.py:181 | index times base gives the period's emissions; the base period has index 1 |
| Model.ReportsNext | model.py:137-140 | a period that records its share, emissions and index extends the report by one period |
| Model.DecisionsStep | model.py:174-175 | one more purchase decision, starting where the last turn's draws ended, extends the demand pass |
| Model.StartsIncrease | model.py:174-175 | the turns of a demand pass draw disjoint, non-empty stretches of the stream, in turn order |
| Model.TechSales | consumers.py:55 | the purchases of one technology are at most the turns |
| Model.TallyStep | model.py:67-68 | `update_car_info` after each purchase keeps num_cars equal to the start counts plus the purchases |
| Model.FirmSales | consumers.py:54 | one firm's sales of a technology are at most all sales of it |
| Model.FirmSalesStep | consumers.py:54 | one more turn adds its sale to every firm's count of that technology |
| Model.CopiedFromPortfolio | model.py:76-86 | the copied technologies are distinct, held by the imitated firm, and non-empty exactly when its portfolio is |
| Model.IncrementAsWritten | model.py:92 | `+= 1` on a report cell keeps a NaN a NaN |
| Model.NewFirmCountLost | model.py:92 | as written, the new-firm cell is NaN after any number of replacements |
| Model.CountNewFirm | model.py:92 | one more new firm counted in the period, and no other period changes |
| Model.ImitationBetween | model.py:97-99 | each copied characteristic lies between the baseline and the imitated car's value |
| Model.CopyCar | model.py:97-100 | three draws give the copy's cost, capacity and economy; the copy has positive characteristics and price |
| Model.CopiesStep | model.py:95-100 | one more copy drawn after the others extends the copies |
| Model.CopiesAt | model.py:95-100 | each copy comes from its own three draws |
| Model.TechsOf | model.py:95 | the technologies of the cars, in order |
| Model.PortfolioAt | model.py:95-100 | the portfolio holds exactly the copied technologies, each with its own copy |
| Model.FurnishedNext | model.py:95-100 | the next copy adds a technology not yet held, at the end of the key order |
| Model.FurnishStep | model.py:96-102 | one pass of the portfolio loop adds the next copy and sets the green marker when green |
| Model.ModelsOf | model.py:97-99 | the imitated cars under the copied technologies, in order |
| Model.ModelsOfPortfolio | model.py:97-99 | the imitated cars of a valid portfolio have positive characteristics and keep their technologies in order |
| Model.Furnish | model.py:95-102 | the portfolio loop leaves the copied technologies in order, their copies, and the green marker exactly when green is copied |
| Model.Spawn | model.py:76-102 | the new firm holds copies of the chosen part of the imitated portfolio, made from the stated draws, with empty records |
| Model.Tend | model.py:150-161 | a firm's turn leaves the books Tended defines, and it is bankrupt exactly when the new budget is negative |
| Model.OfferStepsAfter | model.py:150-161 | the per-call history appends are exactly the steps OfferSteps lists |
| Model.TendedAll | model.py:149-161 | every firm of the pass takes its turn from its own books |
| Model.Broke | model.py:153-155 | the landfill holds exactly the firms of the pass whose new budget is negative |
| Model.BrokeNext | model.py:153-155 | one more firm adds itself to the landfill exactly when it went bankrupt |
| Model.BrokeDistinct | model.py:153-155 | the landfill lists each bankrupt firm once |
| Model.BooksOf | model.py:149 | the books of the keys, in key order |
| Model.Without | model.py:168 | `del firms[x]` on the key order: exactly x is gone, distinctness kept |
| Model.WithoutGone | model.py:168 | deleting an absent key changes nothing |
| Model.WithoutLength | model.py:168 | deleting a listed key shortens distinct keys by one |
| Model.WithoutAppend | model.py:166-168 | deleting a key of the front part leaves the back part as it is |
| Model.WithoutAll | model.py:166-168 | after the deletions exactly the keys not deleted remain |
| Model.WithoutAllLength | model.py:166-168 | deleting distinct listed keys shortens the key order by their number |
| Model.FirmCountKept | model.py:166-168 | replacing every bankrupt firm and then deleting it keeps the number of firms |
| Model.ReplacedKeys | model.py:166-168 | one more replace-then-delete keeps the key order as the surviving keys followed by the new ids |
| Model.ReplacedNext | model.py:166-168 | one more replacement extends the replacement invariant |
| Model.Simulation.constructor | model.py:22-44 | period 0, running, empty records, and the agents of create_agents under ids 0 .. num_firms + num_consumers - 1 |
| Model.Simulation.CreateAgents | model.py:46-52 | num_firms firms, then num_consumers consumers, under consecutive fresh ids; earlier agents untouched |
| Model.Simulation.CreateFirms | model.py:47-49 | num_firms new gas firms under consecutive ids |
| Model.Simulation.AddGasFirm | model.py:48-49 | a fresh firm with the baseline gas car under the next id, which is then incremented |
| Model.Simulation.CreateConsumers | model.py:50-52 | num_consumers new consumers under consecutive ids, two normal deviates each |
| Model.Simulation.AddConsumer | model.py:51-52 | a fresh consumer without a car under the next id, which is then incremented |
| Model.Simulation.Controller | model.py:54-60 | unless a replacement fails, the loop ends with t == T, running false, a valid state and a report row for every period run |
| Model.Simulation.Step | model.py:55-60 | one `run` and `t += 1`; running stays true exactly while t < T; the report gains the period |
| Model.Simulation.Advance | model.py:57-60 | `t += 1`, and the run stops exactly when t reaches T |
| Model.StopAsWritten | model.py:55-60 | the loop as written stops only at a period equal to T, reached from below; from below T it is still running until T |
| Model.NeverStopsAtZero | model.py:55-60 | as written, with T = 0 the loop never stops |
| Model.StopsAtT | model.py:55-60 | from a period below T, the loop as written stops at T after T - t periods |
| Model.Simulation.Run | model.py:122-140 | unless a new firm fails: the period's green share and stations as update_green_stations owes them (the share from the previous period's sales) and its emissions as the driving of all consumers after their purchases, with the index over period 0; valid agents, the earlier periods' records kept, the accumulator at 0; each firm kept or new |
| Model.Simulation.Supply | model.py:137 | `offer` leaves the consumers and the emission records alone, records the period's green share and stations, and keeps or replaces each firm |
| Model.Simulation.Consume | model.py:139-140 | the period's emissions are the accumulator plus every consumer's driving after the purchases, with the index over period 0; the accumulator is reset; the green records stay; the agents stay valid |
| Model.Simulation.Market | model.py:139 | demand over the catalogue of all portfolios: the consumers take their turns in a permutation of their keys, each a decision from where the previous one ended; each owns what it bought; num_cars and each seller's counters grow by the purchases; the agents stay valid |
| Model.Simulation.FirmsKept | model.py:139 | the firms stay valid over a step that keeps their keys, portfolios and car prices |
| Model.Simulation.Catalogue | consumers.py:33 | every offered car belongs to a firm, has positive economy and price, and shows its current price and share |
| Model.Simulation.Demand | model.py:170-175 | the consumers take turns in a permutation of their keys, the first right after the shuffle's draws and each later one where the one before ended; each turn is that consumer's decision; each consumer owns what it bought; num_cars and each seller's counters grow by the purchases; the firms' portfolios and prices stay |
| Model.Simulation.Visit | model.py:174-175 | the loop over the shuffled consumers: one decision per consumer, each starting where the previous one ended, the stream left at the last one's end; each consumer owns what it bought; num_cars and each seller's counters grow by the purchases |
| Model.Simulation.TakeTurn | model.py:175 | one consumer's purchase, starting where the last turn ended: it extends the demand pass and the tally, its car is updated only when it buys, and only the seller's counter grows |
| Model.Simulation.Shop | consumers.py:16-55 | the consumer's decision over the offers, the car it then owns, and one more sale in the period for the seller only |
| Model.Simulation.UpdateCarInfo | model.py:67-68 | num_cars[type][t] grows by exactly one, and no other counter changes |
| Model.Simulation.Driving | model.py:177-184 | the period's emissions are the accumulator plus every consumer's driving, in key order; the index is over period 0's emissions; only period t's cells change; the accumulator is reset to 0 |
| Model.Simulation.Report | model.py:180-184 | the period's emissions and index are recorded, only in period t's cells, and the accumulator is reset |
| Model.Simulation.Emitted | model.py:178-179 | the loop adds every consumer's driving to the start value |
| Model.Simulation.UpdateGreenStations | model.py:104-116 | before period 9: share 0, stations 1; after: the green share of the previous period and 1 + the largest recorded share; stations never decrease; the share reaches the report |
| Model.Simulation.GreenFigures | model.py:110-115 | the previous period's green share (0 when nothing was sold) and 1 + the maximum of all shares, this one included |
| Model.Simulation.Record | model.py:107-116 | the share and the stations of the period are recorded and reported, and nothing else changes |
| Model.Simulation.Offer | model.py:142-168 | green figures (share 0 after a period without sales); a shuffled pass where each firm takes its turn; the landfill is exactly the bankrupt firms; each is replaced under a new id and then deleted; survivors keep their books |
| Model.Simulation.Turnover | model.py:144-168 | the firm pass and the replacement of its landfill |
| Model.Simulation.Pass | model.py:146-161 | the shuffle and firm loop: every firm's books as TendedAll says, and the landfill as Broke says |
| Model.Simulation.ShuffledKeys | model.py:146-147 | the firm keys in a shuffled order; only the stream moves |
| Model.Simulation.PassOver | model.py:149-161 | the firm loop over given keys leaves the books TendedAll defines |
| Model.Simulation.Renewal | model.py:166-168 | replacing the landfill keeps the books the pass left on the survivors |
| Model.Simulation.FirmPass | model.py:149-161 | the firm loop ends with the books TendedAll defines and the landfill Broke defines |
| Model.Simulation.TendAll | model.py:149-161 | the loop invariant: each firm so far has its new books, and the landfill lists the bankrupt ones so far |
| Model.Simulation.PassStep | model.py:150-161 | one firm's turn keeps the loop invariant |
| Model.Simulation.TendFirm | model.py:150-161 | the firm takes its turn; the other firms' books stay |
| Model.Simulation.Weights | model.py:72 | the firms' total market shares of the period, in key order |
| Model.Simulation.NewFirm | model.py:70-102 | fails exactly when no firm has a positive share; otherwise it imitates the weighted pick under the next id, counts it in the report, and builds it as Spawned says |
| Model.Simulation.Establish | model.py:90-102 | the new firm is registered under the next id and built as Spawned says |
| Model.Simulation.Imitated | model.py:72-86 | the firm drawn in proportion to share, or failure exactly when no share is positive; its portfolio is valid |
| Model.Simulation.Replace | model.py:166-168 | after replacing and deleting every landfill firm, the replacement invariant holds for all of them |
| Model.Simulation.ReplaceStep | model.py:167-168 | one replace-then-delete extends the replacement invariant |
| Model.Simulation.Renew | model.py:167-168 | a new firm under the next id, then the bankrupt firm deleted |
| Model.Simulation.Join | model.py:90-93 | the new firm goes under the next id at the end of the key order; the others are untouched |
| Model.Simulation.Retire | model.py:168 | `del firms[x]`: x leaves the firms and the key order, and the rest keep their order |
| Model.Simulation.Register | model.py:90-93 | `firms[ids] = new_firm`, counted in the report, and `ids += 1` |

## Left out

- Logging, console colours, the pause in `controller` and the prints: model.py:23-29, 61-65, 91, 164 and 182-183. They are I/O and change no state.
- `apply_policies` (model.py:118-120). It does nothing, so `Run` does not call it.
- main.py, generalization.py and params.py. The parameter module is the `Config.Params` input, and its tables become total functions.
- The decision logic of the firms. firms.py is an empty class, so the firm code is not part of this model. The controller's calls to it become:
  - `Firms.Firm` state holding what the controller and the consumers read;
  - a `FirmOracle` input that gives the profits, budget changes, shares, regions and starting budgets;
  - records of the calls to `change_portfolio`, `abandon_portfolio` and `invest_rd`. These do not change the portfolio, and the vehicles' characteristics never change.
- The generator behind `random.Random`. The draws are the tapes of `Rand.Rng`. Each method follows the operation's algorithm as Python's library writes it:
  - the loop of `shuffle`;
  - the pool selection of `sample`;
  - `choices` as bisection on the running totals.
  The exceptions are `_randbelow`, which is floor(u * n) of one uniform draw rather than rejection sampling on random bits, and `normalvariate`, whose deviates are a second tape.
- Floating-point rounding. All arithmetic is exact on reals, so equal scores tie exactly as they would without rounding.
- The pandas report. It becomes four columns keyed by period. A NaN or infinite emissions index, from a zero base, becomes `None`.
- `Firm(self.ids, self)` and `Consumer(self.ids, self)`. The region and budget of a firm come from the oracle. The call at model.py:51 passes no region, which the `Consumer` signature requires, so the region of a consumer comes from the `regionOf` input.
- The abort of a run. An exception in `new_firm` (`choices` with no positive share) stops the run; it becomes an `ok` result that is false. After a false result, no contract describes the state.
- Model.Simulation.Replace: it states the key order, the ids, the new-firm count and the untouched survivors. It does not carry through the loop what each new firm holds; `NewFirm` states that for one call.
- Model.Simulation.Controller: it states the final period, the stop, validity and that every period run has its report row. It does not carry each period's values to the end of the loop: `Run` states them for one period (green share, stations, emissions and index), and `Step` keeps only the report rows.
- Model.Simulation.Run: it states the period's green figures and emissions, but not the purchases; `Market` states those (see Consume).
- Model.Simulation.Consume: it states the period's emissions and index, but not the purchases and sales that `Market` states (Purchases, Sold). Restating them across `driving` was more than the solver's budget allows.
- Model.Simulation.UpdateGreenStations: from period 9 on, after a period without sales, it records a green share of 0, where model.py:113 raises ZeroDivisionError and ends the run. `Model.GreenShareAsWritten` models the division as written (see Findings).
- Model.Simulation.GreenFigures: the same share of 0 after a period without sales, where model.py:113 raises ZeroDivisionError.
- Model.Simulation.Offer: its green figures carry the same share of 0 after a period without sales, where model.py:113 raises ZeroDivisionError.
- Model.Simulation.Supply: it states the green figures, the untouched consumers and emission records, and that each firm is kept or new; `Offer` has the full contract of the firm pass and the replacements.
- Model.Simulation.Emitted: its contract refers to the consumers' state before the call with `old`, where a function of the inputs would not apply.
- Cars.Vehicle.PolicyRate: its contract states the no-policy cases and the bound. The values under 'tax' and 'e_max' are given by the definition alone.

## Findings

| source | as written | input that shows it | evidently intended | confidence | as-written member | corrected member |
|---|---|---|---|---|---|---|
| model.py:110-113 | `green_market_share[t] = green_cars/total_cars` divides by the number of cars sold in t - 1 | any period t >= 9 after a period in which no consumer bought a car (total_cars == 0): ZeroDivisionError ends the run | a green share of 0 when nothing was sold | not executed | Model.NoSalesStopsTheRun | Model.GreenShare |
| model.py:55-60 | `self.t += 1` then `if self.t == params.T: self.running = False`: the stop test is an equality, checked only after the increment | T = 0: after the first run the period is 1 and only grows, so the loop never ends | the run stops once the period reaches T, whatever T is | not executed | Model.NeverStopsAtZero | Model.Simulation.Advance |
| model.py:92 | `self.report.loc[self.t, 'new_firm'] += 1` on a cell that the period's row creates as NaN (model.py:116 fills only the share) | any period with one bankrupt firm: the cell stays NaN where 1 was meant | the number of new firms of the period, counted from 0 | not executed | Model.NewFirmCountLost | Model.CountNewFirm |
