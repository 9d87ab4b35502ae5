/** Cost-aware scoring of candidate agents: prices, scores and the order of candidates.
    Prices and scores are exact reals. */
module RouterScoring {
  import opened Options

  datatype Tier = Light | Standard | Heavy

  /** USD per million tokens, for input and output. */
  datatype Price = Price(input: real, output: real)

  datatype Economics = Economics(inputPrice: Option<real>, outputPrice: Option<real>, subscription: bool)

  datatype HistoricalPrice = HistoricalPrice(input: Option<real>, output: Option<real>)

  const DEFAULT_MODEL_PRICE := Price(1.0, 3.0)
  const DEFAULT_SUCCESS := 0.5

  function OrElse<T>(value: Option<T>, default: T): T {
    if value.Some? then value.value else default
  }

  // ---------- prices ----------

  /** The branches of the price resolution; `table` is the entry of the price table, or the
      default price if the model is not in the table. */
  function ResolveModelPrice(own: Economics, table: Price, historical: HistoricalPrice): Price {
    var tableIsDefault := table == DEFAULT_MODEL_PRICE;
    if own.subscription then Price(0.0, 0.0)
    else if own.inputPrice.Some? || own.outputPrice.Some? then
      Price(
        OrElse(own.inputPrice,
               if tableIsDefault then OrElse(historical.input, DEFAULT_MODEL_PRICE.input) else table.input),
        OrElse(own.outputPrice,
               if tableIsDefault then OrElse(historical.output, DEFAULT_MODEL_PRICE.output) else table.output))
    else if !tableIsDefault then table
    else if historical.input.Some? || historical.output.Some? then
      Price(OrElse(historical.input, DEFAULT_MODEL_PRICE.input), OrElse(historical.output, DEFAULT_MODEL_PRICE.output))
    else DEFAULT_MODEL_PRICE
  }

  /** The first known of several sources. */
  function First(sources: seq<Option<real>>, default: real): real {
    if sources == [] then default
    else if sources[0].Some? then sources[0].value
    else First(sources[1..], default)
  }

  function Known(table: Price, side: real): Option<real> {
    if table == DEFAULT_MODEL_PRICE then None else Some(side)
  }

  /** However the branches are arranged, each side of the price is resolved on its own:
      the user's setting, then the price table, then history, then the default; a
      subscription costs nothing. */
  lemma PricePriority(own: Economics, table: Price, historical: HistoricalPrice)
    ensures var p := ResolveModelPrice(own, table, historical);
      if own.subscription then p == Price(0.0, 0.0)
      else
        && p.input == First([own.inputPrice, Known(table, table.input), historical.input], DEFAULT_MODEL_PRICE.input)
        && p.output ==
             First([own.outputPrice, Known(table, table.output), historical.output], DEFAULT_MODEL_PRICE.output)
  {
    FirstOfThree(own.inputPrice, Known(table, table.input), historical.input, DEFAULT_MODEL_PRICE.input);
    FirstOfThree(own.outputPrice, Known(table, table.output), historical.output, DEFAULT_MODEL_PRICE.output);
  }

  lemma FirstOfThree(a: Option<real>, b: Option<real>, c: Option<real>, default: real)
    ensures First([a, b, c], default) ==
      if a.Some? then a.value else if b.Some? then b.value else if c.Some? then c.value else default
  {
    assert [a, b, c][1..] == [b, c] && [b, c][1..] == [c] && [c][1..] == [];
    assert First([c], default) == if c.Some? then c.value else default;
    assert First([b, c], default) == if b.Some? then b.value else First([c], default);
  }

  // ---------- scores ----------

  /** A disqualified candidate has a score below every number. */
  datatype Score = Disqualified | Points(value: real)

  predicate Above(a: Score, b: Score) {
    match (a, b)
    case (Disqualified, _) => false
    case (Points(_), Disqualified) => true
    case (Points(x), Points(y)) => x > y
  }

  function TierFit(task: Tier, model: Tier): real {
    if task == model then 1.0
    else if task.Standard? || model.Standard? then 0.6
    else 0.3
  }

  datatype Weights = Weights(cost: real, success: real, tierFit: real)

  const DEFAULT_WEIGHTS := Weights(0.35, 0.35, 0.3)

  /** The caller may override some of the weights. */
  function MergeWeights(cost: Option<real>, success: Option<real>, tierFit: Option<real>): Weights {
    Weights(OrElse(cost, DEFAULT_WEIGHTS.cost), OrElse(success, DEFAULT_WEIGHTS.success),
            OrElse(tierFit, DEFAULT_WEIGHTS.tierFit))
  }

  /** What scoring knows of an agent: its price per million tokens, its rate of success and
      the tier of its model. */
  datatype Candidate = Candidate(cost: real, success: real, tier: Tier)

  function Appraise(
    own: Economics, table: Price, historical: HistoricalPrice, success: Option<real>, tier: Tier): Candidate
  {
    var p := ResolveModelPrice(own, table, historical);
    Candidate(p.input + p.output, OrElse(success, DEFAULT_SUCCESS), tier)
  }

  function Lowest(costs: seq<real>): (m: real)
    requires costs != []
    ensures m in costs && forall c :: c in costs ==> m <= c
  {
    if |costs| == 1 then costs[0]
    else
      var rest := Lowest(costs[1..]);
      assert costs == [costs[0]] + costs[1..];
      if costs[0] <= rest then costs[0] else rest
  }

  function Highest(costs: seq<real>): (m: real)
    requires costs != []
    ensures m in costs && forall c :: c in costs ==> c <= m
  {
    if |costs| == 1 then costs[0]
    else
      var rest := Highest(costs[1..]);
      assert costs == [costs[0]] + costs[1..];
      if costs[0] >= rest then costs[0] else rest
  }

  function CostScore(cost: real, low: real, high: real): real {
    if high == low then 0.5 else 1.0 - (cost - low) / (high - low)
  }

  function Total(w: Weights, costScore: real, success: real, tierFit: real): real {
    w.cost * costScore + w.success * success + w.tierFit * tierFit
  }

  predicate IsDisqualified(task: Tier, model: Tier) {
    task.Heavy? && model.Light?
  }

  function Costs(pool: seq<Candidate>): (costs: seq<real>)
    ensures |costs| == |pool| && forall i :: 0 <= i < |pool| ==> costs[i] == pool[i].cost
  {
    seq(|pool|, i requires 0 <= i < |pool| => pool[i].cost)
  }

  function ScoreOf(pool: seq<Candidate>, task: Tier, w: Weights, k: nat): Score
    requires k < |pool|
  {
    var costs, c := Costs(pool), pool[k];
    if IsDisqualified(task, c.tier) then Disqualified
    else
      Points(Total(w, CostScore(c.cost, Lowest(costs), Highest(costs)), c.success, TierFit(task, c.tier)))
  }

  function Scores(pool: seq<Candidate>, task: Tier, w: Weights): (scores: seq<Score>)
    ensures |scores| == |pool| && forall i :: 0 <= i < |pool| ==> scores[i] == ScoreOf(pool, task, w, i)
  {
    seq(|pool|, i requires 0 <= i < |pool| => ScoreOf(pool, task, w, i))
  }

  // ---------- normalisation is monotone ----------

  /** Within a range, lowering either end brings a fixed cost relatively closer to the
      upper end. */
  lemma FixedCost(c: real, low: real, high: real, low': real, high': real)
    requires low' <= low <= c <= high' <= high && low < high && low' < high'
    ensures (c - low') / (high' - low') >= (c - low) / (high - low)
  {
    var a, b := (c - low) / (high - low), (c - low') / (high' - low');
    assert a * (high - low) == c - low && b * (high' - low') == c - low';
    assert 0.0 <= a by { Quotient(c - low, high - low); }
    if b < a {
      assert b * (high' - low') < a * (high' - low') by { Product(b, a, high' - low'); }
      if low < high' {
        FixedCostEnds(c, low, high, low', high', a);
      } else {
        assert c == low && a == 0.0;
      }
    }
  }

  lemma Quotient(x: real, y: real)
    requires x >= 0.0 && y > 0.0
    ensures x / y >= 0.0
  {
  }

  lemma Product(x: real, y: real, z: real)
    requires x < y && z > 0.0
    ensures x * z < y * z
  {
  }

  lemma ProductLe(x: real, y: real, z: real)
    requires x <= y && z >= 0.0
    ensures x * z <= y * z
  {
  }

  /** `a` is the relative position of `c` in the old range. */
  lemma FixedCostEnds(c: real, low: real, high: real, low': real, high': real, a: real)
    requires low' <= low <= c <= high' <= high && low < high && a * (high - low) == c - low && 0.0 <= a
    ensures a * (high' - low') <= c - low'
  {
    assert a <= 1.0 by { Share(c - low, high - low, a); }
    calc {
      a * (high' - low');
    ==
      a * (high' - low) + a * (low - low');
    <= { ProductLe(a, 1.0, low - low'); }
      a * (high' - low) + (low - low');
    <= { ProductLe(high' - low, high - low, a); }
      a * (high - low) + (low - low');
    ==
      c - low';
    }
  }

  lemma Share(x: real, y: real, a: real)
    requires a * y == x && 0.0 <= x <= y && y > 0.0
    ensures a <= 1.0
  {
    if a > 1.0 {
      Product(1.0, a, y);
    }
  }

  /** `after` differs from `before` only in a lower cost of the candidates in `group`, which
      have the same cost before and after: they stand for one agent. */
  ghost predicate Cheaper(before: seq<real>, after: seq<real>, group: set<nat>) {
    && |before| == |after|
    && (forall i :: i in group ==> i < |before| && after[i] <= before[i])
    && (forall i, j :: i in group && j in group ==> before[i] == before[j] && after[i] == after[j])
    && (forall j :: 0 <= j < |before| && j !in group ==> after[j] == before[j])
  }

  lemma RangeShifts(before: seq<real>, after: seq<real>, group: set<nat>, i: nat)
    requires Cheaper(before, after, group) && i in group
    ensures Lowest(after) <= Lowest(before) && Highest(after) <= Highest(before)
    ensures Lowest(after) == Lowest(before) || Lowest(after) == after[i]
    ensures Highest(after) == Highest(before) || before[i] == Highest(before)
  {
    var low, high := Lowest(before), Highest(before);
    var l :| 0 <= l < |before| && before[l] == low;
    var h :| 0 <= h < |after| && after[h] == Highest(after);
    var l' :| 0 <= l' < |after| && after[l'] == Lowest(after);
    var h' :| 0 <= h' < |before| && before[h'] == high;
    assert after[l] in after && before[h] in before;
    assert before[l'] in before && after[h'] in after;
  }

  lemma InRange(costs: seq<real>, k: nat)
    requires k < |costs|
    ensures Lowest(costs) <= costs[k] <= Highest(costs)
  {
    assert costs[k] in costs;
  }

  lemma TopOfRange(c: real, low: real)
    requires low < c
    ensures CostScore(c, low, c) == 0.0 && CostScore(low, low, c) == 1.0
  {
    assert (c - low) / (c - low) == 1.0;
  }

  /** A fixed cost is not rated better when both ends of the range go down. */
  lemma FixedScore(c: real, low: real, high: real, low': real, high': real)
    requires low' <= low <= c <= high' <= high
    ensures CostScore(c, low', high') <= CostScore(c, low, high)
  {
    if low < high && low' < high' {
      FixedCost(c, low, high, low', high');
    } else if low < high {
      TopOfRange(high, low);
    } else if low' < high' {
      TopOfRange(high', low');
    }
  }

  lemma ScoreBounds(c: real, low: real, high: real)
    requires low <= c <= high
    ensures 0.0 <= CostScore(c, low, high) <= 1.0
  {
    if low < high {
      var a := (c - low) / (high - low);
      assert a * (high - low) == c - low;
      Quotient(c - low, high - low);
      Share(c - low, high - low, a);
    }
  }

  lemma Smaller(x: real, y: real, z: real)
    requires x <= y && z > 0.0
    ensures x / z <= y / z
  {
  }

  /** The cost that went down is not rated worse: it is the new lowest, or it was the old
      highest, or it moved within an unchanged range. */
  lemma LoweredScore(c: real, c': real, low: real, high: real, low': real, high': real)
    requires c' <= c && low <= c <= high && low' <= c' <= high' && low' <= low && high' <= high
    requires low' == low || low' == c'
    requires high' == high || c == high
    ensures CostScore(c, low, high) <= CostScore(c', low', high')
  {
    ScoreBounds(c, low, high);
    ScoreBounds(c', low', high');
    if low' < high' && low' == c' {
      TopOfRange(high', low');
    } else if low < high && c == high {
      TopOfRange(high, low);
    } else if low < high {
      Smaller(c' - low, c - low, high - low);
    }
  }

  /** Another candidate's cost score never improves. */
  lemma OthersNotHigher(before: seq<real>, after: seq<real>, group: set<nat>, i: nat, j: nat)
    requires Cheaper(before, after, group) && i in group && j < |before| && j !in group
    ensures CostScore(after[j], Lowest(after), Highest(after)) <= CostScore(before[j], Lowest(before), Highest(before))
  {
    RangeShifts(before, after, group, i);
    InRange(before, j);
    InRange(after, j);
    FixedScore(before[j], Lowest(before), Highest(before), Lowest(after), Highest(after));
  }

  /** The cheaper candidate's own cost score never gets worse. */
  lemma OwnNotLower(before: seq<real>, after: seq<real>, group: set<nat>, i: nat)
    requires Cheaper(before, after, group) && i in group
    ensures CostScore(after[i], Lowest(after), Highest(after)) >= CostScore(before[i], Lowest(before), Highest(before))
  {
    RangeShifts(before, after, group, i);
    InRange(before, i);
    InRange(after, i);
    LoweredScore(before[i], after[i], Lowest(before), Highest(before), Lowest(after), Highest(after));
  }

  /** The candidates in `group` stand for one agent, which costs less; nothing else
      changes. */
  ghost predicate PriceLowered(before: seq<Candidate>, after: seq<Candidate>, group: set<nat>) {
    && |before| == |after|
    && (forall i :: i in group ==>
          i < |before| && after[i].cost <= before[i].cost && after[i] == before[i].(cost := after[i].cost))
    && (forall i, j :: i in group && j in group ==> before[i] == before[j] && after[i] == after[j])
    && (forall j :: 0 <= j < |before| && j !in group ==> after[j] == before[j])
  }

  predicate NotAbove(a: Score, b: Score) {
    !Above(a, b)
  }

  /** Lowering the price of one agent `i` never lowers its score and never raises the score
      of another. */
  lemma ScoreMonotone(
    before: seq<Candidate>, after: seq<Candidate>, task: Tier, w: Weights, group: set<nat>, i: nat, k: nat)
    requires PriceLowered(before, after, group) && i in group && k < |before| && w.cost >= 0.0
    ensures k in group ==> NotAbove(ScoreOf(before, task, w, k), ScoreOf(after, task, w, k))
    ensures k !in group ==> NotAbove(ScoreOf(after, task, w, k), ScoreOf(before, task, w, k))
  {
    var a, b := Costs(before), Costs(after);
    assert Cheaper(a, b, group);
    var x := CostScore(a[k], Lowest(a), Highest(a));
    var y := CostScore(b[k], Lowest(b), Highest(b));
    var c := before[k];
    assert after[k].success == c.success && after[k].tier == c.tier;
    hide CostScore, Lowest, Highest, TierFit, Total, Cheaper;
    if k in group {
      OwnNotLower(a, b, group, k);
      TotalMonotone(w, x, y, c.success, TierFit(task, c.tier));
    } else {
      OthersNotHigher(a, b, group, i, k);
      TotalMonotone(w, y, x, c.success, TierFit(task, c.tier));
    }
  }

  lemma TotalMonotone(w: Weights, x: real, y: real, success: real, tierFit: real)
    requires x <= y && w.cost >= 0.0
    ensures Total(w, x, success, tierFit) <= Total(w, y, success, tierFit)
  {
    ProductLe(x, y, w.cost);
  }

  /** Lowering a price never lowers the score of the candidate itself. */
  ghost predicate RewardsCheapness(w: Weights) {
    forall before: seq<Candidate>, after: seq<Candidate>, task: Tier, group: set<nat>, i: nat ::
      PriceLowered(before, after, group) && i in group ==>
        NotAbove(ScoreOf(before, task, w, i), ScoreOf(after, task, w, i))
  }

  /** The default weights reward cheapness, and so do all overrides but a negative weight of
      the cost. */
  lemma OverriddenWeights(cost: Option<real>, success: Option<real>, tierFit: Option<real>)
    ensures RewardsCheapness(MergeWeights(cost, success, tierFit)) <==> (cost.Some? ==> cost.value >= 0.0)
  {
    RewardsCheapnessExactly(MergeWeights(cost, success, tierFit));
    hide RewardsCheapness;
  }

  /** The weight of the cost must not be negative, and that is all that is needed. */
  lemma RewardsCheapnessExactly(w: Weights)
    ensures RewardsCheapness(w) <==> w.cost >= 0.0
  {
    if w.cost >= 0.0 {
      forall before: seq<Candidate>, after: seq<Candidate>, task: Tier, group: set<nat>, i: nat
        | PriceLowered(before, after, group) && i in group
        ensures NotAbove(ScoreOf(before, task, w, i), ScoreOf(after, task, w, i))
      {
        ScoreMonotone(before, after, task, w, group, i, i);
      }
    } else {
      PenalisesCheapness(w);
    }
  }

  /** What the user sets for one side of a price is no higher than what is in force. */
  predicate NoHigher(price: Option<real>, current: real) {
    price.Some? ==> price.value <= current
  }

  /** The economics of an agent after the user set some of its prices. */
  function WithPrices(own: Economics, input: Option<real>, output: Option<real>): Economics {
    own.(inputPrice := if input.Some? then input else own.inputPrice,
         outputPrice := if output.Some? then output else own.outputPrice)
  }

  /** A user who sets prices for an agent, for either side or both, no higher than the
      prices in force, makes it a cheaper candidate, and nothing else changes. */
  lemma UserPriceLowers(
    own: Economics, table: Price, historical: HistoricalPrice, success: Option<real>, tier: Tier,
    input: Option<real>, output: Option<real>)
    requires NoHigher(input, ResolveModelPrice(own, table, historical).input)
    requires NoHigher(output, ResolveModelPrice(own, table, historical).output)
    ensures var before := Appraise(own, table, historical, success, tier);
      var after := Appraise(WithPrices(own, input, output), table, historical, success, tier);
      after.cost <= before.cost && after == before.(cost := after.cost)
  {
    PricePriority(own, table, historical);
    PricePriority(WithPrices(own, input, output), table, historical);
    hide ResolveModelPrice, First;
    if !own.subscription {
      FirstLowered(own.inputPrice, input, Known(table, table.input), historical.input, DEFAULT_MODEL_PRICE.input);
      FirstLowered(own.outputPrice, output, Known(table, table.output), historical.output, DEFAULT_MODEL_PRICE.output);
    }
  }

  lemma FirstLowered(own: Option<real>, price: Option<real>, b: Option<real>, c: Option<real>, default: real)
    requires NoHigher(price, First([own, b, c], default))
    ensures First([if price.Some? then price else own, b, c], default) <= First([own, b, c], default)
  {
    FirstOfThree(own, b, c, default);
    FirstOfThree(if price.Some? then price else own, b, c, default);
  }

  lemma PenalisesCheapness(w: Weights)
    requires w.cost < 0.0
    ensures !RewardsCheapness(w)
  {
    var dear, cheap := Candidate(1.0, 0.5, Standard), Candidate(0.0, 0.5, Standard);
    var before, after := [dear, dear], [cheap, dear];
    assert PriceLowered(before, after, {0});
    TwoCosts(before);
    TwoCosts(after);
    assert CostScore(1.0, 1.0, 1.0) == 0.5 && CostScore(0.0, 0.0, 1.0) == 1.0;
    assert Above(ScoreOf(before, Standard, w, 0), ScoreOf(after, Standard, w, 0));
  }

  lemma TwoCosts(pool: seq<Candidate>)
    requires |pool| == 2 && pool[0].cost <= pool[1].cost
    ensures Lowest(Costs(pool)) == pool[0].cost && Highest(Costs(pool)) == pool[1].cost
  {
    var costs := Costs(pool);
    assert costs == [pool[0].cost, pool[1].cost];
  }

  // ---------- the order of the candidates ----------

  /** Candidate `j` comes before candidate `k`: it has a higher score, or the same score
      and an earlier place in the pool. */
  predicate Beats(scores: seq<Score>, j: nat, k: nat)
    requires j < |scores| && k < |scores|
  {
    Above(scores[j], scores[k]) || (!Above(scores[k], scores[j]) && j < k)
  }

  predicate Indices(scores: seq<Score>, order: seq<nat>) {
    forall p :: 0 <= p < |order| ==> order[p] < |scores|
  }

  /** Puts a later candidate behind all those that do not score below it. */
  function Insert(scores: seq<Score>, order: seq<nat>, x: nat): (longer: seq<nat>)
    requires x < |scores| && Indices(scores, order)
    ensures |longer| == |order| + 1 && Indices(scores, longer)
  {
    if order == [] then [x]
    else if Above(scores[x], scores[order[0]]) then [x] + order
    else [order[0]] + Insert(scores, order[1..], x)
  }

  lemma {:induction false} InsertMembers(scores: seq<Score>, order: seq<nat>, x: nat, y: nat)
    requires x < |scores| && Indices(scores, order)
    ensures y in Insert(scores, order, x) <==> y == x || y in order
  {
    if order != [] && !Above(scores[x], scores[order[0]]) {
      InsertMembers(scores, order[1..], x, y);
      assert order == [order[0]] + order[1..];
    }
  }

  /** The stable descending order of the first `n` candidates, as indices. */
  function Order(scores: seq<Score>, n: nat): (order: seq<nat>)
    requires n <= |scores|
    ensures |order| == n && Indices(scores, order)
  {
    if n == 0 then [] else Insert(scores, Order(scores, n - 1), n - 1)
  }

  ghost predicate Sorted(scores: seq<Score>, order: seq<nat>)
    requires Indices(scores, order)
  {
    forall p, q :: 0 <= p < q < |order| ==> Beats(scores, order[p], order[q])
  }

  lemma {:induction false} InsertSorted(scores: seq<Score>, order: seq<nat>, x: nat)
    requires x < |scores| && Indices(scores, order) && Sorted(scores, order)
    requires forall p :: 0 <= p < |order| ==> order[p] < x
    ensures Sorted(scores, Insert(scores, order, x))
  {
    if order != [] {
      if Above(scores[x], scores[order[0]]) {
        InsertFirst(scores, order, x);
      } else {
        InsertSorted(scores, order[1..], x);
        InsertLater(scores, order, x);
      }
    }
  }

  lemma InsertFirst(scores: seq<Score>, order: seq<nat>, x: nat)
    requires x < |scores| && Indices(scores, order) && Sorted(scores, order)
    requires order != [] && Above(scores[x], scores[order[0]])
    ensures Sorted(scores, [x] + order)
  {
    forall q | 0 <= q < |order| ensures Beats(scores, x, order[q]) {
      if q > 0 {
        assert Beats(scores, order[0], order[q]);
        AboveMixed(scores[x], scores[order[0]], scores[order[q]]);
      }
    }
  }

  lemma InsertLater(scores: seq<Score>, order: seq<nat>, x: nat)
    requires x < |scores| && Indices(scores, order) && Sorted(scores, order) && order != []
    requires order[0] < x && !Above(scores[x], scores[order[0]])
    requires Sorted(scores, Insert(scores, order[1..], x))
    ensures Sorted(scores, [order[0]] + Insert(scores, order[1..], x))
  {
    var rest := Insert(scores, order[1..], x);
    hide Insert;
    forall q | 0 <= q < |rest| ensures Beats(scores, order[0], rest[q]) {
      InsertMembers(scores, order[1..], x, rest[q]);
      if rest[q] != x {
        var p :| 0 <= p < |order[1..]| && order[1..][p] == rest[q];
        assert Beats(scores, order[0], order[p + 1]);
      }
    }
  }

  lemma AboveMixed(a: Score, b: Score, c: Score)
    requires Above(a, b) && !Above(c, b)
    ensures Above(a, c)
  {
  }

  ghost predicate Distinct(s: seq<nat>) {
    forall p, q :: 0 <= p < q < |s| ==> s[p] != s[q]
  }

  lemma {:induction false} InsertDistinct(scores: seq<Score>, order: seq<nat>, x: nat)
    requires x < |scores| && Indices(scores, order) && x !in order && Distinct(order)
    ensures Distinct(Insert(scores, order, x))
  {
    if order != [] && !Above(scores[x], scores[order[0]]) {
      InsertDistinct(scores, order[1..], x);
      InsertMembers(scores, order[1..], x, order[0]);
      assert order[0] != x && order[0] !in order[1..];
    }
  }

  /** Each of the first `n` candidates once. */
  ghost predicate Permutes(order: seq<nat>, n: nat) {
    Distinct(order) && forall k: nat :: k in order <==> k < n
  }

  lemma {:induction false} OrderCorrect(scores: seq<Score>, n: nat)
    requires n <= |scores|
    ensures Sorted(scores, Order(scores, n)) && Permutes(Order(scores, n), n)
  {
    if n > 0 {
      OrderCorrect(scores, n - 1);
      InsertCorrect(scores, Order(scores, n - 1), n - 1);
    }
  }

  lemma InsertCorrect(scores: seq<Score>, order: seq<nat>, x: nat)
    requires x < |scores| && Indices(scores, order) && Sorted(scores, order) && Permutes(order, x)
    ensures Sorted(scores, Insert(scores, order, x)) && Permutes(Insert(scores, order, x), x + 1)
  {
    assert x !in order && forall p :: 0 <= p < |order| ==> order[p] in order;
    hide Insert, Sorted, Beats, Distinct;
    InsertSorted(scores, order, x);
    InsertDistinct(scores, order, x);
    var longer := Insert(scores, order, x);
    forall k: nat ensures k in longer <==> k < x + 1 {
      InsertMembers(scores, order, x, k);
    }
  }

  /** How many candidates come before candidate `k`. */
  function Place(scores: seq<Score>, k: nat): nat
    requires k < |scores|
  {
    |Ahead(scores, k)|
  }

  function Ahead(scores: seq<Score>, k: nat): set<nat>
    requires k < |scores|
  {
    set j: nat | j < |scores| && Beats(scores, j, k)
  }

  function Members(s: seq<nat>): set<nat> {
    set x | x in s
  }

  lemma {:induction false} DistinctSet(s: seq<nat>)
    requires Distinct(s)
    ensures |Members(s)| == |s|
  {
    if s != [] {
      var rest, last := s[..|s| - 1], s[|s| - 1];
      DistinctSet(rest);
      assert s == rest + [last] && last !in rest;
      assert Members(s) == Members(rest) + {last};
    }
  }

  lemma PrefixAhead(scores: seq<Score>, order: seq<nat>, p: nat)
    requires Indices(scores, order) && Sorted(scores, order) && Permutes(order, |scores|) && p < |order|
    ensures Members(order[..p]) == Ahead(scores, order[p])
  {
    forall j: nat ensures j in Members(order[..p]) <==> j in Ahead(scores, order[p]) {
      if j in order {
        var q :| 0 <= q < |order| && order[q] == j;
        assert j in order[..p] <==> q < p by {
          if q < p {
            assert order[..p][q] == j;
          }
        }
        if q < p {
          assert Beats(scores, order[q], order[p]);
        } else if q > p {
          assert Beats(scores, order[p], order[q]);
        }
      }
    }
  }

  /** Each place of the order has its own candidate. */
  lemma PlaceOf(scores: seq<Score>, p: nat)
    requires p < |scores|
    ensures Place(scores, Order(scores, |scores|)[p]) == p
  {
    var order := Order(scores, |scores|);
    OrderCorrect(scores, |scores|);
    PrefixAhead(scores, order, p);
    DistinctSet(order[..p]);
  }

  /** The sorted order puts every candidate exactly at its place. */
  lemma OrderPlaces(scores: seq<Score>, k: nat)
    requires k < |scores|
    ensures Place(scores, k) < |scores| && Order(scores, |scores|)[Place(scores, k)] == k
  {
    var order := Order(scores, |scores|);
    OrderCorrect(scores, |scores|);
    assert k in order;
    var p :| 0 <= p < |order| && order[p] == k;
    PlaceOf(scores, p);
  }

  /** Lowering the price of one agent never worsens any of its places in the order. */
  lemma PlaceMonotone(before: seq<Candidate>, after: seq<Candidate>, task: Tier, w: Weights, group: set<nat>, i: nat)
    requires PriceLowered(before, after, group) && i in group && w.cost >= 0.0
    ensures Place(Scores(after, task, w), i) <= Place(Scores(before, task, w), i)
  {
    hide ScoreOf, NotAbove;
    var a, b := Scores(before, task, w), Scores(after, task, w);
    ScoreMonotone(before, after, task, w, group, i, i);
    forall j | j in Ahead(b, i) ensures j in Ahead(a, i) {
      if j in group {
        SameScore(before, task, w, i, j);
        SameScore(after, task, w, i, j);
      } else {
        ScoreMonotone(before, after, task, w, group, i, j);
        BeatsBefore(a[j], b[j], a[i], b[i]);
      }
    }
    Subset(Ahead(b, i), Ahead(a, i));
  }

  lemma SameScore(pool: seq<Candidate>, task: Tier, w: Weights, i: nat, j: nat)
    requires i < |pool| && j < |pool| && pool[i] == pool[j]
    ensures ScoreOf(pool, task, w, i) == ScoreOf(pool, task, w, j)
  {
  }

  lemma BeatsBefore(aj: Score, bj: Score, ai: Score, bi: Score)
    requires NotAbove(bj, aj) && NotAbove(ai, bi)
    ensures Above(bj, bi) ==> Above(aj, ai)
    ensures !Above(bi, bj) ==> !Above(ai, aj)
  {
  }

  lemma Subset(x: set<nat>, y: set<nat>)
    requires x <= y
    ensures |x| <= |y|
  {
    assert y == x + (y - x);
  }

  // ---------- scoring a pool ----------

  /** The indices of the pool, best candidate first. */
  function ScoreCandidates(pool: seq<Candidate>, task: Tier, w: Weights): (order: seq<nat>)
    ensures |order| == |pool| && forall p :: 0 <= p < |order| ==> order[p] < |pool|
  {
    Order(Scores(pool, task, w), |pool|)
  }

  /** The first candidate is never beaten; a heavy task is given a light model only if the
      pool has nothing else. */
  lemma BestCandidate(pool: seq<Candidate>, task: Tier, w: Weights)
    requires pool != []
    ensures var best := ScoreCandidates(pool, task, w)[0];
      && best < |pool|
      && (forall k :: 0 <= k < |pool| ==>
            NotAbove(ScoreOf(pool, task, w, k), ScoreOf(pool, task, w, best)))
      && (task.Heavy? && pool[best].tier.Light? ==> forall k :: 0 <= k < |pool| ==> pool[k].tier.Light?)
  {
    var scores := Scores(pool, task, w);
    var best := ScoreCandidates(pool, task, w)[0];
    FirstUnbeaten(scores);
    hide Order, CostScore, Total, Lowest, Highest, ScoreCandidates;
    forall k | 0 <= k < |pool|
      ensures NotAbove(ScoreOf(pool, task, w, k), ScoreOf(pool, task, w, best))
      ensures task.Heavy? && pool[best].tier.Light? ==> pool[k].tier.Light?
    {
      assert NotAbove(scores[k], scores[best]);
    }
  }

  lemma FirstUnbeaten(scores: seq<Score>)
    requires scores != []
    ensures forall k :: 0 <= k < |scores| ==> NotAbove(scores[k], scores[Order(scores, |scores|)[0]])
  {
    var order := Order(scores, |scores|);
    OrderCorrect(scores, |scores|);
    hide Order, Above;
    forall k: nat | k < |scores| ensures NotAbove(scores[k], scores[order[0]]) {
      assert k in order;
      var p :| 0 <= p < |order| && order[p] == k;
      if p > 0 {
        assert Beats(scores, order[0], order[p]);
      }
      NotBoth(scores[k], scores[order[0]]);
    }
  }

  lemma NotBoth(a: Score, b: Score)
    ensures !(Above(a, b) && Above(b, a)) && !Above(a, a)
  {
  }
}
