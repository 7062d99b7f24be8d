/**
  The strategy-based weighted draw of the fishing game
  (backend/service/lottery.go).

  A draw turns the duration the client reports into one of four strategies,
  draws a sample in [0, 1000000) and scans the strategy's weights, adding
  them up until the running sum exceeds the sample; the entry reached names
  the prize. Every strategy is checked at start-up to sum to 1000000, which
  makes each entry win for exactly `weight` of the 1000000 samples.

  Go iterates a strategy's weight map in an unspecified order, so a
  strategy's weights are a sequence here and every property is proved for
  every sequence; the random sample is a parameter.
 */
module Lottery {
  import opened Wrappers
  import opened IntOps
  import Decimal

  // ---------------------------------------------------------------------------
  // Configuration and records
  // ---------------------------------------------------------------------------

  /** The sum every strategy must have. */
  const StrategyTotalWeight := 1000000
  /** Samples are drawn uniformly from [0, SampleRange). */
  const SampleRange := 1000000
  /** The item returned when the scan runs off the end (the "empty" catch). */
  const FallbackItemID := 1
  /** The duration assumed when the request carries none that can be read. */
  const DefaultDuration: real := 10000.0

  const HighStrategy := "high"
  const MediumStrategy := "medium"
  const RandomStrategy := "random"
  const EmptyStrategy := "empty"

  /** A prize of the configured pool (model.LotteryItem). */
  datatype LotteryItem = LotteryItem(id: int, name: string, description: string, points: int)

  /** One entry of a strategy's weight map: an item id spelled as a string, and its weight. */
  datatype WeightEntry = WeightEntry(itemKey: string, weight: int)

  /** A strategy, with its weights in the order a draw visits them. */
  datatype LotteryStrategy = LotteryStrategy(description: string, weights: seq<WeightEntry>)

  /** A value of the request's free-form context; a string carries the result of parsing it as a float. */
  datatype ContextValue =
    | FloatValue(f: real)
    | IntValue(n: int)
    | StringValue(text: string, parsed: Option<real>)
    | OtherValue

  /** A draw request; `context` is None for a nil map. */
  datatype DrawRequest = DrawRequest(userId: string, context: Option<map<string, ContextValue>>, traceId: string)

  datatype LotteryResult = LotteryResult(win: bool, itemId: int, itemName: string, description: string, points: int)

  datatype LotteryRecord = LotteryRecord(
    itemId: int,
    itemName: string,
    description: string,
    points: int,
    strategy: string,
    timestamp: int)

  datatype DrawResponse = DrawResponse(drawId: string, userId: string, result: LotteryResult, createdAt: int)

  datatype RankingIncrement = RankingIncrement(userId: string, delta: int, reason: string, traceId: string)

  /** A call a draw makes on a collaborator: the history store or the ranking service. */
  datatype Effect =
    | SaveRecord(userId: string, record: LotteryRecord)
    | IncrementScore(request: RankingIncrement)

  datatype LoadError = BadStrategyTotal(strategy: string, total: int)

  datatype DrawError =
    | StrategyNotFound(strategy: string)
    | InvalidItemID(key: string)
    | ItemNotFound(id: int)
    | NoFallbackItem
    | RecordSaveFailed
    | ScoreIncrementFailed

  // ---------------------------------------------------------------------------
  // Choosing a strategy
  // ---------------------------------------------------------------------------

  /**
    selectStrategyByDuration: the quicker the catch, the earlier the strategy
    in the order high, medium, random, empty.
   */
  function SelectStrategyByDuration(duration: real): (name: string)
    ensures duration <= 1000.0 ==> name == HighStrategy
    ensures 1000.0 < duration <= 3000.0 ==> name == MediumStrategy
    ensures 3000.0 < duration <= 5000.0 ==> name == RandomStrategy
    ensures 5000.0 < duration ==> name == EmptyStrategy
  {
    if duration <= 1000.0 then HighStrategy
    else if duration <= 3000.0 then MediumStrategy
    else if duration <= 5000.0 then RandomStrategy
    else EmptyStrategy
  }

  /** The position of each strategy in the order high, medium, random, empty. */
  function StrategyRank(name: string): int
  {
    if name == HighStrategy then 0
    else if name == MediumStrategy then 1
    else if name == RandomStrategy then 2
    else 3
  }

  /** A slower catch never gets a strategy earlier in that order. */
  lemma StrategyMonotone(d1: real, d2: real)
    requires d1 <= d2
    ensures StrategyRank(SelectStrategyByDuration(d1)) <= StrategyRank(SelectStrategyByDuration(d2))
  {
  }

  /**
    getDurationFromContext: the "duration" entry as a number when it is a
    float, an int or a string that parses as a float; DefaultDuration otherwise.
   */
  function GetDurationFromContext(ctx: Option<map<string, ContextValue>>): (d: real)
    ensures ctx.None? || "duration" !in ctx.value ==> d == DefaultDuration
    ensures ctx.Some? && "duration" in ctx.value ==>
              var v := ctx.value["duration"];
              && (v.OtherValue? || (v.StringValue? && v.parsed.None?) ==> d == DefaultDuration)
              && (v.FloatValue? ==> d == v.f)
              && (v.IntValue? ==> d == v.n as real)
              && (v.StringValue? && v.parsed.Some? ==> d == v.parsed.value)
  {
    if ctx.None? then DefaultDuration
    else if "duration" !in ctx.value then DefaultDuration
    else
      match ctx.value["duration"]
      case FloatValue(f) => f
      case IntValue(n) => n as real
      case StringValue(_, parsed) => if parsed.Some? then parsed.value else DefaultDuration
      case OtherValue => DefaultDuration
  }

  /** A request whose duration cannot be read is drawn with the "empty" strategy. */
  lemma UnreadableDurationSelectsEmpty(ctx: Option<map<string, ContextValue>>)
    requires || ctx.None?
             || "duration" !in ctx.value
             || ctx.value["duration"].OtherValue?
             || (ctx.value["duration"].StringValue? && ctx.value["duration"].parsed.None?)
    ensures SelectStrategyByDuration(GetDurationFromContext(ctx)) == EmptyStrategy
  {
  }

  // ---------------------------------------------------------------------------
  // Running sums
  // ---------------------------------------------------------------------------

  /** The sum of the first `n` weights: the scan's running sum before entry `n`. */
  function Prefix(entries: seq<WeightEntry>, n: nat): int
    requires n <= |entries|
    decreases n
  {
    if n == 0 then 0 else Prefix(entries, n - 1) + entries[n - 1].weight
  }

  function WeightSum(entries: seq<WeightEntry>): int
  {
    Prefix(entries, |entries|)
  }

  predicate NonNegative(entries: seq<WeightEntry>)
  {
    forall i | 0 <= i < |entries| :: entries[i].weight >= 0
  }

  lemma {:induction false} PrefixMonotone(entries: seq<WeightEntry>, i: nat, j: nat)
    requires NonNegative(entries) && i <= j <= |entries|
    ensures Prefix(entries, i) <= Prefix(entries, j)
    decreases j
  {
    if i < j {
      PrefixMonotone(entries, i, j - 1);
    }
  }

  // ---------------------------------------------------------------------------
  // Checking the strategies
  // ---------------------------------------------------------------------------

  predicate StrategyValid(s: LotteryStrategy)
  {
    WeightSum(s.weights) == StrategyTotalWeight
  }

  /**
    The check of loadLotteryStrategies on the parsed configuration: every
    strategy's weights must add up to StrategyTotalWeight; otherwise it
    reports one strategy that does not, with the sum it found.
   */
  method LoadLotteryStrategies(parsed: map<string, LotteryStrategy>)
    returns (r: Result<map<string, LotteryStrategy>, LoadError>)
    ensures r.Ok? <==> forall name | name in parsed :: StrategyValid(parsed[name])
    ensures r.Ok? ==> r.value == parsed
    ensures r.Err? ==> && r.error.strategy in parsed
                       && r.error.total == WeightSum(parsed[r.error.strategy].weights)
                       && r.error.total != StrategyTotalWeight
  {
    var pending := parsed.Keys;
    while pending != {}
      invariant pending <= parsed.Keys
      invariant forall name | name in parsed && name !in pending :: StrategyValid(parsed[name])
      decreases pending
    {
      var name :| name in pending;
      var weights := parsed[name].weights;
      var totalWeight := 0;
      var i := 0;
      while i < |weights|
        invariant 0 <= i <= |weights|
        invariant totalWeight == Prefix(weights, i)
      {
        totalWeight := totalWeight + weights[i].weight;
        i := i + 1;
      }
      if totalWeight != StrategyTotalWeight {
        return Err(BadStrategyTotal(name, totalWeight));
      }
      pending := pending - {name};
    }
    return Ok(parsed);
  }

  // ---------------------------------------------------------------------------
  // The cumulative scan
  // ---------------------------------------------------------------------------

  /**
    The entry the scan stops at when it starts at entry `i`: the first whose
    running sum exceeds the sample, or None when none does.
   */
  function ScanFrom(entries: seq<WeightEntry>, sample: int, i: nat): (k: Option<nat>)
    requires i <= |entries|
    ensures k.Some? ==> && i <= k.value < |entries|
                        && sample < Prefix(entries, k.value + 1)
                        && forall j | i < j <= k.value :: Prefix(entries, j) <= sample
    ensures k.None? ==> forall j | i < j <= |entries| :: Prefix(entries, j) <= sample
    decreases |entries| - i
  {
    if i == |entries| then None
    else if sample < Prefix(entries, i + 1) then Some(i)
    else ScanFrom(entries, sample, i + 1)
  }

  /**
    With a strategy that passed the start-up check, every sample in range
    stops the scan inside the loop: the fallback is never reached.
   */
  lemma ScanNeverExhausts(entries: seq<WeightEntry>, sample: int)
    requires WeightSum(entries) == StrategyTotalWeight && 0 <= sample < SampleRange
    ensures ScanFrom(entries, sample, 0).Some?
  {
  }

  /** With non-negative weights, entry `k` is chosen exactly for the samples in [Prefix(k), Prefix(k + 1)). */
  lemma ScanFindsInterval(entries: seq<WeightEntry>, sample: int, k: nat)
    requires NonNegative(entries) && 0 <= sample && k < |entries|
    ensures ScanFrom(entries, sample, 0) == Some(k) <==>
            Prefix(entries, k) <= sample < Prefix(entries, k + 1)
  {
    if ScanFrom(entries, sample, 0) == Some(k) && k > 0 {
      assert Prefix(entries, k) <= sample;
    }
    if Prefix(entries, k) <= sample < Prefix(entries, k + 1) {
      forall j | 0 < j <= k ensures Prefix(entries, j) <= sample {
        PrefixMonotone(entries, j, k);
      }
    }
  }

  /** The number of samples in [start, stop) for which the scan stops at entry `k`. */
  function CountHits(entries: seq<WeightEntry>, k: nat, start: int, stop: int): nat
    decreases stop - start
  {
    if stop <= start then 0
    else CountHits(entries, k, start, stop - 1) + (if ScanFrom(entries, stop - 1, 0) == Some(k) then 1 else 0)
  }

  /** When the hits in [start, stop) are exactly the samples in [lo, hi), they number the overlap of the two. */
  lemma {:induction false} CountInterval(entries: seq<WeightEntry>, k: nat, start: int, stop: int, lo: int, hi: int)
    requires start <= stop && lo <= hi
    requires forall r | start <= r < stop :: ScanFrom(entries, r, 0) == Some(k) <==> lo <= r < hi
    ensures CountHits(entries, k, start, stop) == Max(0, Min(stop, hi) - Max(start, lo))
    decreases stop - start
  {
    if start < stop {
      CountInterval(entries, k, start, stop - 1, lo, hi);
      assert ScanFrom(entries, stop - 1, 0) == Some(k) <==> lo <= stop - 1 < hi;
    }
  }

  /**
    Exact proportional odds: of the SampleRange equally likely samples,
    entry `k` is chosen for exactly its weight, whatever order the entries
    are visited in.
   */
  lemma SelectionProportional(entries: seq<WeightEntry>, k: nat)
    requires NonNegative(entries) && WeightSum(entries) == StrategyTotalWeight && k < |entries|
    ensures CountHits(entries, k, 0, SampleRange) == entries[k].weight
  {
    var lo, hi := Prefix(entries, k), Prefix(entries, k + 1);
    PrefixMonotone(entries, 0, k);
    PrefixMonotone(entries, k + 1, |entries|);
    forall r | 0 <= r < SampleRange
      ensures ScanFrom(entries, r, 0) == Some(k) <==> lo <= r < hi
    {
      ScanFindsInterval(entries, r, k);
    }
    CountInterval(entries, k, 0, SampleRange, lo, hi);
  }

  // ---------------------------------------------------------------------------
  // From a sample to a prize
  // ---------------------------------------------------------------------------

  /** The items map after inserting `items` in order: a later item replaces an earlier one with its id. */
  function ItemsMapOf(items: seq<LotteryItem>): (m: map<int, LotteryItem>)
    ensures forall id | id in m :: m[id].id == id
  {
    if items == [] then map[] else ItemsMapOf(items[..|items| - 1])[items[|items| - 1].id := items[|items| - 1]]
  }

  /** No later item of `items` has the id of item `i`. */
  predicate LastWithId(items: seq<LotteryItem>, i: int)
    requires 0 <= i < |items|
  {
    forall j | i < j < |items| :: items[j].id != items[i].id
  }

  /** The ids of the items map are exactly the ids of the pool. */
  lemma {:induction false} ItemsMapKeys(items: seq<LotteryItem>)
    ensures forall id :: id in ItemsMapOf(items) <==> exists i | 0 <= i < |items| :: items[i].id == id
    decreases |items|
  {
    if items != [] {
      var init := items[..|items| - 1];
      ItemsMapKeys(init);
      forall id ensures id in ItemsMapOf(items) <==> exists i | 0 <= i < |items| :: items[i].id == id {
        if id in ItemsMapOf(init) {
          var i :| 0 <= i < |init| && init[i].id == id;
          assert items[i].id == id;
        }
        if exists i | 0 <= i < |items| :: items[i].id == id {
          var i :| 0 <= i < |items| && items[i].id == id;
          if i < |init| {
            assert init[i].id == id;
          }
        }
      }
    }
  }

  /** An id held by several items gives the last of them. */
  lemma {:induction false} ItemsMapLastWins(items: seq<LotteryItem>)
    ensures forall i | 0 <= i < |items| && LastWithId(items, i) ::
              items[i].id in ItemsMapOf(items) && ItemsMapOf(items)[items[i].id] == items[i]
    decreases |items|
  {
    if items != [] {
      var init := items[..|items| - 1];
      ItemsMapLastWins(init);
      forall i | 0 <= i < |items| && LastWithId(items, i)
        ensures items[i].id in ItemsMapOf(items) && ItemsMapOf(items)[items[i].id] == items[i]
      {
        if i < |items| - 1 {
          assert init[i] == items[i];
          assert LastWithId(init, i);
        }
      }
    }
  }

  /**
    What weightedRandomSelectByStrategy yields for `sample`: the item named by
    the entry the scan stops at, or the fallback item when the scan runs off
    the end. Go returns a nil item when the fallback id is absent; here that
    is NoFallbackItem.
   */
  function SelectByStrategy(
    strategies: map<string, LotteryStrategy>,
    itemsMap: map<int, LotteryItem>,
    name: string,
    sample: int): (r: Result<LotteryItem, DrawError>)
    ensures name !in strategies ==> r == Err(StrategyNotFound(name))
    ensures r.Ok? ==> r.value in itemsMap.Values
    ensures name in strategies && ScanFrom(strategies[name].weights, sample, 0).Some? ==>
              var key := strategies[name].weights[ScanFrom(strategies[name].weights, sample, 0).value].itemKey;
              var id := Decimal.Atoi(key);
              && (id.None? ==> r == Err(InvalidItemID(key)))
              && (id.Some? ==> (r.Ok? <==> id.value in itemsMap))
              && (id.Some? && id.value !in itemsMap ==> r == Err(ItemNotFound(id.value)))
              && (r.Ok? ==> id.Some? && r.value == itemsMap[id.value])
    ensures name in strategies && ScanFrom(strategies[name].weights, sample, 0).None? ==>
              && (r.Ok? <==> FallbackItemID in itemsMap)
              && (r.Ok? ==> r.value == itemsMap[FallbackItemID])
              && (r.Err? ==> r.error == NoFallbackItem)
  {
    if name !in strategies then Err(StrategyNotFound(name))
    else
      var entries := strategies[name].weights;
      match ScanFrom(entries, sample, 0)
      case Some(k) =>
        (match Decimal.Atoi(entries[k].itemKey)
         case None => Err(InvalidItemID(entries[k].itemKey))
         case Some(id) => if id in itemsMap then Ok(itemsMap[id]) else Err(ItemNotFound(id)))
      case None =>
        if FallbackItemID in itemsMap then Ok(itemsMap[FallbackItemID]) else Err(NoFallbackItem)
  }

  /**
    End to end: for a checked strategy with non-negative weights, a sample in
    the interval of entry `k`, whose key is the decimal spelling of a known
    item id, draws that item.
   */
  lemma SampleDrawsItem(
    strategies: map<string, LotteryStrategy>,
    itemsMap: map<int, LotteryItem>,
    name: string,
    sample: int,
    k: nat)
    requires name in strategies
    requires var entries := strategies[name].weights;
             && NonNegative(entries) && StrategyValid(strategies[name]) && k < |entries|
             && 0 <= sample
             && Prefix(entries, k) <= sample < Prefix(entries, k + 1)
    requires var key := strategies[name].weights[k].itemKey;
             exists id | id in itemsMap :: Decimal.MinInt64 <= id <= Decimal.MaxInt64 && key == Decimal.FormatInt(id)
    ensures var key := strategies[name].weights[k].itemKey;
            forall id | id in itemsMap && Decimal.MinInt64 <= id <= Decimal.MaxInt64 && key == Decimal.FormatInt(id) ::
              SelectByStrategy(strategies, itemsMap, name, sample) == Ok(itemsMap[id])
  {
    var entries := strategies[name].weights;
    ScanFindsInterval(entries, sample, k);
    forall id | id in itemsMap && Decimal.MinInt64 <= id <= Decimal.MaxInt64 && entries[k].itemKey == Decimal.FormatInt(id)
      ensures SelectByStrategy(strategies, itemsMap, name, sample) == Ok(itemsMap[id])
    {
      Decimal.AtoiFormatInt(id);
    }
  }

  // ---------------------------------------------------------------------------
  // The service
  // ---------------------------------------------------------------------------

  /** LotteryService: the parsed configuration and the items map built from it. */
  class LotteryService {
    var lotteryPool: seq<LotteryItem>
    var strategies: map<string, LotteryStrategy>
    var itemsMap: map<int, LotteryItem>

    constructor (pool: seq<LotteryItem>, checked: map<string, LotteryStrategy>)
      ensures lotteryPool == pool && strategies == checked && itemsMap == map[]
    {
      lotteryPool := pool;
      strategies := checked;
      itemsMap := map[];
    }

    /** buildItemsMap: index the pool's items by id, one item after the other. */
    method BuildItemsMap()
      modifies this`itemsMap
      ensures lotteryPool == old(lotteryPool) && strategies == old(strategies)
      ensures itemsMap == ItemsMapOf(lotteryPool)
    {
      itemsMap := map[];
      var i := 0;
      while i < |lotteryPool|
        invariant 0 <= i <= |lotteryPool|
        invariant itemsMap == ItemsMapOf(lotteryPool[..i])
      {
        assert lotteryPool[..i + 1][..i] == lotteryPool[..i];
        var item := lotteryPool[i];
        itemsMap := itemsMap[item.id := item];
        i := i + 1;
      }
      assert lotteryPool[..i] == lotteryPool;
    }

    /**
      weightedRandomSelectByStrategy, with the random sample passed in: scan
      the strategy's weights with a running sum and return the item of the
      first entry whose running sum exceeds the sample.
     */
    method WeightedRandomSelectByStrategy(strategyName: string, sample: int)
      returns (r: Result<LotteryItem, DrawError>)
      requires 0 <= sample < SampleRange
      ensures r == SelectByStrategy(strategies, itemsMap, strategyName, sample)
    {
      if strategyName !in strategies {
        return Err(StrategyNotFound(strategyName));
      }
      var entries := strategies[strategyName].weights;
      var cumulativeWeight := 0;
      var i := 0;
      while i < |entries|
        invariant 0 <= i <= |entries|
        invariant cumulativeWeight == Prefix(entries, i)
        invariant ScanFrom(entries, sample, i) == ScanFrom(entries, sample, 0)
      {
        cumulativeWeight := cumulativeWeight + entries[i].weight;
        if sample < cumulativeWeight {
          var itemId := Decimal.Atoi(entries[i].itemKey);
          if itemId.None? {
            return Err(InvalidItemID(entries[i].itemKey));
          }
          if itemId.value !in itemsMap {
            return Err(ItemNotFound(itemId.value));
          }
          return Ok(itemsMap[itemId.value]);
        }
        i := i + 1;
      }
      if FallbackItemID !in itemsMap {
        return Err(NoFallbackItem);
      }
      return Ok(itemsMap[FallbackItemID]);
    }

    /**
      Draw, with the sample, draw id and clock passed in and the outcomes of
      the two collaborator calls (saving the record, crediting the score)
      given as `saveOk` and `rankingOk`. `effects` lists the calls made, in
      order.
     */
    method Draw(req: DrawRequest, sample: int, drawId: string, now: int, saveOk: bool, rankingOk: bool)
      returns (r: Result<DrawResponse, DrawError>, effects: seq<Effect>)
      requires 0 <= sample < SampleRange
      ensures var strategy := SelectStrategyByDuration(GetDurationFromContext(req.context));
              var selected := SelectByStrategy(strategies, itemsMap, strategy, sample);
              && (selected.Err? ==> r == Err(selected.error) && effects == [])
              && (selected.Ok? ==>
                    var item := selected.value;
                    && |effects| >= 1
                    && effects[0] == SaveRecord(req.userId, LotteryRecord(item.id, item.name, item.description,
                                                                          item.points, strategy, now))
                    && (!saveOk ==> r == Err(RecordSaveFailed) && |effects| == 1)
                    && (saveOk ==>
                          && |effects| == (if item.points > 0 then 2 else 1)
                          && (item.points > 0 ==>
                                effects[1] == IncrementScore(RankingIncrement(req.userId, item.points,
                                                                              "lottery_win_" + item.name, req.traceId)))
                          && (item.points > 0 && !rankingOk ==> r == Err(ScoreIncrementFailed))
                          && (item.points <= 0 || rankingOk ==>
                                r == Ok(DrawResponse(drawId, req.userId,
                                                     LotteryResult(item.points > 0, item.id, item.name,
                                                                   item.description, item.points),
                                                     now)))))
      ensures r.Ok? ==> (r.value.result.win <==> r.value.result.points > 0)
      ensures r.Ok? ==> (r.value.result.points > 0 <==> exists e | e in effects :: e.IncrementScore?)
    {
      effects := [];
      var duration := GetDurationFromContext(req.context);
      var strategyName := SelectStrategyByDuration(duration);
      var selected := WeightedRandomSelectByStrategy(strategyName, sample);
      if selected.Err? {
        return Err(selected.error), effects;
      }
      var item := selected.value;
      var record := LotteryRecord(item.id, item.name, item.description, item.points, strategyName, now);
      effects := effects + [SaveRecord(req.userId, record)];
      if !saveOk {
        return Err(RecordSaveFailed), effects;
      }
      if item.points > 0 {
        var increment := RankingIncrement(req.userId, item.points, "lottery_win_" + item.name, req.traceId);
        effects := effects + [IncrementScore(increment)];
        if !rankingOk {
          return Err(ScoreIncrementFailed), effects;
        }
      }
      var result := LotteryResult(item.points > 0, item.id, item.name, item.description, item.points);
      r := Ok(DrawResponse(drawId, req.userId, result, now));
    }
  }

  /**
    NewLotteryService on an already parsed pool and strategy table: check the
    strategies, then build the items map.
   */
  method NewLotteryService(pool: seq<LotteryItem>, parsed: map<string, LotteryStrategy>)
    returns (r: Result<LotteryService, LoadError>)
    ensures r.Ok? <==> forall name | name in parsed :: StrategyValid(parsed[name])
    ensures r.Ok? ==> && fresh(r.value)
                      && r.value.lotteryPool == pool
                      && r.value.strategies == parsed
                      && r.value.itemsMap == ItemsMapOf(pool)
  {
    var checked := LoadLotteryStrategies(parsed);
    if checked.Err? {
      return Err(checked.error);
    }
    var ls := new LotteryService(pool, checked.value);
    ls.BuildItemsMap();
    return Ok(ls);
  }
}
