/** The what-if endpoint `analyze_adjustment_scenarios`: current and scenario P&L, grid extremes, recommendations. */
module Scenario {
  import opened Wrappers
  import opened Numeric
  import opened PayoffEngine
  import opened Advisor

  /** The request body; the ticker is not used by the computation and is not kept. */
  datatype AdjustmentScenario = AdjustmentScenario(
    currentPrice: real,
    legs: seq<Leg>,
    scenarioType: string,
    scenarioValue: Option<real>)

  /** The response body, before `round(x, 2)` is applied to the P&L figures. */
  datatype ScenarioAnalysis = ScenarioAnalysis(
    currentPrice: real,
    scenarioPrice: real,
    currentPnl: real,
    scenarioPnl: real,
    pnlChange: real,
    maxProfit: real,
    maxLoss: real,
    recommendations: seq<Recommendation>)

  /** `max()` and `min()` over an empty price range raise, so the request fails. */
  datatype AnalysisError = EmptyPriceGrid

  /** `scenario.scenario_value or 0.1`: an absent or zero value falls back to 10%. */
  function ScenarioShift(value: Option<real>): (shift: real)
    ensures shift != 0.0
    ensures value.Some? && value.value != 0.0 ==> shift == value.value
    ensures value.None? || value.value == 0.0 ==> shift == 0.1
  {
    if value.None? || value.value == 0.0 then 0.1 else value.value
  }

  /** The shocked price: up or down by the shift for "price_up" and "price_down", unchanged for every other type. */
  function ScenarioPrice(currentPrice: real, scenarioType: string, value: Option<real>): (p: real)
    ensures scenarioType != "price_up" && scenarioType != "price_down" ==> p == currentPrice
    ensures currentPrice != 0.0 && (scenarioType == "price_up" || scenarioType == "price_down") ==> p != currentPrice
  {
    if scenarioType == "price_up" then currentPrice * (1.0 + ScenarioShift(value))
    else if scenarioType == "price_down" then currentPrice * (1.0 - ScenarioShift(value))
    else currentPrice
  }

  /** Up and down shocks move the price by the same amount in opposite directions; the default move is 10%. */
  lemma ScenarioPriceMoves(currentPrice: real, value: Option<real>)
    ensures ScenarioPrice(currentPrice, "price_up", value) - currentPrice == currentPrice * ScenarioShift(value)
    ensures currentPrice - ScenarioPrice(currentPrice, "price_down", value) == currentPrice * ScenarioShift(value)
    ensures currentPrice > 0.0 && ScenarioShift(value) > 0.0 ==>
      ScenarioPrice(currentPrice, "price_down", value) < currentPrice < ScenarioPrice(currentPrice, "price_up", value)
    ensures value.None? || value.value == 0.0 ==>
      ScenarioPrice(currentPrice, "price_up", value) == currentPrice * 1.1
      && ScenarioPrice(currentPrice, "price_down", value) == currentPrice * 0.9
  {
    var shift := ScenarioShift(value);
    if currentPrice > 0.0 && shift > 0.0 {
      assert currentPrice * shift > 0.0;
    }
  }

  /** The price grid of lines 384-385: `range(int(current_price * 0.5), int(current_price * 1.5))`. */
  function GridLow(currentPrice: real): (lo: int)
    ensures currentPrice >= 0.0 ==> lo as real <= currentPrice * 0.5 < lo as real + 1.0
    ensures currentPrice < 0.0 ==> lo as real - 1.0 < currentPrice * 0.5 <= lo as real
  {
    Trunc(currentPrice * 0.5)
  }

  function GridHigh(currentPrice: real): (hi: int)
    ensures currentPrice >= 0.0 ==> hi as real <= currentPrice * 1.5 < hi as real + 1.0
    ensures currentPrice < 0.0 ==> hi as real - 1.0 < currentPrice * 1.5 <= hi as real
  {
    Trunc(currentPrice * 1.5)
  }

  /** The grid is non-empty for every price of at least 1, and only for positive prices. */
  lemma PriceGridNonEmpty(currentPrice: real)
    ensures currentPrice >= 1.0 ==> GridLow(currentPrice) < GridHigh(currentPrice)
    ensures GridLow(currentPrice) < GridHigh(currentPrice) ==> currentPrice > 0.0
  {
    if currentPrice >= 1.0 {
      assert GridHigh(currentPrice) as real > currentPrice * 1.5 - 1.0 >= currentPrice * 0.5;
      assert GridLow(currentPrice) as real <= currentPrice * 0.5;
    }
    if currentPrice <= 0.0 {
      TruncMonotone(currentPrice * 1.5, currentPrice * 0.5);
    }
  }

  /** `analyze_adjustment_scenarios`, with the request as a value and the raised error as `Failure`. */
  method AnalyzeAdjustmentScenarios(scenario: AdjustmentScenario) returns (r: Result<ScenarioAnalysis, AnalysisError>)
    ensures r.Failure? <==> GridHigh(scenario.currentPrice) <= GridLow(scenario.currentPrice)
    ensures r.Success? ==>
      var a := r.value;
      var legs := scenario.legs;
      && a.currentPrice == scenario.currentPrice
      && a.currentPnl == Payoff(scenario.currentPrice, legs)
      && a.scenarioPrice == ScenarioPrice(scenario.currentPrice, scenario.scenarioType, scenario.scenarioValue)
      && a.scenarioPnl == Payoff(a.scenarioPrice, legs)
      && a.pnlChange == a.scenarioPnl - a.currentPnl
      && (forall p :: GridLow(a.currentPrice) <= p < GridHigh(a.currentPrice) ==>
            a.maxLoss <= GridPayoff(legs, p) <= a.maxProfit)
      && (exists p :: GridLow(a.currentPrice) <= p < GridHigh(a.currentPrice) && GridPayoff(legs, p) == a.maxProfit)
      && (exists p :: GridLow(a.currentPrice) <= p < GridHigh(a.currentPrice) && GridPayoff(legs, p) == a.maxLoss)
      && a.recommendations == Recommendations(a.currentPrice, legs, a.currentPnl, a.maxProfit, a.maxLoss)
    ensures r.Success? && scenario.scenarioType != "price_up" && scenario.scenarioType != "price_down" ==>
      r.value.scenarioPrice == scenario.currentPrice
      && r.value.scenarioPnl == r.value.currentPnl
      && r.value.pnlChange == 0.0
  {
    var options := scenario.legs;
    var currentPrice := scenario.currentPrice;
    var currentPnl := CalculatePayoff(currentPrice, options);

    var scenarioPrice := ScenarioPrice(currentPrice, scenario.scenarioType, scenario.scenarioValue);
    var scenarioPnl := CalculatePayoff(scenarioPrice, options);

    var low := Trunc(currentPrice * 0.5);
    var high := Trunc(currentPrice * 1.5);
    if high <= low {
      return Failure(EmptyPriceGrid);
    }
    var maxProfit := MaxOnGrid(options, low, high);
    var maxLoss := MinOnGrid(options, low, high);

    var recommendations := Recommend(currentPrice, options, currentPnl, maxProfit, maxLoss);
    r := Success(ScenarioAnalysis(currentPrice, scenarioPrice, currentPnl, scenarioPnl, scenarioPnl - currentPnl,
                                  maxProfit, maxLoss, recommendations));
  }
}
