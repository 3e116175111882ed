# Options analyzer core — a Dafny model

This project models the computational core of the options-strategy backend (`backend/server.py`):

- **Payoff engine.** `calculate_payoff` gives the expiry P&L of a multi-leg position at a price. It covers calls and puts, bought or sold, for a quantity of contracts of lot size 100.
- **Grid extremes.** `max_profit` and `max_loss` are the largest and smallest payoff over the integer prices `range(int(0.5·S), int(1.5·S))`.
- **What-if scenario.** `price_up` or `price_down` shocks the price by `scenario_value`, falling back to 10%. The endpoint reports the scenario P&L and its change from the current P&L.
- **Adjustment advisor.** The recommendation cascade runs in four steps:
  - a losing position gets close or roll advice from its loss as a percentage of the maximum loss;
  - a losing position then gets structure hints for call spreads, put spreads and iron condors;
  - a winning position gets take-profit or partial-close advice from its profit as a percentage of the maximum profit;
  - every position gets the time-decay note.
- **Roll suggestions.** Each tested leg is moved to the multiple of 5 nearest the price, plus 5 for a call and minus 5 for a put. A call is tested when the price has moved above its strike, a put when it has moved below. The estimated credit or debit is `(new − old)·0.1`.
- **Mock option chain strike ladder.** The ladder has 21 strikes 5 apart around `round(S/5)·5`, and only the positive ones are kept. Each row gets an "IV smile" `0.25 + 0.1·|K−S|/S` and an at-the-money flag `|K−S| < 2.5`.

## How the model is built

- Prices are exact `real`s.
- Python's `round(x)` rounds half to even. `Numeric.RoundHalfEven` writes this out exactly.
- `int(x)` truncates toward zero. `Numeric.Trunc` writes this out.
- A leg's type is `Call`, `Put` or `Unrecognised`:
  - the payoff values every non-"call" leg as a put, as line 363 does;
  - the call/put partitions of lines 410-411 and the roll loop of lines 496-498 test "call" and "put" literally.
- A leg's action is `Buy`, or `Sell` for any other string.
- The loops and the appending cascade become methods: `PayoffEngine.CalculatePayoff`, `Advisor.Recommend`, `Roll.RollSuggestions` and `OptionChain.ChainStrikes`. Each is proved equal to a specification function, and the lemmas state the properties of those functions.
- Exceptions the code raises become `Failure` values:
  - `max()` of an empty grid, when `int(1.5·S) <= int(0.5·S)`;
  - division by a zero current price in the chain loop.

Points of `server.py` worth noting:

- **Advisor thresholds.** The loss and profit thresholds are percentages of the grid's max loss and max profit (lines 392-455): close above 50%, roll above 25%, take profit above 75%, partial close above 50%.
- **Spread hints.** There are hints for both a tested call spread and a tested put spread (lines 413-429).
- **Hint condition.** Structure hints are only given to losing positions (line 391).
- **Time-decay note.** The note has urgency "low" (line 460).
- **Roll strike.** A roll moves to the multiple of 5 nearest the price, plus 5 for a call and minus 5 for a put (lines 496-499).
- **Which legs roll.** Only tested legs roll (lines 496-501).
- **Roll credit.** The credit is `(new − old)·0.1` (line 506).

## Model

| member | source | states |
|---|---|---|
| Numeric.Trunc | backend/server.py:384-385 | `int(x)`: the integer part toward zero, within 1 of x on x's side of zero |
| Numeric.TruncMonotone | backend/server.py:384-385 | truncation is monotone, so the grid bounds keep the order of their arguments |
| Numeric.RoundHalfEven | backend/server.py:255 | `round(x)`: the nearest integer, within 0.5 of x, with ties going to the even neighbour |
| Numeric.RoundHalfEvenUnique | backend/server.py:255 | any integer meeting the rounding conditions is the rounded value |
| Numeric.NearestFive | backend/server.py:497 | `round(x/5)*5` is a multiple of 5 within 2.5 of x |
| PayoffEngine.Intrinsic | backend/server.py:361-364 | intrinsic value is non-negative. For a call it is positive iff the price is above the strike, and then equals price − strike. Any other type is valued as a put, with the mirror condition. |
| PayoffEngine.LegPnlBounds | backend/server.py:366-369 | a leg of zero quantity contributes nothing; for a non-negative quantity a bought leg loses at most premium·qty·100 and a sold leg gains at most premium·qty·100 |
| PayoffEngine.CalculatePayoff | backend/server.py:358-370 | the accumulating loop returns exactly the sum of per-leg (intrinsic − premium)·qty·100 for buys and (premium − intrinsic)·qty·100 otherwise |
| PayoffEngine.PayoffConcat | backend/server.py:358-370 | an empty position is worth 0, and the payoff of concatenated positions is the sum of their payoffs |
| PayoffEngine.FlippedPayoff | backend/server.py:366-369 | exchanging buy and sell on every leg negates the payoff at every price |
| PayoffEngine.PremiumBounds | backend/server.py:358-370 | for non-negative quantities, an all-long position never loses more than the premiums paid, and an all-short position never gains more than the premiums received |
| PayoffEngine.LongCallProfile | backend/server.py:361-367 | one long call breaks even at strike + premium and loses the whole premium·100 at or below the strike |
| PayoffEngine.MaxOnGrid | backend/server.py:384 | max_profit bounds the payoff at every grid price and is attained at one of them |
| PayoffEngine.MinOnGrid | backend/server.py:385 | max_loss is below the payoff at every grid price and is attained at one of them |
| Scenario.ScenarioShift | backend/server.py:377-379 | `scenario_value or 0.1`: never zero; equals the given value when that is present and non-zero, and 0.1 when it is absent or zero |
| Scenario.ScenarioPrice | backend/server.py:375-379 | any scenario type other than "price_up" and "price_down" leaves the price unchanged; those two move every non-zero price |
| Scenario.ScenarioPriceMoves | backend/server.py:375-379 | up and down shocks move the price by the same amount in opposite directions. For a positive price and shift, down < current < up. With an absent or zero value the prices are 1.1·S and 0.9·S. |
| Scenario.GridLow | backend/server.py:384-385 | `int(0.5·S)`: truncation of half the price toward zero |
| Scenario.GridHigh | backend/server.py:384-385 | `int(1.5·S)`: truncation of one and a half times the price toward zero |
| Scenario.PriceGridNonEmpty | backend/server.py:384-385 | the grid is non-empty for every price ≥ 1, and non-empty only for positive prices |
| Scenario.AnalyzeAdjustmentScenarios | backend/server.py:351-474 | fails exactly when the grid is empty. Otherwise: current and scenario P&L are the payoffs at the current and shocked prices, and pnl_change is their difference. Max profit and max loss bound the grid payoffs and are attained. The recommendations are the cascade's. Any other scenario type leaves the price unchanged and gives a zero change. |
| Advisor.LossPercent | backend/server.py:392 | non-negative, zero iff the P&L is zero; times abs(max_loss) it gives abs(P&L)·100, and with a zero max loss it is abs(P&L)·100 |
| Advisor.ProfitPercent | backend/server.py:441 | with a positive max profit, times max profit it gives P&L·100 and is positive iff the P&L is; otherwise 0 |
| Advisor.Calls | backend/server.py:410 | no longer than the legs, and a leg is in it iff it is a leg of type "call" (counts in `Advisor.PartitionCounts`) |
| Advisor.Puts | backend/server.py:411 | no longer than the legs, and a leg is in it iff it is a leg of type "put" (counts in `Advisor.PartitionCounts`) |
| Advisor.PartitionCounts | backend/server.py:410-411 | the call and put lists hold every copy of each call, respectively put, leg and nothing else, so their lengths count those legs with multiplicity |
| Advisor.MaxStrike | backend/server.py:414 | the largest call strike: attained, and an upper bound |
| Advisor.MinStrike | backend/server.py:423 | the smallest put strike: attained, and a lower bound |
| Advisor.LossSide | backend/server.py:391-407 | at most one item. Close iff the loss percentage exceeds 50, roll iff it lies in (25, 50], both carrying that percentage. |
| Advisor.StructureHints | backend/server.py:409-437 | at most one hint:<br>• the roll-up hint with strikes int(S)/int(S)+5 iff there are 2 calls, no puts and the price is above both call strikes;<br>• the roll-down hint with int(S)−5/int(S) iff there are 2 puts, no calls and the price is below both put strikes;<br>• the iron-condor hint iff there are 2 calls and 2 puts. |
| Advisor.ProfitSide | backend/server.py:440-455 | at most one item. Take-profit iff the profit percentage exceeds 75, partial close iff it lies in (50, 75]. |
| Advisor.Recommend | backend/server.py:388-463 | the appending cascade returns exactly the specified recommendation list |
| Advisor.ContainsRecommendations | backend/server.py:388-463 | an item is recommended iff it comes from the loss side or a hint of a losing position, from the profit side of a winning position, or is the time-decay note |
| Advisor.RecommendationsShape | backend/server.py:457-463 | the list has 1 to 3 items, ends with the time-decay note, and has that note nowhere else |
| Advisor.RecommendationsOrder | backend/server.py:388-463 | the items come in cascade order: loss advice, then structure hint, then profit advice, then the note |
| Advisor.RecommendationsCandidates | backend/server.py:388-463 | every item is one of the eight possible recommendations, carrying the percentage and strikes computed from the inputs |
| Advisor.RecommendationsLossSide | backend/server.py:391-407 | close is recommended iff the P&L is negative and the loss exceeds 50% of max loss. Roll is recommended iff the P&L is negative and the loss is in (25%, 50%]. |
| Advisor.RecommendationsHints | backend/server.py:409-437 | each structure hint appears iff the P&L is negative and its leg shape (and price test) matches |
| Advisor.RecommendationsProfitSide | backend/server.py:440-455 | take-profit appears iff the P&L is positive and the profit exceeds 75% of max profit. Partial close appears iff the P&L is positive and the profit is in (50%, 75%]. |
| Advisor.KindUrgency | backend/server.py:396-460 | each item's urgency follows its type: high iff it is a close, medium iff it is a roll or an adjustment hint, low iff it is take-profit, partial close or the info note |
| Advisor.RecommendationsUrgency | backend/server.py:396-460 | the list ends with a low-urgency info note, and holds a high-urgency item iff the P&L is negative and the loss exceeds 50% of max loss |
| Advisor.RecommendationsFlat | backend/server.py:388-463 | a position with zero P&L, such as an empty one, gets only the time-decay note |
| Roll.RollFor | backend/server.py:495-507 | a suggestion appears iff the leg is tested. It keeps the original leg, uses a multiple-of-5 strike and has credit (new − old)·0.1. A call rolls to round(S/5)·5+5, above its strike, for a credit; a put rolls to round(S/5)·5−5, below its strike, for a debit. |
| Roll.Suggestions | backend/server.py:494-507 | no more suggestions than legs, and each one is the roll of one of the legs |
| Roll.RollSuggestions | backend/server.py:490-507 | the appending loop returns exactly the specified suggestion list |
| Roll.SuggestionsConcat | backend/server.py:494-507 | suggestions keep leg order: those of a split position are the first part's followed by the second's |
| Roll.SuggestionCount | backend/server.py:494-507 | exactly one suggestion per tested leg |
| OptionChain.SmileIv | backend/server.py:259-260 | for a positive price the IV is at least 0.25, equal to it iff the strike is the price; (iv − 0.25)·S == 0.1·abs(K − S) |
| OptionChain.ChainRow | backend/server.py:259-276 | the row carries its strike and smile IV, and a multiple-of-5 strike flagged at the money is `round(S/5)·5` |
| OptionChain.ChainStrikes | backend/server.py:254-277 | fails exactly for a zero price. Otherwise the loop's rows are exactly the closed-form ladder: rung k is lowest + 5k, with smile IV and ATM flag. |
| OptionChain.LadderShape | backend/server.py:255-258 | at most 21 rows, ascending in steps of 5 from the lowest positive rung to base + 50, and non-empty iff base + 50 > 0 |
| OptionChain.LadderRungs | backend/server.py:255-258 | the ladder holds exactly the positive multiples of 5 within 50 of the base |
| OptionChain.LadderAtTheMoney | backend/server.py:255-276 | at most one row is flagged at the money, and that row is the base strike `round(S/5)·5` |
| OptionChain.LadderIv | backend/server.py:259-260 | for a positive price every IV is at least 0.25, and equals 0.25 exactly when the strike is the price |

## Left out

- Authentication, the user and strategy collections in MongoDB, watchlists and the FastAPI routing are out of scope. The model starts from the request bodies and stored legs as values.
- Live quotes and the 150.0 fallback price are outside the model. The current price is a parameter of every operation.
- The chain's Black–Scholes-like premiums and bid/ask are not modelled, because they use a floating-point square root `time_to_expiry ** 0.5` (lines 264-265). The volumes `int(10000·(1−distance))` and `int(8000·(1−distance))` (lines 271, 274) and the `round(base_iv, 4)` of the IV (line 275) are float truncation and rounding, which the model does not represent: the model's IV is the exact smile value.
- The `round(·, 2)` applied to the response figures and to the roll credit is not modelled. The model returns the exact values before rounding.
- Floating-point arithmetic is not modelled: prices and P&L are exact reals.
- The text of reasons and action strings is not modelled. Each recommendation is a constructor carrying the numbers the text shows.
- The roll suggestion's `original` and `suggested` description strings are not modelled. They are kept as the leg and the new strike.
- The ticker, expiration and volatility fields of a leg or request are not used by the computation and are not kept.
- Greeks, probability of profit and Monte Carlo estimates are not part of this backend's code and are not part of this model.
- A non-integer `strike` in a stored leg is compared as a real. A non-numeric one, which Python would reject with a type error, cannot be represented.
- A zero `max_profit` with a positive P&L gives a profit percentage of 0, as line 441 does. A zero `max_loss` divides the loss by 1, as line 392 does.
