/** The strike ladder of the mock option chain `get_option_chain`. */
module OptionChain {
  import opened Wrappers
  import opened Numeric

  /** One row of the chain; bid, ask and volume figures are not modelled. */
  datatype StrikeRow = StrikeRow(strike: int, iv: real, isAtTheMoney: bool)

  /** `abs(strike - current_price) / current_price` divides by zero when the price is 0. */
  datatype ChainError = ZeroCurrentPrice

  /** The lowest positive rung of the ladder `base - 50, base - 45, ..., base + 50`. */
  function LowestStrike(base: int): int
  {
    if base - 50 > 0 then base - 50 else 5
  }

  /** Number of positive rungs of the ladder around `base`. */
  function LadderLength(base: int): nat
  {
    if base + 50 > 0 then (base + 50 - LowestStrike(base)) / 5 + 1 else 0
  }

  /** A positive rung of the ladder around `base`. */
  predicate OnLadder(base: int, strike: int)
  {
    strike > 0 && strike % 5 == 0 && base - 50 <= strike <= base + 50
  }

  /** The "IV smile": 0.25 at the money, rising by 0.1 per unit of distance relative to the price. */
  function SmileIv(strike: int, currentPrice: real): (iv: real)
    requires currentPrice != 0.0
    ensures currentPrice > 0.0 ==> iv >= 0.25 && (iv == 0.25 <==> strike as real == currentPrice)
    ensures (iv - 0.25) * currentPrice == Abs(strike as real - currentPrice) * 0.1
  {
    0.25 + Abs(strike as real - currentPrice) / currentPrice * 0.1
  }

  /** The row for one strike: its smile IV and whether it lies within 2.5 of the price. */
  function ChainRow(strike: int, currentPrice: real): (row: StrikeRow)
    requires currentPrice != 0.0
    ensures row.strike == strike && row.iv == SmileIv(strike, currentPrice)
    ensures strike % 5 == 0 && row.isAtTheMoney ==> strike == NearestFive(currentPrice)
  {
    var atTheMoney := Abs(strike as real - currentPrice) < 2.5;
    if strike % 5 == 0 && atTheMoney then
      FiveApart(strike, NearestFive(currentPrice));
      StrikeRow(strike, SmileIv(strike, currentPrice), atTheMoney)
    else
      StrikeRow(strike, SmileIv(strike, currentPrice), atTheMoney)
  }

  /** Two multiples of 5 less than 5 apart are equal. */
  lemma FiveApart(a: int, b: int)
    requires a % 5 == 0 && b % 5 == 0 && -5 < a - b < 5
    ensures a == b
  {
    var m := a / 5;
    var n := b / 5;
    assert a == 5 * m && b == 5 * n;
  }

  /** Closed form of the ladder: the positive rungs in ascending order, each a `ChainRow`. */
  function Ladder(currentPrice: real): seq<StrikeRow>
    requires currentPrice != 0.0
  {
    var base := NearestFive(currentPrice);
    seq(LadderLength(base), k requires 0 <= k < LadderLength(base) => ChainRow(LowestStrike(base) + 5 * k, currentPrice))
  }

  /** The first positive strike the loop meets is the lowest positive rung. */
  lemma FirstRung(q: int, i: int)
    requires -10 <= i <= 10 && 5 * q + 5 * i > 0
    ensures i == -10 || 5 * q + 5 * (i - 1) <= 0 ==> 5 * q + 5 * i == LowestStrike(5 * q)
  {
  }

  /**
   * The loop of lines 254-277: strikes `round(price / 5) * 5 + 5 * i` for `i` from -10 to 10, keeping the
   * positive ones. A zero price fails at the first positive strike.
   */
  method ChainStrikes(currentPrice: real) returns (r: Result<seq<StrikeRow>, ChainError>)
    ensures r.Failure? <==> currentPrice == 0.0
    ensures r.Success? ==> currentPrice != 0.0 && r.value == Ladder(currentPrice)
  {
    if currentPrice == 0.0 {
      return Failure(ZeroCurrentPrice);
    }
    var strikes: seq<StrikeRow> := [];
    var q := RoundHalfEven(currentPrice / 5.0);
    var baseStrike := q * 5;
    ghost var lowest := LowestStrike(baseStrike);
    for i := -10 to 11
      invariant forall k :: 0 <= k < |strikes| ==> strikes[k] == ChainRow(lowest + 5 * k, currentPrice)
      invariant strikes != [] ==> lowest + 5 * (|strikes| - 1) == baseStrike + 5 * (i - 1)
      invariant strikes == [] ==> i == -10 || baseStrike + 5 * (i - 1) <= 0
    {
      var strike := baseStrike + i * 5;
      if strike > 0 {
        FirstRung(q, i);
        strikes := strikes + [ChainRow(strike, currentPrice)];
      }
    }
    assert |strikes| == LadderLength(baseStrike);
    r := Success(strikes);
  }

  /** The ladder ascends in steps of 5 from its lowest positive rung to the base plus 50, so it has at most 21 rows. */
  lemma LadderShape(currentPrice: real)
    requires currentPrice != 0.0
    ensures var rows := Ladder(currentPrice); var base := NearestFive(currentPrice);
      && |rows| <= 21
      && (rows != [] <==> base + 50 > 0)
      && (rows != [] ==> rows[0].strike == LowestStrike(base) && rows[|rows| - 1].strike == base + 50)
      && (forall k :: 0 < k < |rows| ==> rows[k].strike == rows[k - 1].strike + 5)
  {
    LadderLengthFacts(NearestFive(currentPrice));
  }

  /** The length arithmetic of the ladder around a multiple of 5. */
  lemma LadderLengthFacts(base: int)
    requires base % 5 == 0
    ensures LadderLength(base) <= 21
    ensures LadderLength(base) > 0 <==> base + 50 > 0
    ensures LadderLength(base) > 0 ==> LowestStrike(base) + 5 * (LadderLength(base) - 1) == base + 50
  {
    var m := base / 5;
    assert base == 5 * m;
    if base + 50 > 0 {
      assert base + 50 - LowestStrike(base) == 5 * (if m - 10 > 0 then 20 else m + 9);
    }
  }

  /** Rung `k` of the ladder around a multiple of 5 is on the ladder, and every rung has such an index. */
  lemma RungIndex(base: int, k: int, s: int)
    requires base % 5 == 0
    ensures 0 <= k < LadderLength(base) ==> OnLadder(base, LowestStrike(base) + 5 * k)
    ensures OnLadder(base, s) ==>
      var j := (s - LowestStrike(base)) / 5;
      0 <= j < LadderLength(base) && LowestStrike(base) + 5 * j == s
  {
    var m := base / 5;
    assert base == 5 * m;
    if OnLadder(base, s) {
      var n := s / 5;
      assert s == 5 * n;
      assert s - LowestStrike(base) == 5 * (n - (if m - 10 > 0 then m - 10 else 1));
    }
  }

  /** The ladder holds exactly the positive multiples of 5 within 50 of the base. */
  lemma LadderRungs(currentPrice: real)
    requires currentPrice != 0.0
    ensures var rows := Ladder(currentPrice); var base := NearestFive(currentPrice);
      && (forall k :: 0 <= k < |rows| ==> OnLadder(base, rows[k].strike))
      && (forall s :: OnLadder(base, s) ==> exists k :: 0 <= k < |rows| && rows[k].strike == s)
  {
    var rows := Ladder(currentPrice);
    var base := NearestFive(currentPrice);
    forall k | 0 <= k < |rows| ensures OnLadder(base, rows[k].strike) {
      RungIndex(base, k, 0);
    }
    forall s | OnLadder(base, s) ensures exists k :: 0 <= k < |rows| && rows[k].strike == s {
      RungIndex(base, 0, s);
      var k := (s - LowestStrike(base)) / 5;
      assert rows[k].strike == s;
    }
  }

  /** Rungs lie 5 apart, so at most one lies within 2.5 of the price, and that one is the base strike. */
  lemma LadderAtTheMoney(currentPrice: real)
    requires currentPrice != 0.0
    ensures var rows := Ladder(currentPrice);
      forall j, k :: 0 <= j < |rows| && 0 <= k < |rows| && rows[j].isAtTheMoney && rows[k].isAtTheMoney ==> j == k
    ensures var rows := Ladder(currentPrice);
      forall k :: 0 <= k < |rows| && rows[k].isAtTheMoney ==> rows[k].strike == NearestFive(currentPrice)
  {
    var rows := Ladder(currentPrice);
    forall k | 0 <= k < |rows| && rows[k].isAtTheMoney ensures rows[k].strike == NearestFive(currentPrice) {
      RungIndex(NearestFive(currentPrice), k, 0);
    }
  }

  /** For a positive price every row's IV is at least the 0.25 base. */
  lemma LadderIv(currentPrice: real)
    requires currentPrice > 0.0
    ensures var rows := Ladder(currentPrice);
      forall k :: 0 <= k < |rows| ==> rows[k].iv >= 0.25 && (rows[k].iv == 0.25 <==> rows[k].strike as real == currentPrice)
  {
    var rows := Ladder(currentPrice);
    forall k | 0 <= k < |rows| ensures rows[k].iv >= 0.25 && (rows[k].iv == 0.25 <==> rows[k].strike as real == currentPrice) {
      var d := Abs(rows[k].strike as real - currentPrice);
      assert d / currentPrice >= 0.0;
      assert d > 0.0 ==> d / currentPrice > 0.0;
    }
  }
}
