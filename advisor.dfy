/** The adjustment recommendation cascade of `analyze_adjustment_scenarios`. */
module Advisor {
  import opened PayoffEngine
  import opened Numeric

  /** The recommendation's `type` field. */
  datatype RecommendationKind = CloseKind | RollKind | AdjustKind | TakeProfitKind | PartialCloseKind | InfoKind

  /** The recommendation's `urgency` field. */
  datatype Urgency = High | Medium | Low

  /** One recommendation, carrying the numbers its text is built from. */
  datatype Recommendation =
    | Close(lossPercent: real)
    | RollAdvice(lossPercent: real)
    | RollUpCallSpread(lowStrike: int, highStrike: int)
    | RollDownPutSpread(lowStrike: int, highStrike: int)
    | AdjustIronCondor
    | TakeProfit(profitPercent: real)
    | PartialClose(profitPercent: real)
    | TimeDecayInfo
  {
    function Kind(): RecommendationKind
    {
      match this
      case Close(_) => CloseKind
      case RollAdvice(_) => RollKind
      case RollUpCallSpread(_, _) => AdjustKind
      case RollDownPutSpread(_, _) => AdjustKind
      case AdjustIronCondor => AdjustKind
      case TakeProfit(_) => TakeProfitKind
      case PartialClose(_) => PartialCloseKind
      case TimeDecayInfo => InfoKind
    }

    function UrgencyOf(): Urgency
    {
      match this
      case Close(_) => High
      case RollAdvice(_) => Medium
      case RollUpCallSpread(_, _) => Medium
      case RollDownPutSpread(_, _) => Medium
      case AdjustIronCondor => Medium
      case TakeProfit(_) => Low
      case PartialClose(_) => Low
      case TimeDecayInfo => Low
    }

    /** Position in the cascade: loss side, structure hints, profit side, trailing note. */
    function Phase(): nat
    {
      match this
      case Close(_) => 0
      case RollAdvice(_) => 0
      case RollUpCallSpread(_, _) => 1
      case RollDownPutSpread(_, _) => 1
      case AdjustIronCondor => 1
      case TakeProfit(_) => 2
      case PartialClose(_) => 2
      case TimeDecayInfo => 3
    }
  }

  /** `abs(current_pnl) / (abs(max_loss) if max_loss != 0 else 1) * 100`. */
  function LossPercent(currentPnl: real, maxLoss: real): (pct: real)
    ensures pct >= 0.0
    ensures pct == 0.0 <==> currentPnl == 0.0
    ensures maxLoss != 0.0 ==> pct * Abs(maxLoss) == Abs(currentPnl) * 100.0
    ensures maxLoss == 0.0 ==> pct == Abs(currentPnl) * 100.0
  {
    var denominator := if maxLoss != 0.0 then Abs(maxLoss) else 1.0;
    var ratio := Abs(currentPnl) / denominator;
    assert ratio * denominator == Abs(currentPnl);
    ratio * 100.0
  }

  /** `current_pnl / max_profit * 100 if max_profit > 0 else 0`. */
  function ProfitPercent(currentPnl: real, maxProfit: real): (pct: real)
    ensures maxProfit > 0.0 ==> pct * maxProfit == currentPnl * 100.0
    ensures maxProfit <= 0.0 ==> pct == 0.0
    ensures maxProfit > 0.0 ==> (pct > 0.0 <==> currentPnl > 0.0)
  {
    if maxProfit > 0.0 then currentPnl / maxProfit * 100.0 else 0.0
  }

  /** The call legs, `[o for o in options if o.type == "call"]`. */
  function Calls(legs: seq<Leg>): (r: seq<Leg>)
    ensures |r| <= |legs|
    ensures forall l :: l in r <==> l in legs && l.kind == Call
  {
    if |legs| == 0 then []
    else if legs[0].kind == Call then [legs[0]] + Calls(legs[1..])
    else Calls(legs[1..])
  }

  /** The put legs, `[o for o in options if o.type == "put"]`. */
  function Puts(legs: seq<Leg>): (r: seq<Leg>)
    ensures |r| <= |legs|
    ensures forall l :: l in r <==> l in legs && l.kind == Put
  {
    if |legs| == 0 then []
    else if legs[0].kind == Put then [legs[0]] + Puts(legs[1..])
    else Puts(legs[1..])
  }

  /**
   * The filters keep every copy of a matching leg and drop every other leg, so `len(calls)` and `len(puts)`
   * count the call and put legs with multiplicity.
   */
  lemma {:induction false} PartitionCounts(legs: seq<Leg>)
    ensures forall l :: multiset(Calls(legs))[l] == if l.kind == Call then multiset(legs)[l] else 0
    ensures forall l :: multiset(Puts(legs))[l] == if l.kind == Put then multiset(legs)[l] else 0
  {
    if |legs| > 0 {
      assert legs == [legs[0]] + legs[1..];
      PartitionCounts(legs[1..]);
    }
  }

  /** `max(o.strike for o in legs)`. */
  function MaxStrike(legs: seq<Leg>): (m: real)
    requires |legs| > 0
    ensures exists i :: 0 <= i < |legs| && legs[i].strike == m
    ensures forall i :: 0 <= i < |legs| ==> legs[i].strike <= m
  {
    if |legs| == 1 then legs[0].strike
    else
      var rest := MaxStrike(legs[1..]);
      if legs[0].strike >= rest then legs[0].strike else rest
  }

  /** `min(o.strike for o in legs)`. */
  function MinStrike(legs: seq<Leg>): (m: real)
    requires |legs| > 0
    ensures exists i :: 0 <= i < |legs| && legs[i].strike == m
    ensures forall i :: 0 <= i < |legs| ==> m <= legs[i].strike
  {
    if |legs| == 1 then legs[0].strike
    else
      var rest := MinStrike(legs[1..]);
      if legs[0].strike <= rest then legs[0].strike else rest
  }

  /** The leg shape that triggers the call-spread hint: the price is above both calls. */
  predicate CallSpreadTested(currentPrice: real, legs: seq<Leg>)
  {
    |Calls(legs)| == 2 && |Puts(legs)| == 0 && currentPrice > MaxStrike(Calls(legs))
  }

  /** The leg shape that triggers the put-spread hint: the price is below both puts. */
  predicate PutSpreadTested(currentPrice: real, legs: seq<Leg>)
  {
    |Calls(legs)| == 0 && |Puts(legs)| == 2 && currentPrice < MinStrike(Puts(legs))
  }

  predicate IronCondorShape(legs: seq<Leg>)
  {
    |Calls(legs)| == 2 && |Puts(legs)| == 2
  }

  /** The only recommendations the cascade can produce for these inputs. */
  function Candidates(currentPrice: real, currentPnl: real, maxProfit: real, maxLoss: real): set<Recommendation>
  {
    {Close(LossPercent(currentPnl, maxLoss)), RollAdvice(LossPercent(currentPnl, maxLoss)),
     RollUpCallSpread(Trunc(currentPrice), Trunc(currentPrice) + 5),
     RollDownPutSpread(Trunc(currentPrice) - 5, Trunc(currentPrice)),
     AdjustIronCondor,
     TakeProfit(ProfitPercent(currentPnl, maxProfit)), PartialClose(ProfitPercent(currentPnl, maxProfit)),
     TimeDecayInfo}
  }

  /** Phases strictly increase along the list: at most one item per section, sections in cascade order. */
  predicate InCascadeOrder(recs: seq<Recommendation>)
  {
    forall i, j :: 0 <= i < j < |recs| ==> recs[i].Phase() < recs[j].Phase()
  }

  predicate Contains(recs: seq<Recommendation>, r: Recommendation)
  {
    exists i :: 0 <= i < |recs| && recs[i] == r
  }

  /** The loss-side item of the cascade: close above 50% of the maximum loss, roll above 25%. */
  function LossSide(currentPnl: real, maxLoss: real): (recs: seq<Recommendation>)
    ensures |recs| <= 1
    ensures forall i :: 0 <= i < |recs| ==> recs[i].Phase() == 0
    ensures recs != [] ==> recs[0] in {Close(LossPercent(currentPnl, maxLoss)), RollAdvice(LossPercent(currentPnl, maxLoss))}
    ensures recs != [] && recs[0] == Close(LossPercent(currentPnl, maxLoss)) <==> LossPercent(currentPnl, maxLoss) > 50.0
    ensures recs != [] && recs[0] == RollAdvice(LossPercent(currentPnl, maxLoss))
        <==> 25.0 < LossPercent(currentPnl, maxLoss) <= 50.0
  {
    var lossPercent := LossPercent(currentPnl, maxLoss);
    if lossPercent > 50.0 then [Close(lossPercent)]
    else if lossPercent > 25.0 then [RollAdvice(lossPercent)]
    else []
  }

  /** A hint when the legs form a tested call spread; empty otherwise. */
  function CallSpreadHint(currentPrice: real, legs: seq<Leg>): seq<Recommendation>
  {
    if CallSpreadTested(currentPrice, legs) then [RollUpCallSpread(Trunc(currentPrice), Trunc(currentPrice) + 5)] else []
  }

  /** A hint when the legs form a tested put spread; empty otherwise. */
  function PutSpreadHint(currentPrice: real, legs: seq<Leg>): seq<Recommendation>
  {
    if PutSpreadTested(currentPrice, legs) then [RollDownPutSpread(Trunc(currentPrice) - 5, Trunc(currentPrice))] else []
  }

  /** A hint when the legs form an iron condor; empty otherwise. */
  function IronCondorHint(legs: seq<Leg>): seq<Recommendation>
  {
    if IronCondorShape(legs) then [AdjustIronCondor] else []
  }

  /** The structure hints of a losing position; the three leg shapes are disjoint, so at most one fires. */
  function StructureHints(currentPrice: real, legs: seq<Leg>): (recs: seq<Recommendation>)
    ensures |recs| <= 1
    ensures forall i :: 0 <= i < |recs| ==> recs[i].Phase() == 1
    ensures recs != [] ==> recs[0] in {RollUpCallSpread(Trunc(currentPrice), Trunc(currentPrice) + 5),
                                       RollDownPutSpread(Trunc(currentPrice) - 5, Trunc(currentPrice)),
                                       AdjustIronCondor}
    ensures recs != [] && recs[0] == RollUpCallSpread(Trunc(currentPrice), Trunc(currentPrice) + 5)
        <==> CallSpreadTested(currentPrice, legs)
    ensures recs != [] && recs[0] == RollDownPutSpread(Trunc(currentPrice) - 5, Trunc(currentPrice))
        <==> PutSpreadTested(currentPrice, legs)
    ensures recs != [] && recs[0] == AdjustIronCondor <==> IronCondorShape(legs)
  {
    CallSpreadHint(currentPrice, legs) + PutSpreadHint(currentPrice, legs) + IronCondorHint(legs)
  }

  /** The profit-side item of the cascade: take profit above 75% of the maximum profit, close half above 50%. */
  function ProfitSide(currentPnl: real, maxProfit: real): (recs: seq<Recommendation>)
    ensures |recs| <= 1
    ensures forall i :: 0 <= i < |recs| ==> recs[i].Phase() == 2
    ensures recs != [] ==> recs[0] in {TakeProfit(ProfitPercent(currentPnl, maxProfit)), PartialClose(ProfitPercent(currentPnl, maxProfit))}
    ensures recs != [] && recs[0] == TakeProfit(ProfitPercent(currentPnl, maxProfit))
        <==> ProfitPercent(currentPnl, maxProfit) > 75.0
    ensures recs != [] && recs[0] == PartialClose(ProfitPercent(currentPnl, maxProfit))
        <==> 50.0 < ProfitPercent(currentPnl, maxProfit) <= 75.0
  {
    var profitPercent := ProfitPercent(currentPnl, maxProfit);
    if profitPercent > 75.0 then [TakeProfit(profitPercent)]
    else if profitPercent > 50.0 then [PartialClose(profitPercent)]
    else []
  }

  /** The whole cascade: loss side and hints when losing, profit side when winning, then the time-decay note. */
  function Recommendations(currentPrice: real, legs: seq<Leg>, currentPnl: real, maxProfit: real, maxLoss: real)
    : seq<Recommendation>
  {
    (if currentPnl < 0.0 then LossSide(currentPnl, maxLoss) + StructureHints(currentPrice, legs) else [])
    + (if currentPnl > 0.0 then ProfitSide(currentPnl, maxProfit) else [])
    + [TimeDecayInfo]
  }

  /** The recommendation engine of `analyze_adjustment_scenarios`, appending to the list through the cascade. */
  method Recommend(currentPrice: real, legs: seq<Leg>, currentPnl: real, maxProfit: real, maxLoss: real)
    returns (recs: seq<Recommendation>)
    ensures recs == Recommendations(currentPrice, legs, currentPnl, maxProfit, maxLoss)
  {
    recs := [];
    if currentPnl < 0.0 {
      var lossPercent := LossPercent(currentPnl, maxLoss);
      if lossPercent > 50.0 {
        recs := recs + [Close(lossPercent)];
      } else if lossPercent > 25.0 {
        recs := recs + [RollAdvice(lossPercent)];
      }
      assert recs == LossSide(currentPnl, maxLoss);
      ghost var lossPart := recs;
      var calls := Calls(legs);
      var puts := Puts(legs);
      if |calls| == 2 && |puts| == 0 {
        if currentPrice > MaxStrike(calls) {
          recs := recs + [RollUpCallSpread(Trunc(currentPrice), Trunc(currentPrice) + 5)];
        }
      }
      assert recs == lossPart + CallSpreadHint(currentPrice, legs);
      ghost var callPart := recs;
      if |puts| == 2 && |calls| == 0 {
        if currentPrice < MinStrike(puts) {
          recs := recs + [RollDownPutSpread(Trunc(currentPrice) - 5, Trunc(currentPrice))];
        }
      }
      assert recs == callPart + PutSpreadHint(currentPrice, legs);
      ghost var putPart := recs;
      if |calls| == 2 && |puts| == 2 {
        recs := recs + [AdjustIronCondor];
      }
      assert recs == putPart + IronCondorHint(legs);
      HintsAppend(lossPart, currentPrice, legs);
      assert recs == LossSide(currentPnl, maxLoss) + StructureHints(currentPrice, legs);
    }
    if currentPnl > 0.0 {
      var profitPercent := ProfitPercent(currentPnl, maxProfit);
      if profitPercent > 75.0 {
        recs := recs + [TakeProfit(profitPercent)];
      } else if profitPercent > 50.0 {
        recs := recs + [PartialClose(profitPercent)];
      }
      assert recs == ProfitSide(currentPnl, maxProfit);
    }
    recs := recs + [TimeDecayInfo];
  }

  /** Appending the three hint sections one after another appends `StructureHints`. */
  lemma HintsAppend(front: seq<Recommendation>, currentPrice: real, legs: seq<Leg>)
    ensures front + CallSpreadHint(currentPrice, legs) + PutSpreadHint(currentPrice, legs) + IronCondorHint(legs)
         == front + StructureHints(currentPrice, legs)
  {
  }

  lemma ContainsConcat(a: seq<Recommendation>, b: seq<Recommendation>, r: Recommendation)
    ensures Contains(a + b, r) <==> Contains(a, r) || Contains(b, r)
  {
    if Contains(a + b, r) {
      var i :| 0 <= i < |a + b| && (a + b)[i] == r;
      if i >= |a| {
        assert b[i - |a|] == r;
      }
    }
    if Contains(a, r) {
      var i :| 0 <= i < |a| && a[i] == r;
      assert (a + b)[i] == r;
    }
    if Contains(b, r) {
      var i :| 0 <= i < |b| && b[i] == r;
      assert (a + b)[|a| + i] == r;
    }
  }

  lemma ContainsShort(s: seq<Recommendation>, r: Recommendation)
    requires |s| <= 1
    ensures Contains(s, r) <==> s != [] && s[0] == r
  {
    if s != [] && s[0] == r {
      assert s[0] == r;
    }
  }

  /** Membership in the cascade, section by section. */
  lemma ContainsRecommendations(currentPrice: real, legs: seq<Leg>, currentPnl: real, maxProfit: real, maxLoss: real,
                                r: Recommendation)
    ensures var loss := LossSide(currentPnl, maxLoss);
            var hints := StructureHints(currentPrice, legs);
            var profit := ProfitSide(currentPnl, maxProfit);
            Contains(Recommendations(currentPrice, legs, currentPnl, maxProfit, maxLoss), r) <==>
              || (currentPnl < 0.0 && loss != [] && loss[0] == r)
              || (currentPnl < 0.0 && hints != [] && hints[0] == r)
              || (currentPnl > 0.0 && profit != [] && profit[0] == r)
              || r == TimeDecayInfo
  {
    var loss := LossSide(currentPnl, maxLoss);
    var hints := StructureHints(currentPrice, legs);
    var profit := ProfitSide(currentPnl, maxProfit);
    var losing: seq<Recommendation> := if currentPnl < 0.0 then loss + hints else [];
    var winning: seq<Recommendation> := if currentPnl > 0.0 then profit else [];
    assert Recommendations(currentPrice, legs, currentPnl, maxProfit, maxLoss) == losing + winning + [TimeDecayInfo];
    ContainsConcat(losing + winning, [TimeDecayInfo], r);
    ContainsConcat(losing, winning, r);
    ContainsConcat(loss, hints, r);
    ContainsShort(loss, r);
    ContainsShort(hints, r);
    ContainsShort(profit, r);
    ContainsShort([TimeDecayInfo], r);
    assert !Contains([], r);
  }

  /** The list has one to three items and ends with the single time-decay note. */
  lemma RecommendationsShape(currentPrice: real, legs: seq<Leg>, currentPnl: real, maxProfit: real, maxLoss: real)
    ensures var recs := Recommendations(currentPrice, legs, currentPnl, maxProfit, maxLoss);
            && 1 <= |recs| <= 3
            && recs[|recs| - 1] == TimeDecayInfo
            && (forall i :: 0 <= i < |recs| - 1 ==> recs[i] != TimeDecayInfo)
  {
    var recs := Recommendations(currentPrice, legs, currentPnl, maxProfit, maxLoss);
    RecommendationsOrder(currentPrice, legs, currentPnl, maxProfit, maxLoss);
    forall i | 0 <= i < |recs| - 1 ensures recs[i] != TimeDecayInfo {
      assert recs[i].Phase() < recs[|recs| - 1].Phase();
    }
  }

  /** Items appear in cascade order: loss side, hints, profit side, note. */
  lemma RecommendationsOrder(currentPrice: real, legs: seq<Leg>, currentPnl: real, maxProfit: real, maxLoss: real)
    ensures var recs := Recommendations(currentPrice, legs, currentPnl, maxProfit, maxLoss);
            && 1 <= |recs| <= 3
            && recs[|recs| - 1] == TimeDecayInfo
            && InCascadeOrder(recs)
  {
    var loss := if currentPnl < 0.0 then LossSide(currentPnl, maxLoss) else [];
    var hints := if currentPnl < 0.0 then StructureHints(currentPrice, legs) else [];
    var profit := if currentPnl > 0.0 then ProfitSide(currentPnl, maxProfit) else [];
    assert Recommendations(currentPrice, legs, currentPnl, maxProfit, maxLoss) == loss + hints + profit + [TimeDecayInfo];
    OrderedSections(loss, hints, profit);
  }

  /** Three sections of at most one item each, in phases 0, 1 and 2, with no profit item beside a loss-side one. */
  lemma OrderedSections(loss: seq<Recommendation>, hints: seq<Recommendation>, profit: seq<Recommendation>)
    requires |loss| <= 1 && |hints| <= 1 && |profit| <= 1
    requires forall i :: 0 <= i < |loss| ==> loss[i].Phase() == 0
    requires forall i :: 0 <= i < |hints| ==> hints[i].Phase() == 1
    requires forall i :: 0 <= i < |profit| ==> profit[i].Phase() == 2
    requires |loss| == 0 || |profit| == 0
    requires |hints| == 0 || |profit| == 0
    ensures var recs := loss + hints + profit + [TimeDecayInfo];
            && 1 <= |recs| <= 3
            && recs[|recs| - 1] == TimeDecayInfo
            && InCascadeOrder(recs)
  {
  }

  /** Every item is one of the candidates, so the percentages carried are the ones computed from the inputs. */
  lemma RecommendationsCandidates(currentPrice: real, legs: seq<Leg>, currentPnl: real, maxProfit: real, maxLoss: real)
    ensures var recs := Recommendations(currentPrice, legs, currentPnl, maxProfit, maxLoss);
            forall i :: 0 <= i < |recs| ==> recs[i] in Candidates(currentPrice, currentPnl, maxProfit, maxLoss)
  {
    var recs := Recommendations(currentPrice, legs, currentPnl, maxProfit, maxLoss);
    var candidates := Candidates(currentPrice, currentPnl, maxProfit, maxLoss);
    var front: seq<Recommendation>;
    if currentPnl < 0.0 {
      front := LossSide(currentPnl, maxLoss) + StructureHints(currentPrice, legs);
    } else if currentPnl > 0.0 {
      front := ProfitSide(currentPnl, maxProfit);
    } else {
      front := [];
    }
    assert forall i :: 0 <= i < |front| ==> front[i] in candidates;
    assert recs == front + [TimeDecayInfo];
  }

  /** Close and roll exclude each other and occur only when the position is losing. */
  lemma RecommendationsLossSide(currentPrice: real, legs: seq<Leg>, currentPnl: real, maxProfit: real, maxLoss: real)
    ensures var recs := Recommendations(currentPrice, legs, currentPnl, maxProfit, maxLoss);
            var lossPercent := LossPercent(currentPnl, maxLoss);
            && (Contains(recs, Close(lossPercent)) <==> currentPnl < 0.0 && lossPercent > 50.0)
            && (Contains(recs, RollAdvice(lossPercent)) <==> currentPnl < 0.0 && 25.0 < lossPercent <= 50.0)
  {
    var lossPercent := LossPercent(currentPnl, maxLoss);
    ContainsRecommendations(currentPrice, legs, currentPnl, maxProfit, maxLoss, Close(lossPercent));
    ContainsRecommendations(currentPrice, legs, currentPnl, maxProfit, maxLoss, RollAdvice(lossPercent));
  }

  /** Each structure hint fires exactly when the position is losing and its leg shape matches. */
  lemma RecommendationsHints(currentPrice: real, legs: seq<Leg>, currentPnl: real, maxProfit: real, maxLoss: real)
    ensures var recs := Recommendations(currentPrice, legs, currentPnl, maxProfit, maxLoss);
            && (Contains(recs, RollUpCallSpread(Trunc(currentPrice), Trunc(currentPrice) + 5))
                <==> currentPnl < 0.0 && CallSpreadTested(currentPrice, legs))
            && (Contains(recs, RollDownPutSpread(Trunc(currentPrice) - 5, Trunc(currentPrice)))
                <==> currentPnl < 0.0 && PutSpreadTested(currentPrice, legs))
            && (Contains(recs, AdjustIronCondor) <==> currentPnl < 0.0 && IronCondorShape(legs))
  {
    ContainsRecommendations(currentPrice, legs, currentPnl, maxProfit, maxLoss,
      RollUpCallSpread(Trunc(currentPrice), Trunc(currentPrice) + 5));
    ContainsRecommendations(currentPrice, legs, currentPnl, maxProfit, maxLoss,
      RollDownPutSpread(Trunc(currentPrice) - 5, Trunc(currentPrice)));
    ContainsRecommendations(currentPrice, legs, currentPnl, maxProfit, maxLoss, AdjustIronCondor);
  }

  /** Take-profit and partial-close exclude each other and occur only when the position is winning. */
  lemma RecommendationsProfitSide(currentPrice: real, legs: seq<Leg>, currentPnl: real, maxProfit: real, maxLoss: real)
    ensures var recs := Recommendations(currentPrice, legs, currentPnl, maxProfit, maxLoss);
            var profitPercent := ProfitPercent(currentPnl, maxProfit);
            && (Contains(recs, TakeProfit(profitPercent)) <==> currentPnl > 0.0 && profitPercent > 75.0)
            && (Contains(recs, PartialClose(profitPercent)) <==> currentPnl > 0.0 && 50.0 < profitPercent <= 75.0)
  {
    var profitPercent := ProfitPercent(currentPnl, maxProfit);
    ContainsRecommendations(currentPrice, legs, currentPnl, maxProfit, maxLoss, TakeProfit(profitPercent));
    ContainsRecommendations(currentPrice, legs, currentPnl, maxProfit, maxLoss, PartialClose(profitPercent));
  }

  /** A flat position gets only the time-decay note. */
  lemma RecommendationsFlat(currentPrice: real, legs: seq<Leg>, maxProfit: real, maxLoss: real)
    ensures Recommendations(currentPrice, legs, 0.0, maxProfit, maxLoss) == [TimeDecayInfo]
  {
  }

  /** Urgency follows the type: only a close is high, rolls and adjustments are medium, the rest low. */
  lemma KindUrgency(r: Recommendation)
    ensures r.UrgencyOf() == High <==> r.Kind() == CloseKind
    ensures r.UrgencyOf() == Medium <==> r.Kind() == RollKind || r.Kind() == AdjustKind
    ensures r.UrgencyOf() == Low <==> r.Kind() in {TakeProfitKind, PartialCloseKind, InfoKind}
  {
  }

  /** The list ends with a low-urgency info item, and carries a high-urgency item iff a close is advised. */
  lemma RecommendationsUrgency(currentPrice: real, legs: seq<Leg>, currentPnl: real, maxProfit: real, maxLoss: real)
    ensures var recs := Recommendations(currentPrice, legs, currentPnl, maxProfit, maxLoss);
            && recs != []
            && recs[|recs| - 1].Kind() == InfoKind && recs[|recs| - 1].UrgencyOf() == Low
            && ((exists i :: 0 <= i < |recs| && recs[i].UrgencyOf() == High)
                <==> currentPnl < 0.0 && LossPercent(currentPnl, maxLoss) > 50.0)
  {
    var recs := Recommendations(currentPrice, legs, currentPnl, maxProfit, maxLoss);
    RecommendationsShape(currentPrice, legs, currentPnl, maxProfit, maxLoss);
    HighUrgencyMeansClose(currentPrice, legs, currentPnl, maxProfit, maxLoss);
    CloseHasHighUrgency(currentPrice, legs, currentPnl, maxProfit, maxLoss);
  }

  lemma HighUrgencyMeansClose(currentPrice: real, legs: seq<Leg>, currentPnl: real, maxProfit: real, maxLoss: real)
    ensures var recs := Recommendations(currentPrice, legs, currentPnl, maxProfit, maxLoss);
            (exists i :: 0 <= i < |recs| && recs[i].UrgencyOf() == High) ==>
              currentPnl < 0.0 && LossPercent(currentPnl, maxLoss) > 50.0
  {
    var recs := Recommendations(currentPrice, legs, currentPnl, maxProfit, maxLoss);
    var candidates := Candidates(currentPrice, currentPnl, maxProfit, maxLoss);
    RecommendationsCandidates(currentPrice, legs, currentPnl, maxProfit, maxLoss);
    HighCandidate(currentPrice, currentPnl, maxProfit, maxLoss);
    HighItems(recs, candidates, Close(LossPercent(currentPnl, maxLoss)));
    RecommendationsLossSide(currentPrice, legs, currentPnl, maxProfit, maxLoss);
  }

  /** The only high-urgency candidate is the close. */
  lemma HighCandidate(currentPrice: real, currentPnl: real, maxProfit: real, maxLoss: real)
    ensures forall r :: r in Candidates(currentPrice, currentPnl, maxProfit, maxLoss) && r.UrgencyOf() == High ==>
              r == Close(LossPercent(currentPnl, maxLoss))
  {
  }

  /** In a list drawn from candidates whose only high-urgency member is `close`, a high-urgency item is `close`. */
  lemma HighItems(recs: seq<Recommendation>, candidates: set<Recommendation>, close: Recommendation)
    requires forall i :: 0 <= i < |recs| ==> recs[i] in candidates
    requires forall r :: r in candidates && r.UrgencyOf() == High ==> r == close
    ensures (exists i :: 0 <= i < |recs| && recs[i].UrgencyOf() == High) ==> Contains(recs, close)
  {
  }

  lemma CloseHasHighUrgency(currentPrice: real, legs: seq<Leg>, currentPnl: real, maxProfit: real, maxLoss: real)
    ensures var recs := Recommendations(currentPrice, legs, currentPnl, maxProfit, maxLoss);
            currentPnl < 0.0 && LossPercent(currentPnl, maxLoss) > 50.0 ==>
              exists i :: 0 <= i < |recs| && recs[i].UrgencyOf() == High
  {
    var recs := Recommendations(currentPrice, legs, currentPnl, maxProfit, maxLoss);
    if currentPnl < 0.0 && LossPercent(currentPnl, maxLoss) > 50.0 {
      RecommendationsLossSide(currentPrice, legs, currentPnl, maxProfit, maxLoss);
      var i :| 0 <= i < |recs| && recs[i] == Close(LossPercent(currentPnl, maxLoss));
      assert recs[i].UrgencyOf() == High;
    }
  }
}
