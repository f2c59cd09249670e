/**
 * The weighted scoring step of the orchestrator (backend/services/ml_pipeline.py,
 * the score list and the two sums): a weighted mean over exactly the four checks,
 * 0.0 when the weights do not add up to something positive.
 */
module Aggregator {
  import opened Config
  import Models

  /** The four checks that feed the confidence, in the order the source lists them. */
  datatype Check = Gps | Shadow | Satellite | Equipment

  datatype CheckScores = CheckScores(gps: real, shadow: real, satellite: real, equipment: real)
  {
    function Get(c: Check): real
    {
      match c
      case Gps => gps
      case Shadow => shadow
      case Satellite => satellite
      case Equipment => equipment
    }

    function With(c: Check, v: real): CheckScores
    {
      match c
      case Gps => this.(gps := v)
      case Shadow => this.(shadow := v)
      case Satellite => this.(satellite := v)
      case Equipment => this.(equipment := v)
    }

    predicate InUnit()
    {
      forall c: Check :: Models.InUnit(Get(c))
    }
  }

  function WeightOf(cfg: Settings, c: Check): real
  {
    match c
    case Gps => cfg.weightGpsMatch
    case Shadow => cfg.weightShadowAnalysis
    case Satellite => cfg.weightSatelliteAnalysis
    case Equipment => cfg.weightEquipmentCheck
  }

  /** One `(score, weight)` pair of the score list. */
  datatype Weighted = Weighted(score: real, weight: real)
  {
    function Product(): real
    {
      score * weight
    }
  }

  /** `sum(score * weight for score, weight in l)`, accumulated left to right. */
  function SumProducts(l: seq<Weighted>): real
  {
    if |l| == 0 then 0.0 else SumProducts(l[..|l| - 1]) + l[|l| - 1].Product()
  }

  /** `sum(weight for _, weight in l)`. */
  function SumWeights(l: seq<Weighted>): real
  {
    if |l| == 0 then 0.0 else SumWeights(l[..|l| - 1]) + l[|l| - 1].weight
  }

  /** `total_score / total_weight if total_weight > 0 else 0.0`. */
  function WeightedMean(l: seq<Weighted>): (m: real)
    ensures SumWeights(l) > 0.0 ==> m * SumWeights(l) == SumProducts(l)
    ensures SumWeights(l) <= 0.0 ==> m == 0.0
  {
    var total := SumWeights(l);
    if total > 0.0 then
      assert SumProducts(l) / total * total == SumProducts(l);
      SumProducts(l) / total
    else 0.0
  }

  /** The score list: the four checks with their configured weights. */
  function ScoreList(s: CheckScores, cfg: Settings): (l: seq<Weighted>)
    ensures |l| == 4
  {
    [ Weighted(s.gps, cfg.weightGpsMatch),
      Weighted(s.shadow, cfg.weightShadowAnalysis),
      Weighted(s.satellite, cfg.weightSatelliteAnalysis),
      Weighted(s.equipment, cfg.weightEquipmentCheck) ]
  }

  /** The position of each check in the score list. */
  function IndexOf(c: Check): (i: nat)
    ensures i < 4
  {
    match c
    case Gps => 0
    case Shadow => 1
    case Satellite => 2
    case Equipment => 3
  }

  /** Entry `IndexOf(c)` of the score list is check `c` with its weight. */
  lemma ScoreListEntry(s: CheckScores, cfg: Settings, c: Check)
    ensures ScoreList(s, cfg)[IndexOf(c)] == Weighted(s.Get(c), WeightOf(cfg, c))
  {
  }

  /** The final confidence of a run. */
  function Confidence(s: CheckScores, cfg: Settings): (c: real)
    ensures s.InUnit() && cfg.WeightsNonNegative() ==> Models.InUnit(c)
  {
    var l := ScoreList(s, cfg);
    if s.InUnit() && cfg.WeightsNonNegative() then
      assert Models.InUnit(s.Get(Gps)) && Models.InUnit(s.Get(Shadow));
      assert Models.InUnit(s.Get(Satellite)) && Models.InUnit(s.Get(Equipment));
      MeanInUnit(l);
      WeightedMean(l)
    else
      WeightedMean(l)
  }

  predicate ScoresInUnit(l: seq<Weighted>)
  {
    forall i :: 0 <= i < |l| ==> Models.InUnit(l[i].score)
  }

  predicate WeightsNonNegative(l: seq<Weighted>)
  {
    forall i :: 0 <= i < |l| ==> l[i].weight >= 0.0
  }

  /** Every term lies between 0 and its weight, so the products sum to at most the weights. */
  lemma {:induction false} ProductsBoundedByWeights(l: seq<Weighted>)
    requires ScoresInUnit(l) && WeightsNonNegative(l)
    ensures 0.0 <= SumProducts(l) <= SumWeights(l)
  {
    if |l| > 0 {
      var init := l[..|l| - 1];
      var last := l[|l| - 1];
      assert ScoresInUnit(init) && WeightsNonNegative(init);
      ProductsBoundedByWeights(init);
      assert Models.InUnit(last.score) && last.weight >= 0.0;
      TermBounded(last);
      assert SumProducts(l) == SumProducts(init) + last.Product();
      assert SumWeights(l) == SumWeights(init) + last.weight;
    }
  }

  /** A score in [0, 1] times a non-negative weight lies between 0 and the weight. */
  lemma TermBounded(x: Weighted)
    requires Models.InUnit(x.score) && x.weight >= 0.0
    ensures 0.0 <= x.Product() <= x.weight
  {
    MulNonNegative(x.score, x.weight);
    MulNonNegative(1.0 - x.score, x.weight);
    assert x.weight - x.score * x.weight == (1.0 - x.score) * x.weight;
  }

  lemma MulNonNegative(a: real, b: real)
    requires a >= 0.0 && b >= 0.0
    ensures a * b >= 0.0
  {
  }

  /** A quotient of a value in [0, w] by a positive w lies in [0, 1]. */
  lemma QuotientInUnit(p: real, w: real)
    requires w > 0.0 && 0.0 <= p <= w
    ensures 0.0 <= p / w <= 1.0
  {
    assert p / w * w == p;
  }

  /** With scores in [0, 1] and non-negative weights the mean lies in [0, 1]. */
  lemma MeanInUnit(l: seq<Weighted>)
    requires ScoresInUnit(l) && WeightsNonNegative(l)
    ensures Models.InUnit(WeightedMean(l))
  {
    ProductsBoundedByWeights(l);
    if SumWeights(l) > 0.0 {
      QuotientInUnit(SumProducts(l), SumWeights(l));
    }
  }

  /** Replacing the score of one entry leaves the total weight alone. */
  lemma {:induction false} ReplaceScoreKeepsWeights(l: seq<Weighted>, i: nat, v: real)
    requires i < |l|
    ensures SumWeights(l[i := Weighted(v, l[i].weight)]) == SumWeights(l)
  {
    var l' := l[i := Weighted(v, l[i].weight)];
    if i < |l| - 1 {
      assert l'[..|l'| - 1] == l[..|l| - 1][i := Weighted(v, l[i].weight)];
      ReplaceScoreKeepsWeights(l[..|l| - 1], i, v);
    } else {
      assert l'[..|l'| - 1] == l[..|l| - 1];
    }
  }

  /** Replacing the score of one entry shifts the product sum by the weighted difference. */
  lemma {:induction false} ReplaceScoreShiftsProducts(l: seq<Weighted>, i: nat, v: real)
    requires i < |l|
    ensures SumProducts(l[i := Weighted(v, l[i].weight)]) == SumProducts(l) + (v - l[i].score) * l[i].weight
  {
    var l' := l[i := Weighted(v, l[i].weight)];
    if i < |l| - 1 {
      assert l'[..|l'| - 1] == l[..|l| - 1][i := Weighted(v, l[i].weight)];
      ReplaceScoreShiftsProducts(l[..|l| - 1], i, v);
    } else {
      assert l'[..|l'| - 1] == l[..|l| - 1];
    }
  }

  /** Dividing by the same positive weight preserves order. */
  lemma QuotientMonotone(p: real, q: real, w: real)
    requires w > 0.0 && p <= q
    ensures p / w <= q / w
  {
    assert q / w - p / w == (q - p) / w;
  }

  /** Raising one score, with its weight non-negative, never lowers the mean. */
  lemma MeanMonotone(l: seq<Weighted>, i: nat, v: real)
    requires i < |l| && l[i].weight >= 0.0 && l[i].score <= v
    ensures WeightedMean(l) <= WeightedMean(l[i := Weighted(v, l[i].weight)])
  {
    ReplaceScoreKeepsWeights(l, i, v);
    ReplaceScoreShiftsProducts(l, i, v);
    var l' := l[i := Weighted(v, l[i].weight)];
    if SumWeights(l) > 0.0 {
      assert (v - l[i].score) * l[i].weight >= 0.0;
      QuotientMonotone(SumProducts(l), SumProducts(l'), SumWeights(l));
    }
  }

  /** The confidence is exactly the four-term weighted mean: a check that scored 0.0
      still contributes its weight to the denominator, and no division happens when
      the weights do not sum to something positive. */
  lemma ConfidenceIsFourTermMean(s: CheckScores, cfg: Settings)
    ensures cfg.TotalWeight() > 0.0 ==>
      Confidence(s, cfg) ==
        (s.gps * cfg.weightGpsMatch + s.shadow * cfg.weightShadowAnalysis
         + s.satellite * cfg.weightSatelliteAnalysis + s.equipment * cfg.weightEquipmentCheck)
        / cfg.TotalWeight()
    ensures cfg.TotalWeight() <= 0.0 ==> Confidence(s, cfg) == 0.0
  {
    var l := ScoreList(s, cfg);
    SumsOfFour(l[0], l[1], l[2], l[3]);
    assert l == [l[0], l[1], l[2], l[3]];
  }

  /** The two sums over a four-entry list, written out left to right. */
  lemma SumsOfFour(a: Weighted, b: Weighted, c: Weighted, d: Weighted)
    ensures SumWeights([a, b, c, d]) == a.weight + b.weight + c.weight + d.weight
    ensures SumProducts([a, b, c, d]) ==
      a.score * a.weight + b.score * b.weight + c.score * c.weight + d.score * d.weight
  {
    assert [a][..0] == [];
    assert SumWeights([a]) == a.weight && SumProducts([a]) == a.Product();
    assert [a, b][..1] == [a];
    assert SumWeights([a, b]) == SumWeights([a]) + b.weight;
    assert SumProducts([a, b]) == SumProducts([a]) + b.Product();
    assert [a, b, c][..2] == [a, b];
    assert SumWeights([a, b, c]) == SumWeights([a, b]) + c.weight;
    assert SumProducts([a, b, c]) == SumProducts([a, b]) + c.Product();
    assert [a, b, c, d][..3] == [a, b, c];
  }

  /** With scores in [0, 1] and non-negative weights the confidence lies in [0, 1]. */
  lemma ConfidenceInUnit(s: CheckScores, cfg: Settings)
    requires s.InUnit() && cfg.WeightsNonNegative()
    ensures Models.InUnit(Confidence(s, cfg))
  {
    var l := ScoreList(s, cfg);
    assert Models.InUnit(s.Get(Gps)) && Models.InUnit(s.Get(Shadow));
    assert Models.InUnit(s.Get(Satellite)) && Models.InUnit(s.Get(Equipment));
    MeanInUnit(l);
  }

  /** Raising any single check's score never lowers the confidence. */
  lemma ConfidenceMonotone(s: CheckScores, cfg: Settings, c: Check, v: real)
    requires cfg.WeightsNonNegative() && s.Get(c) <= v
    ensures Confidence(s, cfg) <= Confidence(s.With(c, v), cfg)
  {
    var l := ScoreList(s, cfg);
    var i := IndexOf(c);
    ScoreListEntry(s, cfg, c);
    assert ScoreList(s.With(c, v), cfg) == l[i := Weighted(v, l[i].weight)];
    MeanMonotone(l, i, v);
  }

  /** A check that scored 0.0 still weighs in the denominator, so it caps the
      confidence at the share of weight held by the other three checks. */
  lemma ZeroCheckCapsConfidence(s: CheckScores, cfg: Settings, c: Check)
    requires s.InUnit() && cfg.WeightsNonNegative() && cfg.TotalWeight() > 0.0
    requires s.Get(c) == 0.0
    ensures Confidence(s, cfg) <= (cfg.TotalWeight() - WeightOf(cfg, c)) / cfg.TotalWeight()
  {
    var l := ScoreList(s, cfg);
    ZeroCheckCapsProducts(s, cfg, c);
    QuotientMonotone(SumProducts(l), cfg.TotalWeight() - WeightOf(cfg, c), SumWeights(l));
  }

  /** The numerator half of `ZeroCheckCapsConfidence`. */
  lemma ZeroCheckCapsProducts(s: CheckScores, cfg: Settings, c: Check)
    requires s.InUnit() && cfg.WeightsNonNegative()
    requires s.Get(c) == 0.0
    ensures SumWeights(ScoreList(s, cfg)) == cfg.TotalWeight()
    ensures SumProducts(ScoreList(s, cfg)) <= cfg.TotalWeight() - WeightOf(cfg, c)
  {
    var a := Weighted(s.gps, cfg.weightGpsMatch);
    var b := Weighted(s.shadow, cfg.weightShadowAnalysis);
    var d := Weighted(s.satellite, cfg.weightSatelliteAnalysis);
    var e := Weighted(s.equipment, cfg.weightEquipmentCheck);
    assert ScoreList(s, cfg) == [a, b, d, e];
    SumsOfFour(a, b, d, e);
    assert Models.InUnit(s.Get(Gps)) && Models.InUnit(s.Get(Shadow));
    assert Models.InUnit(s.Get(Satellite)) && Models.InUnit(s.Get(Equipment));
    TermBounded(a);
    TermBounded(b);
    TermBounded(d);
    TermBounded(e);
    var pa, pb, pd, pe := a.Product(), b.Product(), d.Product(), e.Product();
    assert SumProducts(ScoreList(s, cfg)) == pa + pb + pd + pe;
    match c {
      case Gps => assert pa == 0.0;
      case Shadow => assert pb == 0.0;
      case Satellite => assert pd == 0.0;
      case Equipment => assert pe == 0.0;
    }
  }
}
