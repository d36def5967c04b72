/**
  Lab-based staging of pancreatic cancer: a heuristic risk score computed
  from four normalised blood markers, a per-stage base survival time that
  the risk discounts by up to 40%, and a fixed recommendation text per stage.

  The trained classifier and its label decoder are outside the model: they
  are the parameter `classify`, which maps a lab panel to a stage label.
  Every property below holds whatever label it returns.
*/
module LabPrediction {

  datatype Option<T> = None | Some(value: T)

  /** The six measurements of one request, already coerced to numbers. */
  datatype LabPanel = LabPanel(
    ca19_9: real,
    totalBilirubin: real,
    alp: real,
    albumin: real,
    nlr: real,
    age: int)

  /** The survival estimate before it is rendered as text. */
  datatype Survival =
    | NoCancer
    | Years(years: real)
    | Months(months: real)

  /** What one prediction returns: the decoder's label, the estimate, the advice. */
  datatype Prediction = Prediction(stage: string, survival: Survival, recommendations: string)

  // ---------------------------------------------------------------------------
  // Fixed clinical constants
  // ---------------------------------------------------------------------------

  const WeightCA19_9: real := 0.35
  const WeightNLR: real := 0.25
  const WeightAge: real := 0.20
  const WeightAlbumin: real := 0.20

  /** Largest fraction of the base survival time that risk can take away. */
  const MaxDiscount: real := 0.4

  const NormalConditionText: string := "No cancer detected — normal condition."
  const NoRecommendationsText: string := "No recommendations available"
  const PersonalizedSuffix: string := " (personalized based on lab risk profile)."
  const SurvivalPrefix: string := "Estimated survival: "
  const YearsSuffix: string := " years" + PersonalizedSuffix
  const MonthsSuffix: string := " months" + PersonalizedSuffix

  /** Base survival in months per stage; "Normal" is present with no value. */
  const StageBaseSurvivalMonths: map<string, Option<nat>> := map[
    "Normal" := None,
    "Stage 1" := Some(24),
    "Stage 2" := Some(12),
    "Stage 3" := Some(6)
  ]

  const NormalAdvice: string :=
    "✔ Maintain healthy lifestyle\n✔ Annual check-up recommended\n✔ Monitor symptoms like jaundice or abdominal pain\n✔ Avoid smoking and limit alcohol intake"

  const Stage1Advice: string :=
    "✔ Immediate consultation with oncologist\n✔ Surgical resection often possible\n✔ Consider chemotherapy after surgery\n✔ Maintain nutrition & regular follow-ups"

  const Stage2Advice: string :=
    "✔ Combination therapy recommended (surgery + chemotherapy)\n✔ Monitor tumor size progression through imaging\n✔ Modify diet to maintain weight and energy levels\n✔ Regular oncologist follow-ups required"

  const Stage3Advice: string :=
    "✔ Focus on palliative care and symptom management\n✔ Pain management & supportive therapy\n✔ Chemotherapy may help slow progression\n✔ Psychological and family support crucial"

  const RecommendationMap: map<string, string> := map[
    "Normal" := NormalAdvice,
    "Stage 1" := Stage1Advice,
    "Stage 2" := Stage2Advice,
    "Stage 3" := Stage3Advice
  ]

  // ---------------------------------------------------------------------------
  // Risk score
  // ---------------------------------------------------------------------------

  /** `max(0.0, min(1.0, x))`. */
  function Clamp01(x: real): (r: real)
    ensures 0.0 <= r <= 1.0
    ensures x < 0.0 ==> r == 0.0
    ensures x > 1.0 ==> r == 1.0
    ensures 0.0 <= x <= 1.0 ==> r == x
  {
    if 1.0 < x then 1.0 else if x < 0.0 then 0.0 else x
  }

  /** Linear rescale of `v` from [lo, hi] onto [0, 1], saturating outside. */
  function Normalize(v: real, lo: real, hi: real): (r: real)
    requires lo < hi
    ensures 0.0 <= r <= 1.0
    ensures v <= lo ==> r == 0.0
    ensures v >= hi ==> r == 1.0
    ensures lo < v < hi ==> 0.0 < r < 1.0
    ensures lo <= v <= hi ==> r * (hi - lo) == v - lo
  {
    QuotientBounds(v - lo, hi - lo);
    Clamp01((v - lo) / (hi - lo))
  }

  /** The weighted combination before the final clamp; albumin is protective. */
  function WeightedRisk(ca19_9: real, nlr: real, albumin: real, age: int): (r: real)
    ensures -WeightAlbumin <= r <= WeightCA19_9 + WeightNLR + WeightAge
  {
    WeightCA19_9 * Normalize(ca19_9, 0.0, 1000.0)
    + WeightNLR * Normalize(nlr, 1.0, 10.0)
    + WeightAge * Normalize(age as real, 30.0, 80.0)
    - WeightAlbumin * Normalize(albumin, 2.0, 5.0)
  }

  /**
    The clamped risk score. The positive weights sum to 0.8, so the upper
    clamp never fires: the score is the weighted sum cut off below at 0.
  */
  function RiskScore(ca19_9: real, nlr: real, albumin: real, age: int): (r: real)
    ensures 0.0 <= r <= 0.8
    ensures r == (if WeightedRisk(ca19_9, nlr, albumin, age) < 0.0 then 0.0
                  else WeightedRisk(ca19_9, nlr, albumin, age))
  {
    Clamp01(WeightedRisk(ca19_9, nlr, albumin, age))
  }

  /** The risk of a panel, from the four markers the score uses. */
  function PanelRisk(p: LabPanel): (r: real)
    ensures 0.0 <= r <= 0.8
  {
    RiskScore(p.ca19_9, p.nlr, p.albumin, p.age)
  }

  // ---------------------------------------------------------------------------
  // Survival projection and recommendations
  // ---------------------------------------------------------------------------

  /** `stage_base_survival_months.get(stage, None)`. */
  function BaseSurvival(stage: string): (r: Option<nat>)
    ensures stage !in StageBaseSurvivalMonths ==> r.None?
    ensures r.Some? ==> r.value > 0
  {
    if stage in StageBaseSurvivalMonths then StageBaseSurvivalMonths[stage] else None
  }

  /** `base * (1 - 0.4 * risk)`. */
  function AdjustedMonths(base: nat, risk: real): (m: real)
    ensures risk == 0.0 ==> m == base as real
    ensures 0.0 <= risk ==> m <= base as real
  {
    base as real * (1.0 - MaxDiscount * risk)
  }

  /**
    The estimate for a base survival time and a risk: none without a base,
    otherwise years from 12 adjusted months upwards and months below that.
  */
  function Project(base: Option<nat>, risk: real): (s: Survival)
    ensures s.NoCancer? <==> base.None?
    ensures s.Years? <==> base.Some? && AdjustedMonths(base.value, risk) >= 12.0
    ensures s.Years? ==> s.years * 12.0 == AdjustedMonths(base.value, risk)
    ensures s.Months? ==> s.months == AdjustedMonths(base.value, risk)
  {
    match base
    case None => NoCancer
    case Some(b) =>
      var adjusted := AdjustedMonths(b, risk);
      if adjusted >= 12.0 then Years(adjusted / 12.0) else Months(adjusted)
  }

  /** `recommendation_map.get(stage, "No recommendations available")`. */
  function Recommendation(stage: string): (r: string)
    ensures stage !in RecommendationMap ==> r == NoRecommendationsText
    ensures stage in RecommendationMap ==> r != NoRecommendationsText
  {
    assert |NoRecommendationsText| == 28;
    assert |NormalAdvice| > 28 && |Stage1Advice| > 28 && |Stage2Advice| > 28 && |Stage3Advice| > 28;
    if stage in RecommendationMap then RecommendationMap[stage] else NoRecommendationsText
  }

  /**
    One prediction: the classifier's label, then the survival estimate
    (risk is computed only when the label has a base survival time), then
    the recommendation for the label.
  */
  function Predict(panel: LabPanel, classify: LabPanel -> string): (r: Prediction)
    ensures r.stage == classify(panel)
    ensures r.recommendations == Recommendation(r.stage)
    ensures BaseSurvival(r.stage).None? ==> r.survival == NoCancer
    ensures BaseSurvival(r.stage).Some? ==>
              r.survival == Project(BaseSurvival(r.stage), PanelRisk(panel))
  {
    var stage := classify(panel);
    var base := BaseSurvival(stage);
    var survival := if base.None? then NoCancer else Project(base, PanelRisk(panel));
    Prediction(stage, survival, Recommendation(stage))
  }

  /**
    The survival text. Rendering a number with one decimal (years) or
    none (months) is Python's float formatting, given here as parameters.
  */
  function SurvivalText(s: Survival, showYears: real -> string, showMonths: real -> string): (t: string)
    ensures s.NoCancer? <==> t == NormalConditionText
    ensures s.Years? <==> EndsWith(t, YearsSuffix)
    ensures s.Months? <==> EndsWith(t, MonthsSuffix)
    ensures s.Years? ==> StartsWith(t, SurvivalPrefix + showYears(s.years))
    ensures s.Months? ==> StartsWith(t, SurvivalPrefix + showMonths(s.months))
    ensures s.Years? ==> |t| == |SurvivalPrefix + showYears(s.years)| + |YearsSuffix|
    ensures s.Months? ==> |t| == |SurvivalPrefix + showMonths(s.months)| + |MonthsSuffix|
  {
    match s
    case NoCancer => NormalConditionText
    case Years(y) =>
      var t := SurvivalPrefix + showYears(y) + YearsSuffix;
      SuffixFacts(SurvivalPrefix + showYears(y), YearsSuffix);
      assert !EndsWith(t, MonthsSuffix) by { SuffixesDiffer(t); }
      t
    case Months(m) =>
      var t := SurvivalPrefix + showMonths(m) + MonthsSuffix;
      SuffixFacts(SurvivalPrefix + showMonths(m), MonthsSuffix);
      assert !EndsWith(t, YearsSuffix) by { SuffixesDiffer(t); }
      t
  }

  predicate StartsWith(t: string, prefix: string) {
    |prefix| <= |t| && t[..|prefix|] == prefix
  }

  predicate EndsWith(t: string, suffix: string) {
    |suffix| <= |t| && t[|t| - |suffix|..] == suffix
  }

  lemma SuffixFacts(a: string, b: string)
    ensures StartsWith(a + b, a) && EndsWith(a + b, b)
  {
    assert (a + b)[..|a|] == a;
    assert (a + b)[|a|..] == b;
  }

  /** No text ends in both units, and the normal message ends in neither. */
  lemma SuffixesDiffer(t: string)
    ensures !(EndsWith(t, YearsSuffix) && EndsWith(t, MonthsSuffix))
    ensures !EndsWith(NormalConditionText, YearsSuffix) && !EndsWith(NormalConditionText, MonthsSuffix)
  {
    if EndsWith(t, YearsSuffix) {
      assert t[|t| - |YearsSuffix|] == ' ';
    }
  }

  /** The triple `(stage, survival_time, recommendations)` the source returns. */
  function PredictPancreasStage(panel: LabPanel, classify: LabPanel -> string,
                                showYears: real -> string, showMonths: real -> string)
    : (r: (string, string, string))
    ensures r.0 == classify(panel)
    ensures BaseSurvival(r.0).None? ==> r.1 == NormalConditionText
    ensures BaseSurvival(r.0).Some? ==> r.1 != NormalConditionText
    ensures r.1 == SurvivalText(Predict(panel, classify).survival, showYears, showMonths)
    ensures EndsWith(r.1, YearsSuffix) <==>
              BaseSurvival(r.0).Some? && AdjustedMonths(BaseSurvival(r.0).value, PanelRisk(panel)) >= 12.0
    ensures EndsWith(r.1, MonthsSuffix) <==>
              BaseSurvival(r.0).Some? && AdjustedMonths(BaseSurvival(r.0).value, PanelRisk(panel)) < 12.0
    ensures r.2 == Recommendation(classify(panel))
  {
    var p := Predict(panel, classify);
    (p.stage, SurvivalText(p.survival, showYears, showMonths), p.recommendations)
  }

  /** Where `x / d` lies relative to 0 and 1, for a positive `d`. */
  lemma QuotientBounds(x: real, d: real)
    requires d > 0.0
    ensures (x / d) * d == x
    ensures x <= 0.0 ==> x / d <= 0.0
    ensures x >= d ==> x / d >= 1.0
    ensures 0.0 < x < d ==> 0.0 < x / d < 1.0
  {
    var q := x / d;
    assert q * d == x;
    assert (q - 1.0) * d == x - d;
    SignOfScaled(q, d);
    SignOfScaled(q - 1.0, d);
  }

  /** A positive factor does not change the sign of a real. */
  lemma SignOfScaled(a: real, d: real)
    requires d > 0.0
    ensures a > 0.0 <==> a * d > 0.0
    ensures a < 0.0 <==> a * d < 0.0
  {
    if a > 0.0 { assert a * d > 0.0; }
    if a < 0.0 { assert (-a) * d > 0.0; }
  }

  // ---------------------------------------------------------------------------
  // Properties of normalisation and risk
  // ---------------------------------------------------------------------------

  lemma NormalizeMonotone(v1: real, v2: real, lo: real, hi: real)
    requires lo < hi && v1 <= v2
    ensures Normalize(v1, lo, hi) <= Normalize(v2, lo, hi)
  {
    var d := hi - lo;
    assert (v1 - lo) / d <= (v2 - lo) / d by {
      assert (v2 - lo) / d - (v1 - lo) / d == (v2 - v1) / d;
    }
  }

  /** Raising CA19-9, NLR or age, or lowering albumin, never lowers the risk. */
  lemma RiskScoreMonotone(ca1: real, nlr1: real, alb1: real, age1: int,
                          ca2: real, nlr2: real, alb2: real, age2: int)
    requires ca1 <= ca2 && nlr1 <= nlr2 && age1 <= age2 && alb2 <= alb1
    ensures RiskScore(ca1, nlr1, alb1, age1) <= RiskScore(ca2, nlr2, alb2, age2)
  {
    NormalizeMonotone(ca1, ca2, 0.0, 1000.0);
    NormalizeMonotone(nlr1, nlr2, 1.0, 10.0);
    NormalizeMonotone(age1 as real, age2 as real, 30.0, 80.0);
    NormalizeMonotone(alb2, alb1, 2.0, 5.0);
  }

  /** Total bilirubin and ALP reach the classifier only, never the risk or the advice. */
  lemma BilirubinAndAlpIgnored(p: LabPanel, q: LabPanel, classify: LabPanel -> string)
    requires p.ca19_9 == q.ca19_9 && p.nlr == q.nlr && p.albumin == q.albumin && p.age == q.age
    requires classify(p) == classify(q)
    ensures Predict(p, classify) == Predict(q, classify)
  {
  }

  // ---------------------------------------------------------------------------
  // Properties of the survival projection
  // ---------------------------------------------------------------------------

  /** Risk in [0,1] discounts by at most 40% and never adds survival; no risk, no discount. */
  lemma AdjustedMonthsBounds(base: nat, risk: real)
    requires 0.0 <= risk <= 1.0
    ensures 0.6 * base as real <= AdjustedMonths(base, risk) <= base as real
    ensures risk <= 0.8 ==> 0.68 * base as real <= AdjustedMonths(base, risk)
    ensures base > 0 ==> (AdjustedMonths(base, risk) == base as real <==> risk == 0.0)
  {
    var b := base as real;
    assert AdjustedMonths(base, risk) == b - 0.4 * (b * risk);
    assert 0.0 <= b * risk <= b;
    assert risk <= 0.8 ==> b * risk <= 0.8 * b;
    assert base > 0 && b * risk == 0.0 ==> risk == 0.0;
  }

  /** With the risk the panel actually yields, the estimate lies in [0.68*b, b] months. */
  lemma PersonalizedMonthsBounds(panel: LabPanel, base: nat)
    ensures 0.68 * base as real <= AdjustedMonths(base, PanelRisk(panel)) <= base as real
  {
    AdjustedMonthsBounds(base, PanelRisk(panel));
  }

  /** Stage 1 (24 months) is always reported in years, between 1.36 and 2. */
  lemma Stage1AlwaysYears(panel: LabPanel, classify: LabPanel -> string)
    requires classify(panel) == "Stage 1"
    ensures Predict(panel, classify).survival.Years?
    ensures 1.36 <= Predict(panel, classify).survival.years <= 2.0
  {
    PersonalizedMonthsBounds(panel, 24);
  }

  /** Stage 3 (6 months) is always reported in months, between 4.08 and 6. */
  lemma Stage3AlwaysMonths(panel: LabPanel, classify: LabPanel -> string)
    requires classify(panel) == "Stage 3"
    ensures Predict(panel, classify).survival.Months?
    ensures 4.08 <= Predict(panel, classify).survival.months <= 6.0
  {
    PersonalizedMonthsBounds(panel, 6);
  }

  /** Stage 2 (12 months) reaches the years report only at zero risk, as exactly one year. */
  lemma Stage2YearsIffNoRisk(panel: LabPanel, classify: LabPanel -> string)
    requires classify(panel) == "Stage 2"
    ensures Predict(panel, classify).survival.Years? <==> PanelRisk(panel) == 0.0
    ensures Predict(panel, classify).survival.Years? ==> Predict(panel, classify).survival.years == 1.0
    ensures Predict(panel, classify).survival.Months? ==> Predict(panel, classify).survival.months < 12.0
  {
    AdjustedMonthsBounds(12, PanelRisk(panel));
  }

  /** The boundary is non-strict: exactly 12 months is one year, 11.999 months is months. */
  lemma TwelveMonthBoundary()
    ensures Project(Some(12), 0.0) == Years(1.0)
    ensures Project(Some(12), 1.0 / 4800.0) == Months(11.999)
  {
  }

  /** "Normal", and every label missing from the table, give the fixed text whatever the labs. */
  lemma NoBaseGivesNormalText(panel: LabPanel, classify: LabPanel -> string,
                              showYears: real -> string, showMonths: real -> string)
    requires classify(panel) !in {"Stage 1", "Stage 2", "Stage 3"}
    ensures Predict(panel, classify).survival == NoCancer
    ensures PredictPancreasStage(panel, classify, showYears, showMonths).1 == NormalConditionText
  {
    assert BaseSurvival(classify(panel)).None?;
  }

  /** The labels with a base survival time are exactly the three disease stages. */
  lemma BaseSurvivalTable(stage: string)
    ensures BaseSurvival(stage).Some? <==> stage in {"Stage 1", "Stage 2", "Stage 3"}
    ensures stage == "Stage 1" <==> BaseSurvival(stage) == Some(24)
    ensures stage == "Stage 2" <==> BaseSurvival(stage) == Some(12)
    ensures stage == "Stage 3" <==> BaseSurvival(stage) == Some(6)
  {
  }

  // ---------------------------------------------------------------------------
  // Properties of the recommendations
  // ---------------------------------------------------------------------------

  /** The advice depends on the label alone: not on risk, age or any lab value. */
  lemma RecommendationByStageOnly(p: LabPanel, cp: LabPanel -> string,
                                  q: LabPanel, cq: LabPanel -> string)
    requires cp(p) == cq(q)
    ensures Predict(p, cp).recommendations == Predict(q, cq).recommendations
  {
  }

  /** A label outside the four keys gets the fallback text; a known one gets its own advice. */
  lemma RecommendationTable(stage: string)
    ensures stage !in {"Normal", "Stage 1", "Stage 2", "Stage 3"} ==>
              Recommendation(stage) == NoRecommendationsText
    ensures stage == "Normal" ==> Recommendation(stage) == NormalAdvice
    ensures stage == "Stage 1" ==> Recommendation(stage) == Stage1Advice
    ensures stage == "Stage 2" ==> Recommendation(stage) == Stage2Advice
    ensures stage == "Stage 3" ==> Recommendation(stage) == Stage3Advice
    ensures stage in {"Normal", "Stage 1", "Stage 2", "Stage 3"} ==>
              Recommendation(stage) != NoRecommendationsText
  {
  }

  // ---------------------------------------------------------------------------
  // Worked example
  // ---------------------------------------------------------------------------

  /**
    CA19-9 500, bilirubin 1.2, ALP 120, albumin 3.5, NLR 4, age 55 labelled
    "Stage 2": risk 31/120, so 12 * (1 - 0.4 * 31/120) = 10.76 months.
  */
  lemma WorkedExample(classify: LabPanel -> string)
    requires classify(LabPanel(500.0, 1.2, 120.0, 3.5, 4.0, 55)) == "Stage 2"
    ensures PanelRisk(LabPanel(500.0, 1.2, 120.0, 3.5, 4.0, 55)) == 31.0 / 120.0
    ensures Predict(LabPanel(500.0, 1.2, 120.0, 3.5, 4.0, 55), classify).survival == Months(10.76)
  {
    var p := LabPanel(500.0, 1.2, 120.0, 3.5, 4.0, 55);
    assert Normalize(500.0, 0.0, 1000.0) == 0.5;
    assert Normalize(4.0, 1.0, 10.0) == 1.0 / 3.0;
    assert Normalize(55.0, 30.0, 80.0) == 0.5;
    assert Normalize(3.5, 2.0, 5.0) == 0.5;
  }
}
