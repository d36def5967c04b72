# Lab-based pancreatic-cancer staging, modelled in Dafny

This project models the lab-based estimator of the Pancreatic-Cancer-AI system (`lab_prediction.py`). It is written in the source's own terms:

- `Normalize` rescales one blood marker linearly onto [0, 1] over its clinical range and clamps it there.
- `RiskScore` combines normalised CA19-9 (weight 0.35), NLR (0.25) and age (0.20), subtracts normalised albumin (0.20), and clamps the sum.
- `Predict` asks the classifier for a stage label. It looks the label up in the base-survival table (`Stage 1` 24 months, `Stage 2` 12, `Stage 3` 6, `Normal` none). When there is a base it discounts it by `1 - 0.4 * risk`, then reports years when the adjusted months are at least 12 and months otherwise. Finally it looks up the fixed advice text for the label.
- `PredictPancreasStage` renders the triple `(stage, survival_time, recommendations)` that the source returns.

The whole core is pure, so the model is functions and lemmas in one module, `LabPrediction` (`lab_prediction.dfy`). The trained classifier and its label decoder are a function parameter `classify: LabPanel -> string`, so every property holds whatever label comes back. Python floats are idealised as Dafny `real`.

Behaviour of the code worth knowing:
- An unknown label raises no error. It gets the normal-condition text (lab_prediction.py:94-97) and "No recommendations available" (lab_prediction.py:116).
- Raw lab values are not validated: negative values and values out of range are accepted and only saturate inside normalisation.
- CA19-9 500, albumin 3.5, NLR 4, age 55 labelled "Stage 2" gives risk 31/120 and 10.76 months (`WorkedExample`).

## Model

| member | source | states |
|---|---|---|
| LabPrediction.Clamp01 | lab_prediction.py:58 | `max(0.0, min(1.0, x))` lies in [0, 1], is 0 below 0, 1 above 1, and the identity on [0, 1] |
| LabPrediction.Normalize | lab_prediction.py:53-58 | for `lo < hi`, the result is in [0, 1]; it is 0 for `v <= lo`, 1 for `v >= hi`, strictly inside (0, 1) for `lo < v < hi`, and on [lo, hi] it is the linear rescale (`r * (hi - lo) == v - lo`) |
| LabPrediction.NormalizeMonotone | lab_prediction.py:58 | normalisation is non-decreasing in the value |
| LabPrediction.QuotientBounds | lab_prediction.py:58 | proof helper for `Normalize`: for a positive divisor, where a quotient lies relative to 0 and 1 |
| LabPrediction.WeightedRisk | lab_prediction.py:66-71 | the weighted sum before the final clamp lies in [-0.2, 0.8] |
| LabPrediction.RiskScore | lab_prediction.py:61-73 | the risk lies in [0, 0.8]; the upper clamp never fires, so the risk is the weighted sum cut off below at 0 |
| LabPrediction.PanelRisk | lab_prediction.py:99 | the risk computed for a panel lies in [0, 0.8]; `RiskScoreMonotone` and `PersonalizedMonthsBounds` state its other properties |
| LabPrediction.RiskScoreMonotone | lab_prediction.py:66-73 | the risk is non-decreasing in CA19-9, NLR and age and non-increasing in albumin |
| LabPrediction.BilirubinAndAlpIgnored | lab_prediction.py:77-118 | total bilirubin and ALP affect the prediction only through the classifier's label |
| LabPrediction.BaseSurvival | lab_prediction.py:94 | a label absent from the table gets no base, and every base is positive; `BaseSurvivalTable` gives the full table |
| LabPrediction.AdjustedMonths | lab_prediction.py:102 | zero risk keeps the base, and a non-negative risk never raises it; `AdjustedMonthsBounds` gives the full bounds |
| LabPrediction.Project | lab_prediction.py:96-113 | no base gives no estimate; otherwise the estimate is in years exactly when the adjusted months are `>= 12`, as adjusted/12 years, and in months otherwise |
| LabPrediction.AdjustedMonthsBounds | lab_prediction.py:102 | for risk in [0, 1] the adjusted months lie in [0.6*b, b], in [0.68*b, b] once risk <= 0.8, and equal `b` (for `b > 0`) exactly when risk is 0 |
| LabPrediction.PersonalizedMonthsBounds | lab_prediction.py:99-102 | with the risk a panel actually yields, the adjusted months lie in [0.68*b, b] |
| LabPrediction.Stage1AlwaysYears | lab_prediction.py:19 | "Stage 1" (24 months) is always reported in years, between 1.36 and 2 |
| LabPrediction.Stage2YearsIffNoRisk | lab_prediction.py:20 | "Stage 2" (12 months) is reported in years exactly when the risk is 0, then as 1.0 years; otherwise under 12 months |
| LabPrediction.Stage3AlwaysMonths | lab_prediction.py:21 | "Stage 3" (6 months) is always reported in months, between 4.08 and 6 |
| LabPrediction.TwelveMonthBoundary | lab_prediction.py:104 | the years/months boundary is non-strict: 12 months gives 1.0 years, 11.999 months gives months |
| LabPrediction.BaseSurvivalTable | lab_prediction.py:17-22 | exactly "Stage 1", "Stage 2" and "Stage 3" have a base survival time (24, 12, 6); "Normal" and every other label have none |
| LabPrediction.NoBaseGivesNormalText | lab_prediction.py:94-97 | any label other than the three stages gives no estimate and the fixed text "No cancer detected — normal condition.", whatever the labs |
| LabPrediction.Predict | lab_prediction.py:89-118 | the returned stage is the classifier's label unaltered and the advice is that label's recommendation; without a base the estimate is `NoCancer`, with one it is the projection of that base under the panel's risk |
| LabPrediction.SurvivalText | lab_prediction.py:96-113 | the text is the normal-condition message exactly when there is no estimate; it ends in " years (personalized based on lab risk profile)." exactly for a years estimate and in the months phrase exactly for a months estimate; it is exactly "Estimated survival: ", the rendered number and that phrase, with nothing in between |
| LabPrediction.PredictPancreasStage | lab_prediction.py:77-118 | the triple carries the label unaltered, the rendering of `Predict`'s estimate, the years phrase exactly when the label has a base and the adjusted months are `>= 12`, the months phrase exactly when they are below 12, the normal-condition text exactly when there is no base, and the label's recommendation |
| LabPrediction.Recommendation | lab_prediction.py:116 | a label outside the table gets "No recommendations available", which no label in the table gets; `RecommendationTable` gives each label's advice |
| LabPrediction.RecommendationByStageOnly | lab_prediction.py:116 | the advice depends on the label alone, not on risk, age or any lab value |
| LabPrediction.RecommendationTable | lab_prediction.py:25-50 | each of the four labels gets its own fixed advice; any other label gets "No recommendations available", which no known label gets |
| LabPrediction.WorkedExample | lab_prediction.py:66-73 | CA19-9 500, albumin 3.5, NLR 4, age 55 labelled "Stage 2" gives risk 31/120 and 10.76 months |

## Left out

- Loading the trained classifier and label encoder (`joblib.load`, lab_prediction.py:12-13) and calling them (lab_prediction.py:90-91): foreign artifacts, replaced by the `classify` parameter.
- Building the pandas DataFrame and the `float()`/`int()` coercions (lab_prediction.py:80-87): library plumbing. Inputs are already-typed reals, and age is an integer as the caller passes it.
- The number rendering in `:.1f` and `:.0f` (lab_prediction.py:106, 111): Python float formatting and rounding. It is the parameters `showYears` and `showMonths` of `SurvivalText`, and the estimate itself is the tagged value `Survival`.
- IEEE-754 floats are idealised as exact Dafny `real`. The model has no NaN or infinity, which `float()` in app.py:127-131 accepts: the source's `normalize` sends NaN to 1.0 (`min(1.0, nan)` is 1.0) and ±inf to 1 or 0. Exact-equality and strict-interior claims hold only in exact reals. Three of them fail in floats: `Stage2YearsIffNoRisk` and the last clause of `AdjustedMonthsBounds`, because a risk near 1e-17 makes `1 - 0.4 * risk` round to 1.0; and the strict-interior clause of `Normalize`, because `5e-324 / 1000` rounds to 0.0.
- The web application, image analysis and persistence (`app.py`, `Analyzer.py`, `models.py`, `database.py`): I/O, subprocesses, external services and CRUD around the estimator.
