/**
 * The stand-alone two-stage decision of `m.py`. Unlike the Flask decision
 * layer it requires a listed age category, and it consults the clinical
 * predictor for every patient over 40, whatever the lifestyle prediction.
 */
module StagedDecision {
  import opened Wrappers
  import opened Predictions
  import opened DecisionLayer
  import ClinicalAdvice

  /**
   * The `recommendation` texts of this variant; the interpretations are the
   * ones of the Flask decision layer.
   */
  datatype StagedRecommendation = RoutineCheckups | StrongModification | StagedTableAdvice(verdict: Verdict)
  {
    function Text(): string
    {
      match this
      case RoutineCheckups => "Maintain habits and do routine annual checkups."
      case StrongModification => "Strong lifestyle modification, but no urgent clinical alarm."
      case StagedTableAdvice(HealthyOverall) => "Maintain current habits and follow periodic checkups."
      case StagedTableAdvice(LifestyleRiskOnly) => "Focus on exercise, smoking cessation, and diet improvement."
      case StagedTableAdvice(ClinicalRisk) => "Clinical follow-up and further diagnostic tests are recommended."
      case StagedTableAdvice(HighCombinedRisk) => "Urgent cardiology consultation and aggressive lifestyle overhaul are needed."
    }
  }

  /**
   * The dictionary returned. `lifeProba` is None where the dictionary has no
   * `life_proba` key; `clin` is None where `clin_pred` is None and there is no
   * `clin_proba` key.
   */
  datatype StagedResult = StagedResult(
    stage: Stage,
    lifePred: Bit,
    lifeProba: Option<real>,
    clin: Option<Prediction>,
    interpretation: Interpretation,
    recommendation: StagedRecommendation)

  /**
   * `integrated_decision(life_dict, clin_dict)`: `life` is the lifestyle
   * prediction for `life_dict` and `ageCategory` its `Age_Category` entry
   * (None when the key is missing); `predict` is the clinical predictor,
   * applied to `clinDict` only for a patient over 40. The age list of `m.py`
   * is the same list as `AGE_CATS`.
   */
  function IntegratedDecision(ageCategory: Option<string>, life: Prediction,
                              clinDict: ClinicalAdvice.ClinDict, predict: ClinicalAdvice.ClinDict -> Prediction): (r: Result<StagedResult>)
    ensures ageCategory.None? ==> r == Err(KeyError("Age_Category"))
    ensures ageCategory.Some? ==> (r.Err? <==> ageCategory.value !in AgeCats)
    ensures ageCategory.Some? && r.Err? ==> r.error == ValueError("Age_Category")
    ensures r.Ok? ==> (r.value.clin.Some? <==> ageCategory.value in AgeCats[4..])
    ensures r.Ok? ==> r.value.lifePred == life.pred
  {
    match ageCategory
    case None => Err(KeyError("Age_Category"))
    case Some(cat) =>
      match IndexOf(AgeCats, cat)
      case None => Err(ValueError("Age_Category"))
      case Some(idx) =>
        IndexFromFour(cat);
        var over40 := idx >= 4;
        if life.pred == 0 && !over40 then
          Ok(StagedResult(LifestyleOnly, life.pred, None, None, YoungHealthy, RoutineCheckups))
        else if life.pred == 1 && !over40 then
          Ok(StagedResult(LifestyleOnlyRisky, life.pred, None, None, YoungRisky, StrongModification))
        else
          var clin := predict(clinDict);
          var v := TableVerdict(life.pred, clin.pred);
          Ok(StagedResult(Combined, life.pred, Some(life.proba), Some(clin), TableRow(v), StagedTableAdvice(v)))
  }

  /**
   * A patient under 40 gets a lifestyle-only answer that does not depend on
   * the clinical side at all: routine checkups for a healthy lifestyle
   * prediction, strong lifestyle modification for a risky one.
   */
  lemma YoungIgnoresClinical(cat: string, life: Prediction,
                             c1: ClinicalAdvice.ClinDict, p1: ClinicalAdvice.ClinDict -> Prediction,
                             c2: ClinicalAdvice.ClinDict, p2: ClinicalAdvice.ClinDict -> Prediction)
    requires cat in AgeCats && cat !in AgeCats[4..]
    ensures var r := IntegratedDecision(Some(cat), life, c1, p1);
      && r == IntegratedDecision(Some(cat), life, c2, p2)
      && r.Ok?
      && r.value.stage == (if life.pred == 0 then LifestyleOnly else LifestyleOnlyRisky)
      && r.value.lifePred == life.pred
      && r.value.lifeProba.None?
      && r.value.clin.None?
      && r.value.interpretation == (if life.pred == 0 then YoungHealthy else YoungRisky)
      && r.value.recommendation == (if life.pred == 0 then RoutineCheckups else StrongModification)
  {
  }

  /**
   * A patient over 40 always gets the combined answer from the clinical
   * prediction, also with a healthy lifestyle prediction; both predictions
   * and both probabilities are carried.
   */
  lemma OverFortyConsultsClinical(cat: string, life: Prediction,
                                  clinDict: ClinicalAdvice.ClinDict, predict: ClinicalAdvice.ClinDict -> Prediction)
    requires cat in AgeCats[4..]
    ensures IntegratedDecision(Some(cat), life, clinDict, predict) == Ok(StagedResult(
      Combined, life.pred, Some(life.proba), Some(predict(clinDict)),
      TableRow(TableVerdict(life.pred, predict(clinDict).pred)),
      StagedTableAdvice(TableVerdict(life.pred, predict(clinDict).pred))))
  {
    var j :| 0 <= j < |AgeCats[4..]| && AgeCats[4..][j] == cat;
    AgeCatsDistinct();
    IndexOfDistinct(AgeCats, j + 4);
  }

  /**
   * For a listed category both decision layers agree on the stage and the
   * interpretation: the Flask one given the clinical prediction exactly when
   * `m.py` consults it.
   */
  lemma AgreesWithFlask(cat: string, age: AgeField, life: Prediction,
                        clinDict: ClinicalAdvice.ClinDict, predict: ClinicalAdvice.ClinDict -> Prediction)
    requires cat in AgeCats
    ensures var r := IntegratedDecision(Some(cat), life, clinDict, predict);
      var flask := DecisionLayer.IntegratedDecision(Some(cat), age, life, r.value.clin);
      r.Ok? && flask.stage == r.value.stage && flask.interpretation == Some(r.value.interpretation)
  {
    IndexFromFour(cat);
  }
}
