/**
 * The Flask application's decision layer: the over-40 test on the age
 * category, the two-stage `integrated_decision`, the routing and risk level
 * of the lifestyle form, and the default age and risk level of the clinical
 * form.
 */
module DecisionLayer {
  import opened Wrappers
  import opened TextOps
  import opened FormFields
  import opened Predictions
  import LifestyleAdvice
  import ClinicalAdvice

  /** `AGE_CATS`: the age categories of the lifestyle form, youngest first. */
  const AgeCats: seq<string> := [
    "18-24", "25-29", "30-34", "35-39", "40-44",
    "45-49", "50-54", "55-59", "60-64", "65-69", "70-74", "75-79", "80+"]

  /** `s.index(x)`: the first position of `x`, or None for the ValueError. */
  function IndexOf(s: seq<string>, x: string): (r: Option<nat>)
    ensures r.Some? <==> x in s
    ensures r.Some? ==> r.value < |s| && s[r.value] == x
    ensures r.Some? ==> forall j :: 0 <= j < r.value ==> s[j] != x
  {
    if s == [] then None
    else if s[0] == x then Some(0)
    else match IndexOf(s[1..], x)
      case None => None
      case Some(i) => Some(i + 1)
  }

  predicate Distinct(s: seq<string>)
  {
    forall i, j :: 0 <= i < j < |s| ==> s[i] != s[j]
  }

  lemma AgeCatsDistinct()
    ensures |AgeCats| == 13 && Distinct(AgeCats)
  {
  }

  /** In a list without repetitions, the position of an entry is where it stands. */
  lemma IndexOfDistinct(s: seq<string>, i: nat)
    requires Distinct(s) && i < |s|
    ensures IndexOf(s, s[i]) == Some(i)
  {
    var r := IndexOf(s, s[i]);
    assert r.Some? && s[r.value] == s[i];
  }

  // ------------------------------------------------------------ over 40

  /**
   * The `Age` entry of a `life_dict`, as `int(...)` sees it: absent (the
   * default 0), an integer, a float, a bool, a text, or a value `int` rejects
   * (such as None).
   */
  datatype AgeField =
    | Missing
    | IntAge(n: int)
    | RealAge(x: real)
    | BoolAge(b: bool)
    | TextAge(s: string)
    | Unconvertible

  /** `int(x)` of a float: the integer part, dropping the fraction toward zero. */
  function TruncateTowardZero(x: real): (n: int)
    ensures x >= 0.0 ==> 0 <= n && n as real <= x < n as real + 1.0
    ensures x < 0.0 ==> n <= 0 && n as real - 1.0 < x <= n as real
  {
    if x >= 0.0 then x.Floor else -((-x).Floor)
  }

  /** `int(life_dict.get("Age", 0))`; None stands for the exception. */
  function AgeFieldInt(age: AgeField): (r: Option<int>)
    ensures age.Missing? ==> r == Some(0)
    ensures age.IntAge? ==> r == Some(age.n)
    ensures age.RealAge? && age.x >= 0.0 ==> r.Some? && r.value as real <= age.x < r.value as real + 1.0
    ensures age.RealAge? && age.x < 0.0 ==> r.Some? && r.value as real - 1.0 < age.x <= r.value as real
    ensures age.BoolAge? ==> r == Some(if age.b then 1 else 0)
    ensures age.TextAge? ==> r == ParseInt(age.s)
    ensures age.Unconvertible? ==> r.None?
  {
    match age
    case Missing => Some(0)
    case IntAge(n) => Some(n)
    case RealAge(x) => Some(TruncateTowardZero(x))
    case BoolAge(b) => Some(if b then 1 else 0)
    case TextAge(s) => ParseInt(s)
    case Unconvertible => None
  }

  /**
   * `is_over_40` of `integrated_decision`: by the position in `AGE_CATS` for a
   * listed category, otherwise by the numeric `Age` entry, and false when that
   * conversion raises.
   */
  function OverForty(ageCategory: Option<string>, age: AgeField): bool
  {
    if ageCategory.Some? && ageCategory.value in AgeCats then
      IndexOf(AgeCats, ageCategory.value).value >= 4
    else
      match AgeFieldInt(age)
      case Some(n) => n >= 40
      case None => false
  }

  /** A listed category is over 40 exactly from "40-44" on, whatever the `Age` entry. */
  lemma OverFortyByPosition(i: nat, age: AgeField)
    requires i < |AgeCats|
    ensures OverForty(Some(AgeCats[i]), age) <==> i >= 4
  {
    AgeCatsDistinct();
    IndexOfDistinct(AgeCats, i);
  }

  /** A listed category stands at position 4 or later exactly when it is one of the last nine. */
  lemma IndexFromFour(cat: string)
    requires cat in AgeCats
    ensures IndexOf(AgeCats, cat).value >= 4 <==> cat in AgeCats[4..]
  {
    AgeCatsDistinct();
    var idx := IndexOf(AgeCats, cat).value;
    IndexOfDistinct(AgeCats, idx);
    if cat in AgeCats[4..] {
      var j :| 0 <= j < |AgeCats[4..]| && AgeCats[4..][j] == cat;
      IndexOfDistinct(AgeCats, j + 4);
    }
  }

  /**
   * An unlisted or missing category falls back to the `Age` entry: a float
   * counts from 40.0 on (its fraction is dropped), a bool never counts, and an
   * absent or unconvertible entry is not over 40.
   */
  lemma OverFortyFallback(ageCategory: Option<string>, age: AgeField)
    requires ageCategory.None? || ageCategory.value !in AgeCats
    ensures OverForty(ageCategory, age) <==> AgeFieldInt(age).Some? && AgeFieldInt(age).value >= 40
    ensures age.Missing? || age.Unconvertible? || age.BoolAge? ==> !OverForty(ageCategory, age)
    ensures age.RealAge? ==> (OverForty(ageCategory, age) <==> age.x >= 40.0)
  {
  }

  // ------------------------------------------------------------ integrated_decision

  /** The `stage` of a decision. */
  datatype Stage = LifestyleOnly | LifestyleOnlyRisky | NeedClinical | Combined
  {
    function Name(): string
    {
      match this
      case LifestyleOnly => "lifestyle_only"
      case LifestyleOnlyRisky => "lifestyle_only_risky"
      case NeedClinical => "need_clinical"
      case Combined => "combined"
    }
  }

  /** The four rows of the combined decision table. */
  datatype Verdict = HealthyOverall | LifestyleRiskOnly | ClinicalRisk | HighCombinedRisk
  {
    /** The `interpretation` of the row. */
    function Status(): string
    {
      match this
      case HealthyOverall => "Healthy overall"
      case LifestyleRiskOnly => "Lifestyle risk only"
      case ClinicalRisk => "Clinical/genetic risk"
      case HighCombinedRisk => "High combined risk"
    }
  }

  /** The decision table over the two predicted classes. */
  function TableVerdict(lifePred: Bit, clinPred: Bit): (v: Verdict)
    ensures v == HealthyOverall <==> lifePred == 0 && clinPred == 0
    ensures v == LifestyleRiskOnly <==> lifePred == 1 && clinPred == 0
    ensures v == ClinicalRisk <==> lifePred == 0 && clinPred == 1
    ensures v == HighCombinedRisk <==> lifePred == 1 && clinPred == 1
  {
    if lifePred == 0 && clinPred == 0 then HealthyOverall
    else if lifePred == 1 && clinPred == 0 then LifestyleRiskOnly
    else if lifePred == 0 && clinPred == 1 then ClinicalRisk
    else HighCombinedRisk
  }

  /** Each row of the table is reached by exactly one pair of classes. */
  lemma TableVerdictInjective(a: Bit, b: Bit, c: Bit, d: Bit)
    requires TableVerdict(a, b) == TableVerdict(c, d)
    ensures a == c && b == d
  {
  }

  /** The `interpretation` of a decision. */
  datatype Interpretation = YoungHealthy | YoungRisky | TableRow(verdict: Verdict)
  {
    function Text(): string
    {
      match this
      case YoungHealthy => "Healthy lifestyle and young age."
      case YoungRisky => "Risky lifestyle but young age."
      case TableRow(v) => v.Status()
    }
  }

  /** The `recommendation` of a decision. */
  datatype Recommendation = KeepHabits | ImproveHabits | TableAdvice(verdict: Verdict)
  {
    function Text(): string
    {
      match this
      case KeepHabits => "Maintain your current habits and do annual checkups."
      case ImproveHabits => "Improve exercise, diet, and smoking/alcohol habits; no urgent clinical alarm yet."
      case TableAdvice(HealthyOverall) => "Maintain healthy habits and continue periodic medical checkups."
      case TableAdvice(LifestyleRiskOnly) => "Focus on lifestyle changes: more exercise, smoking cessation, healthier diet."
      case TableAdvice(ClinicalRisk) => "Consult a cardiologist and perform further diagnostic tests."
      case TableAdvice(HighCombinedRisk) => "Urgent cardiology consultation and aggressive lifestyle modification are needed."
    }
  }

  /** The `message` of a decision that asks for the clinical stage. */
  datatype Message = ClinicalAssessmentRecommended
  {
    function Text(): string
    {
      "Lifestyle profile and/or age suggest that a clinical assessment is recommended."
    }
  }

  /**
   * The dictionary `integrated_decision` returns. A field that is None is a
   * key the dictionary does not have.
   */
  datatype Decision = Decision(
    stage: Stage,
    life: Prediction,
    clin: Option<Prediction>,
    interpretation: Option<Interpretation>,
    recommendation: Option<Recommendation>,
    message: Option<Message>)

  /**
   * `integrated_decision(life_dict, clin_dict)`: `life` is the lifestyle
   * prediction for `life_dict`, and `clin` the clinical prediction for
   * `clin_dict` (None when no clinical data was given).
   */
  function IntegratedDecision(ageCategory: Option<string>, age: AgeField, life: Prediction, clin: Option<Prediction>): (d: Decision)
    ensures d.life == life && d.clin == clin
    ensures d.stage == Combined <==> clin.Some?
    ensures clin.None? ==> (d.stage == LifestyleOnly <==> life.pred == 0 && !OverForty(ageCategory, age))
    ensures clin.None? ==> (d.stage == LifestyleOnlyRisky <==> life.pred == 1 && !OverForty(ageCategory, age))
    ensures clin.None? ==> (d.stage == NeedClinical <==> OverForty(ageCategory, age))
    ensures d.stage == NeedClinical <==> d.message.Some?
    ensures d.stage == NeedClinical <==> d.interpretation.None? && d.recommendation.None?
    ensures d.stage == LifestyleOnly ==> d.interpretation == Some(YoungHealthy) && d.recommendation == Some(KeepHabits)
    ensures d.stage == LifestyleOnlyRisky ==> d.interpretation == Some(YoungRisky) && d.recommendation == Some(ImproveHabits)
    ensures clin.Some? ==> d.interpretation == Some(TableRow(TableVerdict(life.pred, clin.value.pred)))
    ensures clin.Some? ==> d.recommendation == Some(TableAdvice(TableVerdict(life.pred, clin.value.pred)))
  {
    var over40 := OverForty(ageCategory, age);
    match clin
    case None =>
      if life.pred == 0 && !over40 then
        Decision(LifestyleOnly, life, None, Some(YoungHealthy), Some(KeepHabits), None)
      else if life.pred == 1 && !over40 then
        Decision(LifestyleOnlyRisky, life, None, Some(YoungRisky), Some(ImproveHabits), None)
      else
        Decision(NeedClinical, life, None, None, None, Some(ClinicalAssessmentRecommended))
    case Some(c) =>
      var v := TableVerdict(life.pred, c.pred);
      Decision(Combined, life, clin, Some(TableRow(v)), Some(TableAdvice(v)), None)
  }

  /** Without clinical data, a young patient never needs the clinical stage. */
  lemma YoungNeverNeedsClinical(ageCategory: Option<string>, age: AgeField, life: Prediction)
    requires ageCategory.Some? && ageCategory.value in AgeCats[..4]
    ensures IntegratedDecision(ageCategory, age, life, None).stage != NeedClinical
  {
    var i :| 0 <= i < 4 && AgeCats[..4][i] == ageCategory.value;
    OverFortyByPosition(i, age);
  }

  // ------------------------------------------------------------ lifestyle form

  /** The probability from which a lifestyle result counts as high risk. */
  const LifestyleRiskThreshold: real := 0.02

  /** The risk `level` the two forms show. */
  datatype Level = Low | Moderate | High
  {
    function Name(): string
    {
      match this
      case Low => "Low"
      case Moderate => "Moderate"
      case High => "High"
    }

    /** The `message` the lifestyle form shows with the level. */
    function LifestyleMessage(): string
    {
      if this == Moderate then "Your lifestyle profile shows several risk factors. Lifestyle modification is strongly recommended."
      else "Your lifestyle profile appears relatively low risk based on the model."
    }

    /** The `message` the clinical form shows with the level. */
    function ClinicalMessage(): string
    {
      if this == High then "Clinical indicators suggest high risk." else "Clinical risk appears low."
    }
  }

  /** What the lifestyle form's POST handler answers with. */
  datatype LifestylePage =
    | RedirectToClinical(ageCat: string, lifePred: Bit, lifeProba: real)
    | Advice(level: Level, tips: seq<LifestyleAdvice.LifestyleTip>, pred: Bit, proba: real, ageCat: string)

  /**
   * The decision of `lifestyle_form` once `full_lifestyle_eval` has returned.
   * `AGE_CATS.index` raises for a category that is not listed.
   */
  function LifestyleDecision(e: LifestyleAdvice.LifestyleEvaluation): (r: Result<LifestylePage>)
    ensures r.Err? <==> e.life.ageCategory !in AgeCats
    ensures r.Err? ==> r.error == ValueError("Age_Category")
    ensures r.Ok? ==> (r.value.RedirectToClinical? <==>
      e.prediction.proba >= LifestyleRiskThreshold && e.life.ageCategory in AgeCats[4..])
    ensures r.Ok? && r.value.RedirectToClinical? ==>
      r.value == RedirectToClinical(e.life.ageCategory, e.prediction.pred, e.prediction.proba)
    ensures r.Ok? && r.value.Advice? ==>
      && (r.value.level == Moderate <==> e.prediction.proba >= LifestyleRiskThreshold)
      && (r.value.level == Low <==> e.prediction.proba < LifestyleRiskThreshold)
      && r.value.tips == e.tips && r.value.pred == e.prediction.pred
      && r.value.proba == e.prediction.proba && r.value.ageCat == e.life.ageCategory
  {
    var ageCat := e.life.ageCategory;
    match IndexOf(AgeCats, ageCat)
    case None => Err(ValueError("Age_Category"))
    case Some(idx) =>
      IndexFromFour(ageCat);
      var highRisk := e.prediction.proba >= LifestyleRiskThreshold;
      if highRisk && idx >= 4 then
        Ok(RedirectToClinical(ageCat, e.prediction.pred, e.prediction.proba))
      else
        Ok(Advice(if highRisk then Moderate else Low, e.tips, e.prediction.pred, e.prediction.proba, ageCat))
  }

  /** `lifestyle_form` on POST: evaluate the form, then decide. */
  method LifestyleFormPost(form: Form, predict: LifestyleAdvice.LifeDict -> Prediction) returns (r: Result<LifestylePage>)
    ensures LifestyleAdvice.LifeDictOf(form).Err? ==> r == Err(LifestyleAdvice.LifeDictOf(form).error)
    ensures LifestyleAdvice.LifeDictOf(form).Ok? ==>
      var life := LifestyleAdvice.LifeDictOf(form).value;
      r == LifestyleDecision(LifestyleAdvice.LifestyleEvaluation(life, predict(life), LifestyleAdvice.TipsFor(life)))
  {
    var e := LifestyleAdvice.FullLifestyleEval(form, predict);
    if e.Err? {
      return Err(e.error);
    }
    r := LifestyleDecision(e.value);
  }

  // ------------------------------------------------------------ clinical form

  /** `int(x / 2)` for an integer `x`: halving, truncated toward zero. */
  function HalfTowardZero(x: int): (h: int)
    ensures x >= 0 ==> 0 <= h && 2 * h <= x < 2 * h + 2
    ensures x < 0 ==> h <= 0 && 2 * h - 2 < x <= 2 * h
  {
    if x >= 0 then x / 2 else -((-x) / 2)
  }

  /**
   * The `default_age` the clinical form derives from the `age_cat` query
   * argument: the middle of a "lo-hi" range, the number of an "N+" category,
   * None without a (non-empty) category or for any other text. A text with a
   * dash that does not split into two integers, or an "N+" whose N is not an
   * integer, raises ValueError.
   */
  function DefaultAge(ageCat: Option<string>): (r: Result<Option<int>>)
    ensures ageCat.None? || ageCat.value == "" ==> r == Ok(None)
    ensures ageCat.Some? && ageCat.value != "" && '-' !in ageCat.value && ageCat.value[|ageCat.value| - 1] != '+' ==> r == Ok(None)
    ensures ageCat.Some? && ageCat.value != "" && '-' in ageCat.value &&
      (|Split(ageCat.value, '-')| != 2 || ParseInt(Split(ageCat.value, '-')[0]).None? || ParseInt(Split(ageCat.value, '-')[1]).None?)
      ==> r == Err(ValueError("age_cat"))
    ensures ageCat.Some? && ageCat.value != "" && '-' !in ageCat.value && ageCat.value[|ageCat.value| - 1] == '+' ==>
      r == (if ParseInt(ageCat.value[..|ageCat.value| - 1]).Some? then Ok(Some(ParseInt(ageCat.value[..|ageCat.value| - 1]).value))
            else Err(ValueError("age_cat")))
  {
    if ageCat.None? || ageCat.value == "" then Ok(None)
    else
      var s := ageCat.value;
      if '-' in s then
        var parts := Split(s, '-');
        if |parts| != 2 then Err(ValueError("age_cat"))
        else match (ParseInt(parts[0]), ParseInt(parts[1]))
          case (Some(lo), Some(hi)) => Ok(Some(HalfTowardZero(lo + hi)))
          case _ => Err(ValueError("age_cat"))
      else if s[|s| - 1] == '+' then
        match ParseInt(s[..|s| - 1])
        case Some(n) => Ok(Some(n))
        case None => Err(ValueError("age_cat"))
      else Ok(None)
  }

  /** A decimal number does not contain a dash. */
  lemma NoDashInNumeral(n: nat)
    ensures '-' !in NatToString(n)
  {
    var s := NatToString(n);
    assert forall i :: 0 <= i < |s| ==> IsDigit(s[i]);
  }

  /** "lo-hi" splits at its one dash into the two numerals. */
  lemma RangeParts(lo: nat, hi: nat)
    ensures var s := NatToString(lo) + "-" + NatToString(hi);
      '-' in s && Split(s, '-') == [NatToString(lo), NatToString(hi)]
  {
    var a, b := NatToString(lo), NatToString(hi);
    NoDashInNumeral(lo);
    NoDashInNumeral(hi);
    assert (a + "-" + b)[|a|] == '-';
    assert a + "-" + b == a + ['-'] + b;
    SplitAtFirstSeparator(a, '-', b);
    SplitWithoutSeparator(b, '-');
  }

  /** A value with a dash whose two parts are integers defaults to half their sum, rounded toward zero. */
  lemma DefaultAgeOfParts(s: string, lo: int, hi: int)
    requires '-' in s && |Split(s, '-')| == 2
    requires ParseInt(Split(s, '-')[0]) == Some(lo) && ParseInt(Split(s, '-')[1]) == Some(hi)
    ensures DefaultAge(Some(s)) == Ok(Some(HalfTowardZero(lo + hi)))
  {
  }

  /** A range category "lo-hi" defaults to the middle of the range, rounded down. */
  lemma DefaultAgeOfRange(lo: nat, hi: nat)
    ensures DefaultAge(Some(NatToString(lo) + "-" + NatToString(hi))) == Ok(Some((lo + hi) / 2))
  {
    var a, b := NatToString(lo), NatToString(hi);
    RangeParts(lo, hi);
    assert IntToString(lo) == a && IntToString(hi) == b;
    IntToStringRoundTrip(lo);
    IntToStringRoundTrip(hi);
    DefaultAgeOfParts(a + "-" + b, lo, hi);
  }

  /** An open category "N+" defaults to N. */
  lemma DefaultAgeOfOpenRange(n: nat)
    ensures DefaultAge(Some(NatToString(n) + "+")) == Ok(Some(n))
  {
    var a := NatToString(n);
    var s := a + "+";
    NoDashInNumeral(n);
    forall i | 0 <= i < |s| ensures s[i] != '-' {
      if i < |a| {
        assert s[i] == a[i];
      }
    }
    assert s[..|s| - 1] == a;
    IntToStringRoundTrip(n);
  }

  /** The default age of a listed range category lies in the range. */
  lemma ListedRangeDefault(i: nat, lo: nat, hi: nat)
    requires i < |AgeCats| && lo <= hi && AgeCats[i] == NatToString(lo) + "-" + NatToString(hi)
    ensures DefaultAge(Some(AgeCats[i])) == Ok(Some((lo + hi) / 2))
    ensures lo <= (lo + hi) / 2 <= hi
  {
    DefaultAgeOfRange(lo, hi);
  }

  /**
   * Every category the lifestyle form offers gives the clinical form a default
   * age, and that age is 40 or more exactly for the categories counted as over 40.
   */
  lemma ListedCategoriesDefaultAge(i: nat)
    requires i < |AgeCats|
    ensures DefaultAge(Some(AgeCats[i])).Ok? && DefaultAge(Some(AgeCats[i])).value.Some?
    ensures DefaultAge(Some(AgeCats[i])).value.value >= 40 <==> i >= 4
  {
    if i == 12 {
      assert AgeCats[12] == NatToString(80) + "+";
      DefaultAgeOfOpenRange(80);
    } else {
      var lo := if i < 1 then 18 else 20 + 5 * i;
      var hi := if i < 1 then 24 else lo + 4;
      assert AgeCats[i] == NatToString(lo) + "-" + NatToString(hi);
      ListedRangeDefault(i, lo, hi);
    }
  }

  /** The probability from which a clinical result counts as high risk. */
  const ClinicalRiskThreshold: real := 0.5

  /** The `decision` the clinical form shows after a POST; its message is `level.ClinicalMessage()`. */
  datatype ClinicalPage = ClinicalPage(level: Level, pred: Bit, proba: real, tips: seq<ClinicalAdvice.ClinicalTip>)

  /** The decision of `clinical_form` once `full_clinical_eval` has returned. */
  function ClinicalDecision(e: ClinicalAdvice.ClinicalEvaluation): (p: ClinicalPage)
    ensures p.level == High <==> e.prediction.proba >= ClinicalRiskThreshold
    ensures p.level == Low <==> e.prediction.proba < ClinicalRiskThreshold
    ensures p.pred == e.prediction.pred && p.proba == e.prediction.proba && p.tips == e.tips
  {
    ClinicalPage(
      if e.prediction.proba >= ClinicalRiskThreshold then High else Low,
      e.prediction.pred, e.prediction.proba, e.tips)
  }

  /**
   * `clinical_form` on POST: the default age of the `age_cat` query argument
   * is worked out first, so a malformed category fails the request before the
   * form is read; then the form is evaluated and the decision taken.
   */
  method ClinicalFormPost(ageCat: Option<string>, form: Form, predict: ClinicalAdvice.ClinDict -> Prediction)
    returns (r: Result<ClinicalPage>)
    ensures DefaultAge(ageCat).Err? ==> r == Err(DefaultAge(ageCat).error)
    ensures DefaultAge(ageCat).Ok? && ClinicalAdvice.ClinDictOf(form).Err? ==> r == Err(ClinicalAdvice.ClinDictOf(form).error)
    ensures DefaultAge(ageCat).Ok? && ClinicalAdvice.ClinDictOf(form).Ok? ==>
      var clin := ClinicalAdvice.ClinDictOf(form).value;
      r == Ok(ClinicalDecision(ClinicalAdvice.ClinicalEvaluation(clin, predict(clin), ClinicalAdvice.TipsFor(clin))))
  {
    var defaultAge := DefaultAge(ageCat);
    if defaultAge.Err? {
      return Err(defaultAge.error);
    }
    var e := ClinicalAdvice.FullClinicalEval(form, predict);
    if e.Err? {
      return Err(e.error);
    }
    r := Ok(ClinicalDecision(e.value));
  }
}
