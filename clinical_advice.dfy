/**
 * The clinical (stage 2) evaluator: the mapping from the submitted clinical
 * form to the predictor's feature dictionary, and the rule-based tips
 * generator `clinical_tips`.
 */
module ClinicalAdvice {
  import opened Wrappers
  import opened FormFields
  import opened TipLists
  import opened Predictions
  import opened TextOps

  /** The feature dictionary `clin_dict` handed to the clinical predictor. */
  datatype ClinDict = ClinDict(
    age: int,
    restingBp: int,
    cholesterol: int,
    fastingBloodSugar: int,
    fastingBloodSugarMissing: int,
    restingEcg: string,
    maxHeartRate: int,
    exerciseAngina: Bit,
    exerciseAnginaMissing: int,
    oldpeak: real,
    stSlope: string,
    majorVessels: int,
    thalassemia: string,
    chestPainType: string)

  /** One rule of `clinical_tips`. */
  datatype ClinicalTip =
    | SeniorFollowUp | ElevatedBloodPressure | HighNormalBloodPressure
    | HighCholesterol | BorderlineCholesterol | LowMaxHeartRate
    | StDepression | HighFastingSugar | ExerciseAnginaReview
  {
    /** The advice text appended for the rule. */
    function Text(): string
    {
      match this
      case SeniorFollowUp => "Given your age, regular cardiology follow-up and blood pressure monitoring are recommended."
      case ElevatedBloodPressure => "Your resting blood pressure is elevated; discuss antihypertensive treatment with your doctor."
      case HighNormalBloodPressure => "Your blood pressure is in the high-normal range; reduce salt intake and monitor regularly."
      case HighCholesterol => "Your cholesterol is high; consider lipid-lowering therapy and dietary changes."
      case BorderlineCholesterol => "Borderline high cholesterol; improve diet and physical activity."
      case LowMaxHeartRate => "Relatively low maximal heart rate; discuss exercise tolerance and potential ischemia tests."
      case StDepression => "Significant ST depression suggests possible ischemia; further cardiology evaluation is advised."
      case HighFastingSugar => "Elevated fasting blood sugar; screen for diabetes and optimize glycemic control."
      case ExerciseAnginaReview => "Chest pain during exercise is concerning; avoid heavy exertion until cardiology review."
    }
  }

  /** The rules in the order `clinical_tips` tests them. */
  const Catalogue: seq<ClinicalTip> := [
    SeniorFollowUp, ElevatedBloodPressure, HighNormalBloodPressure,
    HighCholesterol, BorderlineCholesterol, LowMaxHeartRate,
    StDepression, HighFastingSugar, ExerciseAnginaReview]

  /** Whether the rule for tip `t` fires on `clin`. */
  predicate Fires(clin: ClinDict, t: ClinicalTip)
  {
    match t
    case SeniorFollowUp => clin.age >= 60
    case ElevatedBloodPressure => clin.restingBp >= 140
    case HighNormalBloodPressure => 130 <= clin.restingBp < 140
    case HighCholesterol => clin.cholesterol >= 240
    case BorderlineCholesterol => 200 <= clin.cholesterol < 240
    case LowMaxHeartRate => clin.maxHeartRate < 100 && clin.age > 50
    case StDepression => clin.oldpeak >= 2.0
    case HighFastingSugar => clin.fastingBloodSugar == 1
    case ExerciseAnginaReview => clin.exerciseAngina == 1
  }

  /** The tips of `clin`: the catalogue filtered by "the rule fires", in catalogue order. */
  function TipsFor(clin: ClinDict): seq<ClinicalTip>
  {
    Filter(Catalogue, t => Fires(clin, t))
  }

  lemma CatalogueEntries()
    ensures |Catalogue| == 9
    ensures Catalogue[0] == SeniorFollowUp && Catalogue[1] == ElevatedBloodPressure
    ensures Catalogue[2] == HighNormalBloodPressure && Catalogue[3] == HighCholesterol
    ensures Catalogue[4] == BorderlineCholesterol && Catalogue[5] == LowMaxHeartRate
    ensures Catalogue[6] == StDepression && Catalogue[7] == HighFastingSugar
    ensures Catalogue[8] == ExerciseAnginaReview
  {
  }

  /**
   * `clinical_tips`: tests the rules one after the other and appends the tip
   * of each rule that fires. The body is split in two: the vital signs (age,
   * blood pressure, cholesterol), then the exercise test and lab results.
   */
  method ClinicalTips(clin: ClinDict) returns (tips: seq<ClinicalTip>)
    ensures tips == TipsFor(clin)
  {
    tips := [];
    tips := AppendVitalSignTips(clin, tips);
    tips := AppendTestResultTips(clin, tips);
    FilterUpToIsFilter(Catalogue, t => Fires(clin, t), |Catalogue|);
    assert Catalogue[..|Catalogue|] == Catalogue;
  }

  /** Age, blood pressure (elevated, else high-normal), cholesterol (high, else borderline). */
  method AppendVitalSignTips(clin: ClinDict, before: seq<ClinicalTip>) returns (tips: seq<ClinicalTip>)
    requires before == FilterUpTo(Catalogue, t => Fires(clin, t), 0)
    ensures tips == FilterUpTo(Catalogue, t => Fires(clin, t), 5)
  {
    CatalogueEntries();
    ghost var fires := t => Fires(clin, t);
    ghost var k: nat := 0;
    tips := before;
    if clin.age >= 60 {
      Kept(Catalogue, fires, k, tips);
      tips := tips + [SeniorFollowUp];
    } else {
      Dropped(Catalogue, fires, k, tips);
    }
    k := k + 1;
    if clin.restingBp >= 140 {
      Kept(Catalogue, fires, k, tips);
      tips := tips + [ElevatedBloodPressure];
      Dropped(Catalogue, fires, k + 1, tips);
    } else if clin.restingBp >= 130 {
      Dropped(Catalogue, fires, k, tips);
      Kept(Catalogue, fires, k + 1, tips);
      tips := tips + [HighNormalBloodPressure];
    } else {
      Dropped(Catalogue, fires, k, tips);
      Dropped(Catalogue, fires, k + 1, tips);
    }
    k := k + 2;
    if clin.cholesterol >= 240 {
      Kept(Catalogue, fires, k, tips);
      tips := tips + [HighCholesterol];
      Dropped(Catalogue, fires, k + 1, tips);
    } else if clin.cholesterol >= 200 {
      Dropped(Catalogue, fires, k, tips);
      Kept(Catalogue, fires, k + 1, tips);
      tips := tips + [BorderlineCholesterol];
    } else {
      Dropped(Catalogue, fires, k, tips);
      Dropped(Catalogue, fires, k + 1, tips);
    }
  }

  /** Maximal heart rate, ST depression, fasting blood sugar and exercise angina. */
  method AppendTestResultTips(clin: ClinDict, before: seq<ClinicalTip>) returns (tips: seq<ClinicalTip>)
    requires before == FilterUpTo(Catalogue, t => Fires(clin, t), 5)
    ensures tips == FilterUpTo(Catalogue, t => Fires(clin, t), 9)
  {
    CatalogueEntries();
    ghost var fires := t => Fires(clin, t);
    ghost var k: nat := 5;
    tips := before;
    if clin.maxHeartRate < 100 && clin.age > 50 {
      Kept(Catalogue, fires, k, tips);
      tips := tips + [LowMaxHeartRate];
    } else {
      Dropped(Catalogue, fires, k, tips);
    }
    k := k + 1;
    if clin.oldpeak >= 2.0 {
      Kept(Catalogue, fires, k, tips);
      tips := tips + [StDepression];
    } else {
      Dropped(Catalogue, fires, k, tips);
    }
    k := k + 1;
    if clin.fastingBloodSugar == 1 {
      Kept(Catalogue, fires, k, tips);
      tips := tips + [HighFastingSugar];
    } else {
      Dropped(Catalogue, fires, k, tips);
    }
    k := k + 1;
    if clin.exerciseAngina == 1 {
      Kept(Catalogue, fires, k, tips);
      tips := tips + [ExerciseAnginaReview];
    } else {
      Dropped(Catalogue, fires, k, tips);
    }
  }

  lemma EveryTipCatalogued(t: ClinicalTip)
    ensures t in Catalogue
  {
  }

  /** A tip is in the list exactly when its rule fires. */
  lemma TipsForMembers(clin: ClinDict)
    ensures forall t :: t in TipsFor(clin) <==> Fires(clin, t)
  {
    forall t | true ensures t in Catalogue {
      EveryTipCatalogued(t);
    }
  }

  /** The tips keep the catalogue order and none is given twice. */
  lemma TipsForOrderedAndDistinct(clin: ClinDict)
    ensures IsSubsequence(TipsFor(clin), Catalogue)
    ensures NoDuplicates(TipsFor(clin))
  {
    FilterIsSubsequence(Catalogue, t => Fires(clin, t));
    CatalogueDistinct();
    FilterNoDuplicates(Catalogue, t => Fires(clin, t));
  }

  lemma CatalogueDistinct()
    ensures NoDuplicates(Catalogue)
  {
    CatalogueEntries();
  }

  /** Each threshold rule gives its tip exactly when its threshold is met. */
  lemma ThresholdTips(clin: ClinDict)
    ensures SeniorFollowUp in TipsFor(clin) <==> clin.age >= 60
    ensures ElevatedBloodPressure in TipsFor(clin) <==> clin.restingBp >= 140
    ensures HighNormalBloodPressure in TipsFor(clin) <==> 130 <= clin.restingBp < 140
    ensures HighCholesterol in TipsFor(clin) <==> clin.cholesterol >= 240
    ensures BorderlineCholesterol in TipsFor(clin) <==> 200 <= clin.cholesterol < 240
    ensures LowMaxHeartRate in TipsFor(clin) <==> clin.maxHeartRate < 100 && clin.age > 50
    ensures StDepression in TipsFor(clin) <==> clin.oldpeak >= 2.0
    ensures HighFastingSugar in TipsFor(clin) <==> clin.fastingBloodSugar == 1
    ensures ExerciseAnginaReview in TipsFor(clin) <==> clin.exerciseAngina == 1
  {
    TipsForMembers(clin);
  }

  /** The two blood-pressure tips, and the two cholesterol tips, come from if/elif pairs: never both. */
  lemma ExclusivePairs(clin: ClinDict)
    ensures !(ElevatedBloodPressure in TipsFor(clin) && HighNormalBloodPressure in TipsFor(clin))
    ensures !(HighCholesterol in TipsFor(clin) && BorderlineCholesterol in TipsFor(clin))
  {
    TipsForMembers(clin);
  }

  /** Every tip but the second of each if/elif pair. */
  const FirstChoiceTips: set<ClinicalTip> := {
    SeniorFollowUp, ElevatedBloodPressure, HighCholesterol, LowMaxHeartRate,
    StDepression, HighFastingSugar, ExerciseAnginaReview}

  lemma FirstChoiceTipsCount()
    ensures |FirstChoiceTips| == 7
  {
  }

  /** The tip `Swap` maps each given tip to, so that distinct given tips stay distinct. */
  function Swap(t: ClinicalTip): ClinicalTip
  {
    match t
    case HighNormalBloodPressure => ElevatedBloodPressure
    case BorderlineCholesterol => HighCholesterol
    case _ => t
  }

  /** Two different tips that are both given stay different after `Swap`. */
  lemma SwapSeparatesGivenTips(clin: ClinDict, a: ClinicalTip, b: ClinicalTip)
    requires Fires(clin, a) && Fires(clin, b) && a != b
    ensures Swap(a) != Swap(b)
  {
  }

  lemma SwapIntoFirstChoice(t: ClinicalTip)
    ensures Swap(t) in FirstChoiceTips
  {
  }

  /** At most seven tips are given: one per rule, the if/elif pairs counting once. */
  lemma TipsForAtMostSeven(clin: ClinDict)
    ensures |TipsFor(clin)| <= 7
  {
    TipsForOrderedAndDistinct(clin);
    TipsForMembers(clin);
    DistinctGivenTipsAtMostSeven(clin, TipsFor(clin));
  }

  /** Any list of distinct tips that all fire on `clin` has at most seven entries. */
  lemma DistinctGivenTipsAtMostSeven(clin: ClinDict, tips: seq<ClinicalTip>)
    requires NoDuplicates(tips)
    requires forall t :: t in tips ==> Fires(clin, t)
    ensures |tips| <= 7
  {
    var swapped := seq(|tips|, i requires 0 <= i < |tips| => Swap(tips[i]));
    forall i, j | 0 <= i < j < |swapped| ensures swapped[i] != swapped[j] {
      SwapSeparatesGivenTips(clin, tips[i], tips[j]);
    }
    forall x | x in swapped ensures x in FirstChoiceTips {
      var i :| 0 <= i < |swapped| && swapped[i] == x;
      SwapIntoFirstChoice(tips[i]);
    }
    FirstChoiceTipsCount();
    DistinctLengthBound(swapped, FirstChoiceTips);
  }

  // ------------------------------------------------------------ full_clinical_eval

  /**
   * The `clin_dict` literal of `full_clinical_eval`. Its values are evaluated
   * in order, so the first missing required field or the first value `int` or
   * `float` rejects is the error raised.
   */
  function ClinDictOf(form: Form): (r: Result<ClinDict>)
    ensures r.Ok? ==> r.value.fastingBloodSugarMissing == 0 && r.value.exerciseAnginaMissing == 0
    ensures r.Ok? ==> (r.value.exerciseAngina == 1 <==> "exAngina" in form && form["exAngina"] == "Yes")
  {
    var age :- RequiredInt(form, "age");
    var bp :- RequiredInt(form, "restingBP");
    var chol :- RequiredInt(form, "cholesterol");
    var fbs :- IntOr(form, "fbs", 0);
    var maxHr :- RequiredInt(form, "maxHR");
    var oldpeak :- RequiredReal(form, "oldpeak");
    var vessels :- IntOr(form, "vessels", 0);
    var chestPain :- Required(form, "chestPain");
    Ok(ClinDict(
      age, bp, chol, fbs, 0, TextOr(form, "restingECG", "Normal"), maxHr,
      if TextOr(form, "exAngina", "") == "Yes" then 1 else 0, 0, oldpeak,
      TextOr(form, "slope", "Up"), vessels, TextOr(form, "thal", "Normal"), chestPain))
  }

  /** A submitted optional integer: absent, or text `int` accepts (an empty field is rejected). */
  predicate OptionalIntOk(form: Form, key: string)
  {
    key !in form || ParseInt(form[key]).Some?
  }

  /** The mapping succeeds exactly when the required numbers parse, the chest pain type is present and the optional numbers present parse. */
  lemma ClinDictOfSucceeds(form: Form)
    ensures ClinDictOf(form).Ok? <==>
      && "age" in form && ParseInt(form["age"]).Some?
      && "restingBP" in form && ParseInt(form["restingBP"]).Some?
      && "cholesterol" in form && ParseInt(form["cholesterol"]).Some?
      && "maxHR" in form && ParseInt(form["maxHR"]).Some?
      && "oldpeak" in form && ParseReal(form["oldpeak"]).Some?
      && "chestPain" in form
      && OptionalIntOk(form, "fbs") && OptionalIntOk(form, "vessels")
  {
  }

  /** The optional fields take their documented defaults when absent. */
  lemma ClinDictOfDefaults(form: Form)
    requires ClinDictOf(form).Ok?
    ensures "fbs" !in form ==> ClinDictOf(form).value.fastingBloodSugar == 0
    ensures "vessels" !in form ==> ClinDictOf(form).value.majorVessels == 0
    ensures "restingECG" !in form ==> ClinDictOf(form).value.restingEcg == "Normal"
    ensures "slope" !in form ==> ClinDictOf(form).value.stSlope == "Up"
    ensures "thal" !in form ==> ClinDictOf(form).value.thalassemia == "Normal"
  {
    assert IntOr(form, "fbs", 0).Ok? && IntOr(form, "vessels", 0).Ok?;
  }

  /**
   * The required numbers are `int` (or `float`) of their text, the chest pain
   * type is copied, and each optional field that was submitted is taken from
   * the form.
   */
  lemma ClinDictOfCopies(form: Form)
    requires ClinDictOf(form).Ok?
    ensures "age" in form && Some(ClinDictOf(form).value.age) == ParseInt(form["age"])
    ensures "restingBP" in form && Some(ClinDictOf(form).value.restingBp) == ParseInt(form["restingBP"])
    ensures "cholesterol" in form && Some(ClinDictOf(form).value.cholesterol) == ParseInt(form["cholesterol"])
    ensures "maxHR" in form && Some(ClinDictOf(form).value.maxHeartRate) == ParseInt(form["maxHR"])
    ensures "oldpeak" in form && Some(ClinDictOf(form).value.oldpeak) == ParseReal(form["oldpeak"])
    ensures "chestPain" in form && ClinDictOf(form).value.chestPainType == form["chestPain"]
    ensures "fbs" in form ==> Some(ClinDictOf(form).value.fastingBloodSugar) == ParseInt(form["fbs"])
    ensures "vessels" in form ==> Some(ClinDictOf(form).value.majorVessels) == ParseInt(form["vessels"])
    ensures "restingECG" in form ==> ClinDictOf(form).value.restingEcg == form["restingECG"]
    ensures "slope" in form ==> ClinDictOf(form).value.stSlope == form["slope"]
    ensures "thal" in form ==> ClinDictOf(form).value.thalassemia == form["thal"]
  {
  }

  /** Without a fasting blood sugar answer and a "Yes" to exercise angina, neither of those tips is given. */
  lemma UnansweredFlagsGiveNoTips(form: Form)
    requires ClinDictOf(form).Ok?
    requires "fbs" !in form
    requires "exAngina" !in form || form["exAngina"] != "Yes"
    ensures HighFastingSugar !in TipsFor(ClinDictOf(form).value)
    ensures ExerciseAnginaReview !in TipsFor(ClinDictOf(form).value)
  {
    ClinDictOfDefaults(form);
    ThresholdTips(ClinDictOf(form).value);
  }

  /** What `full_clinical_eval` returns: the feature dictionary, the prediction and the tips. */
  datatype ClinicalEvaluation = ClinicalEvaluation(clin: ClinDict, prediction: Prediction, tips: seq<ClinicalTip>)

  /**
   * `full_clinical_eval`: builds the feature dictionary, asks the predictor
   * (a parameter here) and computes the tips.
   */
  method FullClinicalEval(form: Form, predict: ClinDict -> Prediction) returns (r: Result<ClinicalEvaluation>)
    ensures ClinDictOf(form).Err? ==> r == Err(ClinDictOf(form).error)
    ensures ClinDictOf(form).Ok? ==>
      r == Ok(ClinicalEvaluation(ClinDictOf(form).value, predict(ClinDictOf(form).value), TipsFor(ClinDictOf(form).value)))
  {
    var built := ClinDictOf(form);
    if built.Err? {
      return Err(built.error);
    }
    var clin := built.value;
    var prediction := predict(clin);
    var tips := ClinicalTips(clin);
    r := Ok(ClinicalEvaluation(clin, prediction, tips));
  }
}
