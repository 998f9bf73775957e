/**
 * The lifestyle (stage 1) evaluator: the mapping from the submitted lifestyle
 * form to the predictor's feature dictionary, and the rule-based tips
 * generator `lifestyle_tips`.
 */
module LifestyleAdvice {
  import opened Wrappers
  import opened FormFields
  import opened TipLists
  import opened Predictions
  import opened TextOps

  /** The feature dictionary `life_dict` handed to the lifestyle predictor. */
  datatype LifeDict = LifeDict(
    generalHealth: string,
    checkup: string,
    exercise: string,
    heartDisease: string,
    skinCancer: string,
    otherCancer: string,
    depression: string,
    diabetes: string,
    arthritis: string,
    sex: string,
    ageCategory: string,
    heightCm: real,
    weightKg: real,
    bmi: real,
    smokingHistory: string,
    alcohol: real,
    fruit: real,
    greenVegetables: real,
    friedPotato: real)

  /** One rule of `lifestyle_tips`; the list of tips is built from these. */
  datatype LifestyleTip =
    | LowGeneralHealth | CheckupOverdue | NoExercise | Smoker | DrinksAlcohol
    | Obese | Overweight | LowFruitAndVegetables | FriedFood | DiabetesCare
    | Depressed | ArthritisMobility | OlderAge
  {
    /** The advice text appended for the rule. */
    function Text(): string
    {
      match this
      case LowGeneralHealth => "Your general health self-rating is low; schedule a full checkup and discuss preventive strategies with your doctor."
      case CheckupOverdue => "You have not had a recent medical checkup; consider booking a routine heart and metabolic screening."
      case NoExercise => "Regular physical activity (at least 150 minutes of moderate exercise per week) can significantly reduce heart risk."
      case Smoker => "Smoking greatly increases cardiovascular risk; join a smoking cessation program and avoid tobacco exposure."
      case DrinksAlcohol => "Limit or avoid alcohol intake to reduce blood pressure and improve heart and liver health."
      case Obese => "Your BMI is in the obese range; a structured weight-loss plan with dietitian support is recommended."
      case Overweight => "Your BMI is in the overweight range; modest weight reduction and increased activity can lower heart risk."
      case LowFruitAndVegetables => "Increase your daily intake of fruits and green vegetables to at least 5 servings per day."
      case FriedFood => "Reduce fried and fast foods to lower bad cholesterol and support healthy weight."
      case DiabetesCare => "Monitor your blood sugar regularly and follow your diabetes care plan to protect your heart and kidneys."
      case Depressed => "Depressive symptoms can affect heart health; consider speaking with a mental health professional."
      case ArthritisMobility => "Joint issues can limit activity; ask your doctor or physiotherapist for low\U{2011}impact exercise options."
      case OlderAge => "Given your age, regular blood pressure, cholesterol, and heart rhythm checks are especially important."
    }
  }

  /** The rules in the order `lifestyle_tips` tests them. */
  const Catalogue: seq<LifestyleTip> := [
    LowGeneralHealth, CheckupOverdue, NoExercise, Smoker, DrinksAlcohol,
    Obese, Overweight, LowFruitAndVegetables, FriedFood, DiabetesCare,
    Depressed, ArthritisMobility, OlderAge]

  /** The age categories that trigger the age tip. */
  const SeniorAgeCategories: set<string> := {"60-64", "65-69", "70-74", "75-79", "80+"}

  /** Whether the rule for tip `t` fires on `row`. */
  predicate Fires(row: LifeDict, t: LifestyleTip)
  {
    match t
    case LowGeneralHealth => row.generalHealth == "Fair" || row.generalHealth == "Poor"
    case CheckupOverdue => row.checkup == "5 or more years ago" || row.checkup == "Never"
    case NoExercise => row.exercise == "No"
    case Smoker => row.smokingHistory == "Yes"
    case DrinksAlcohol => row.alcohol > 0.0
    case Obese => row.bmi >= 30.0
    case Overweight => 25.0 <= row.bmi < 30.0
    case LowFruitAndVegetables => row.fruit < 20.0 || row.greenVegetables < 10.0
    case FriedFood => row.friedPotato > 8.0
    case DiabetesCare => row.diabetes == "Yes" || row.diabetes == "Borderline"
    case Depressed => row.depression == "Yes"
    case ArthritisMobility => row.arthritis == "Yes"
    case OlderAge => row.ageCategory in SeniorAgeCategories
  }

  /** The tips of `row`: the catalogue filtered by "the rule fires", in catalogue order. */
  function TipsFor(row: LifeDict): seq<LifestyleTip>
  {
    Filter(Catalogue, t => Fires(row, t))
  }

  lemma CatalogueEntries()
    ensures |Catalogue| == 13
    ensures Catalogue[0] == LowGeneralHealth && Catalogue[1] == CheckupOverdue
    ensures Catalogue[2] == NoExercise && Catalogue[3] == Smoker
    ensures Catalogue[4] == DrinksAlcohol && Catalogue[5] == Obese
    ensures Catalogue[6] == Overweight && Catalogue[7] == LowFruitAndVegetables
    ensures Catalogue[8] == FriedFood && Catalogue[9] == DiabetesCare
    ensures Catalogue[10] == Depressed && Catalogue[11] == ArthritisMobility
    ensures Catalogue[12] == OlderAge
  {
  }

  lemma EveryTipCatalogued(t: LifestyleTip)
    ensures t in Catalogue
  {
  }

  /**
   * `lifestyle_tips`: tests the rules one after the other and appends the tip
   * of each rule that fires. The body is split into four groups of rules
   * (self-rated health, checkup and exercise; smoking and alcohol; weight and
   * diet; conditions and age); each group appends to the list it is handed.
   */
  method LifestyleTips(row: LifeDict) returns (tips: seq<LifestyleTip>)
    ensures tips == TipsFor(row)
  {
    tips := [];
    tips := AppendHabitTips(row, tips);
    tips := AppendSubstanceTips(row, tips);
    tips := AppendWeightAndDietTips(row, tips);
    tips := AppendConditionTips(row, tips);
    FilterUpToIsFilter(Catalogue, t => Fires(row, t), |Catalogue|);
    assert Catalogue[..|Catalogue|] == Catalogue;
  }

  /** General health, checkup recency and exercise. */
  method AppendHabitTips(row: LifeDict, before: seq<LifestyleTip>) returns (tips: seq<LifestyleTip>)
    requires before == FilterUpTo(Catalogue, t => Fires(row, t), 0)
    ensures tips == FilterUpTo(Catalogue, t => Fires(row, t), 3)
  {
    CatalogueEntries();
    ghost var fires := t => Fires(row, t);
    tips := before;
    ghost var k: nat := 0;
    if row.generalHealth == "Fair" || row.generalHealth == "Poor" {
      Kept(Catalogue, fires, k, tips);
      tips := tips + [LowGeneralHealth];
    } else {
      Dropped(Catalogue, fires, k, tips);
    }
    k := k + 1;
    if row.checkup == "5 or more years ago" || row.checkup == "Never" {
      Kept(Catalogue, fires, k, tips);
      tips := tips + [CheckupOverdue];
    } else {
      Dropped(Catalogue, fires, k, tips);
    }
    k := k + 1;
    if row.exercise == "No" {
      Kept(Catalogue, fires, k, tips);
      tips := tips + [NoExercise];
    } else {
      Dropped(Catalogue, fires, k, tips);
    }
  }

  /** Smoking and alcohol. */
  method AppendSubstanceTips(row: LifeDict, before: seq<LifestyleTip>) returns (tips: seq<LifestyleTip>)
    requires before == FilterUpTo(Catalogue, t => Fires(row, t), 3)
    ensures tips == FilterUpTo(Catalogue, t => Fires(row, t), 5)
  {
    CatalogueEntries();
    ghost var fires := t => Fires(row, t);
    tips := before;
    ghost var k: nat := 3;
    if row.smokingHistory == "Yes" {
      Kept(Catalogue, fires, k, tips);
      tips := tips + [Smoker];
    } else {
      Dropped(Catalogue, fires, k, tips);
    }
    k := k + 1;
    if row.alcohol > 0.0 {
      Kept(Catalogue, fires, k, tips);
      tips := tips + [DrinksAlcohol];
    } else {
      Dropped(Catalogue, fires, k, tips);
    }
  }

  /** BMI (obese, else overweight), fruit and vegetables, fried food. */
  method AppendWeightAndDietTips(row: LifeDict, before: seq<LifestyleTip>) returns (tips: seq<LifestyleTip>)
    requires before == FilterUpTo(Catalogue, t => Fires(row, t), 5)
    ensures tips == FilterUpTo(Catalogue, t => Fires(row, t), 9)
  {
    CatalogueEntries();
    ghost var fires := t => Fires(row, t);
    tips := before;
    ghost var k: nat := 5;
    if row.bmi >= 30.0 {
      Kept(Catalogue, fires, k, tips);
      tips := tips + [Obese];
      Dropped(Catalogue, fires, k + 1, tips);
    } else if row.bmi >= 25.0 {
      Dropped(Catalogue, fires, k, tips);
      Kept(Catalogue, fires, k + 1, tips);
      tips := tips + [Overweight];
    } else {
      Dropped(Catalogue, fires, k, tips);
      Dropped(Catalogue, fires, k + 1, tips);
    }
    k := k + 2;
    if row.fruit < 20.0 || row.greenVegetables < 10.0 {
      Kept(Catalogue, fires, k, tips);
      tips := tips + [LowFruitAndVegetables];
    } else {
      Dropped(Catalogue, fires, k, tips);
    }
    k := k + 1;
    if row.friedPotato > 8.0 {
      Kept(Catalogue, fires, k, tips);
      tips := tips + [FriedFood];
    } else {
      Dropped(Catalogue, fires, k, tips);
    }
  }

  /** Diabetes, depression, arthritis and the age category. */
  method AppendConditionTips(row: LifeDict, before: seq<LifestyleTip>) returns (tips: seq<LifestyleTip>)
    requires before == FilterUpTo(Catalogue, t => Fires(row, t), 9)
    ensures tips == FilterUpTo(Catalogue, t => Fires(row, t), 13)
  {
    CatalogueEntries();
    ghost var fires := t => Fires(row, t);
    tips := before;
    ghost var k: nat := 9;
    if row.diabetes == "Yes" || row.diabetes == "Borderline" {
      Kept(Catalogue, fires, k, tips);
      tips := tips + [DiabetesCare];
    } else {
      Dropped(Catalogue, fires, k, tips);
    }
    k := k + 1;
    if row.depression == "Yes" {
      Kept(Catalogue, fires, k, tips);
      tips := tips + [Depressed];
    } else {
      Dropped(Catalogue, fires, k, tips);
    }
    k := k + 1;
    if row.arthritis == "Yes" {
      Kept(Catalogue, fires, k, tips);
      tips := tips + [ArthritisMobility];
    } else {
      Dropped(Catalogue, fires, k, tips);
    }
    k := k + 1;
    if row.ageCategory in ["60-64", "65-69", "70-74", "75-79", "80+"] {
      Kept(Catalogue, fires, k, tips);
      tips := tips + [OlderAge];
    } else {
      Dropped(Catalogue, fires, k, tips);
    }
  }

  /** A tip is in the list exactly when its rule fires. */
  lemma TipsForMembers(row: LifeDict)
    ensures forall t :: t in TipsFor(row) <==> Fires(row, t)
  {
    forall t | true ensures t in Catalogue {
      EveryTipCatalogued(t);
    }
  }

  /** The tips keep the catalogue order. */
  lemma TipsForOrdered(row: LifeDict)
    ensures IsSubsequence(TipsFor(row), Catalogue)
  {
    FilterIsSubsequence(Catalogue, t => Fires(row, t));
  }

  lemma CatalogueDistinct()
    ensures NoDuplicates(Catalogue)
  {
    CatalogueEntries();
  }

  /** No tip is given twice. */
  lemma TipsForDistinct(row: LifeDict)
    ensures NoDuplicates(TipsFor(row))
  {
    CatalogueDistinct();
    FilterNoDuplicates(Catalogue, t => Fires(row, t));
  }

  /** The two BMI tips come from one if/elif, so never both are given ... */
  lemma ObeseOrOverweight(row: LifeDict)
    ensures !(Obese in TipsFor(row) && Overweight in TipsFor(row))
    ensures Obese in TipsFor(row) <==> row.bmi >= 30.0
    ensures Overweight in TipsFor(row) <==> 25.0 <= row.bmi < 30.0
  {
    TipsForMembers(row);
  }

  /** Every tip but the two BMI tips. */
  const NonBmiTips: set<LifestyleTip> := {
    LowGeneralHealth, CheckupOverdue, NoExercise, Smoker, DrinksAlcohol,
    LowFruitAndVegetables, FriedFood, DiabetesCare, Depressed, ArthritisMobility, OlderAge}

  lemma NonBmiTipsCount()
    ensures |NonBmiTips| == 11 && Obese !in NonBmiTips && Overweight !in NonBmiTips
  {
  }

  /** A tip that is given is a non-BMI tip or the one BMI tip the BMI selects. */
  lemma GivenTipKind(row: LifeDict, t: LifestyleTip)
    requires Fires(row, t)
    ensures t in NonBmiTips + {if row.bmi >= 30.0 then Obese else Overweight}
  {
  }

  /** ... and so at most twelve of the thirteen tips are given. */
  lemma TipsForAtMostTwelve(row: LifeDict)
    ensures |TipsFor(row)| <= 12
  {
    TipsForDistinct(row);
    TipsForMembers(row);
    var bmiTip := if row.bmi >= 30.0 then Obese else Overweight;
    forall t | t in TipsFor(row) ensures t in NonBmiTips + {bmiTip} {
      GivenTipKind(row, t);
    }
    NonBmiTipsCount();
    DistinctLengthBound(TipsFor(row), NonBmiTips + {bmiTip});
  }

  /** The diet, alcohol, fried-food and age tips, each exactly when its threshold is met. */
  lemma ThresholdTips(row: LifeDict)
    ensures LowFruitAndVegetables in TipsFor(row) <==> row.fruit < 20.0 || row.greenVegetables < 10.0
    ensures DrinksAlcohol in TipsFor(row) <==> row.alcohol > 0.0
    ensures FriedFood in TipsFor(row) <==> row.friedPotato > 8.0
    ensures OlderAge in TipsFor(row) <==> row.ageCategory in SeniorAgeCategories
  {
    TipsForMembers(row);
  }

  // ------------------------------------------------------------ full_lifestyle_eval

  /**
   * The `life_dict` literal of `full_lifestyle_eval`. Its values are evaluated
   * in order, so the first missing required field or the first value `float`
   * rejects is the error raised.
   */
  function LifeDictOf(form: Form): (r: Result<LifeDict>)
    ensures r.Ok? ==>
      && r.value.checkup == "Within the past year"
      && r.value.heartDisease == "No" && r.value.skinCancer == "No" && r.value.otherCancer == "No"
      && r.value.depression == "No" && r.value.arthritis == "No"
  {
    var generalHealth :- Required(form, "generalHealth");
    var exercise :- Required(form, "exercise");
    var diabetes :- Required(form, "diabetes");
    var sex :- Required(form, "sex");
    var ageCategory :- Required(form, "ageCategory");
    var height :- RealOr(form, "height", 170.0);
    var weight :- RealOr(form, "weight", 70.0);
    var bmi :- RequiredReal(form, "bmi");
    var smoking :- Required(form, "smoking");
    var diet :- DietOf(form);
    Ok(LifeDict(
      generalHealth, "Within the past year", exercise, "No", "No", "No", "No",
      diabetes, "No", sex, ageCategory, height, weight, bmi, smoking,
      diet.alcohol, diet.fruit, diet.greenVegetables, diet.friedPotato))
  }

  /** The four diet answers of the lifestyle form. */
  datatype Diet = Diet(alcohol: real, fruit: real, greenVegetables: real, friedPotato: real)

  /** The last four values of `life_dict`, each `float(form.get(key, d) or d)`. */
  function DietOf(form: Form): (r: Result<Diet>)
    ensures r.Ok? && ("alcohol" !in form || form["alcohol"] == "") ==> r.value.alcohol == 0.0
    ensures r.Ok? && ("fruit" !in form || form["fruit"] == "") ==> r.value.fruit == 30.0
    ensures r.Ok? && ("veg" !in form || form["veg"] == "") ==> r.value.greenVegetables == 15.0
    ensures r.Ok? && ("fried" !in form || form["fried"] == "") ==> r.value.friedPotato == 4.0
    ensures r.Ok? <==> OptionalRealOk(form, "alcohol") && OptionalRealOk(form, "fruit")
                       && OptionalRealOk(form, "veg") && OptionalRealOk(form, "fried")
    ensures r.Ok? && "alcohol" in form && form["alcohol"] != "" ==> Some(r.value.alcohol) == ParseReal(form["alcohol"])
    ensures r.Ok? && "fruit" in form && form["fruit"] != "" ==> Some(r.value.fruit) == ParseReal(form["fruit"])
    ensures r.Ok? && "veg" in form && form["veg"] != "" ==> Some(r.value.greenVegetables) == ParseReal(form["veg"])
    ensures r.Ok? && "fried" in form && form["fried"] != "" ==> Some(r.value.friedPotato) == ParseReal(form["fried"])
  {
    var alcohol :- RealOr(form, "alcohol", 0.0);
    var fruit :- RealOr(form, "fruit", 30.0);
    var veg :- RealOr(form, "veg", 15.0);
    var fried :- RealOr(form, "fried", 4.0);
    Ok(Diet(alcohol, fruit, veg, fried))
  }

  /** A submitted optional number: absent or empty, or text `float` accepts. */
  predicate OptionalRealOk(form: Form, key: string)
  {
    key !in form || form[key] == "" || ParseReal(form[key]).Some?
  }

  /** The mapping succeeds exactly when every required field is present, the BMI parses and every optional number present parses. */
  lemma LifeDictOfSucceeds(form: Form)
    ensures LifeDictOf(form).Ok? <==>
      && "generalHealth" in form && "exercise" in form && "diabetes" in form
      && "sex" in form && "ageCategory" in form && "smoking" in form
      && "bmi" in form && ParseReal(form["bmi"]).Some?
      && OptionalRealOk(form, "height") && OptionalRealOk(form, "weight")
      && OptionalRealOk(form, "alcohol") && OptionalRealOk(form, "fruit")
      && OptionalRealOk(form, "veg") && OptionalRealOk(form, "fried")
  {
  }

  /** Optional numbers take their documented default when absent or empty. */
  lemma LifeDictOfDefaults(form: Form)
    requires LifeDictOf(form).Ok?
    ensures "height" !in form || form["height"] == "" ==> LifeDictOf(form).value.heightCm == 170.0
    ensures "weight" !in form || form["weight"] == "" ==> LifeDictOf(form).value.weightKg == 70.0
    ensures "alcohol" !in form || form["alcohol"] == "" ==> LifeDictOf(form).value.alcohol == 0.0
    ensures "fruit" !in form || form["fruit"] == "" ==> LifeDictOf(form).value.fruit == 30.0
    ensures "veg" !in form || form["veg"] == "" ==> LifeDictOf(form).value.greenVegetables == 15.0
    ensures "fried" !in form || form["fried"] == "" ==> LifeDictOf(form).value.friedPotato == 4.0
  {
    assert RealOr(form, "height", 170.0).Ok? && RealOr(form, "weight", 70.0).Ok?;
    assert DietOf(form).Ok?;
  }

  /**
   * The submitted answers are copied as they are, the BMI is
   * `float(form["bmi"])` and every optional number that was filled in is
   * `float` of its text.
   */
  lemma LifeDictOfCopies(form: Form)
    requires LifeDictOf(form).Ok?
    ensures "generalHealth" in form && LifeDictOf(form).value.generalHealth == form["generalHealth"]
    ensures "exercise" in form && LifeDictOf(form).value.exercise == form["exercise"]
    ensures "diabetes" in form && LifeDictOf(form).value.diabetes == form["diabetes"]
    ensures "sex" in form && LifeDictOf(form).value.sex == form["sex"]
    ensures "ageCategory" in form && LifeDictOf(form).value.ageCategory == form["ageCategory"]
    ensures "smoking" in form && LifeDictOf(form).value.smokingHistory == form["smoking"]
    ensures "bmi" in form && Some(LifeDictOf(form).value.bmi) == ParseReal(form["bmi"])
    ensures "height" in form && form["height"] != "" ==> Some(LifeDictOf(form).value.heightCm) == ParseReal(form["height"])
    ensures "weight" in form && form["weight"] != "" ==> Some(LifeDictOf(form).value.weightKg) == ParseReal(form["weight"])
    ensures "alcohol" in form && form["alcohol"] != "" ==> Some(LifeDictOf(form).value.alcohol) == ParseReal(form["alcohol"])
    ensures "fruit" in form && form["fruit"] != "" ==> Some(LifeDictOf(form).value.fruit) == ParseReal(form["fruit"])
    ensures "veg" in form && form["veg"] != "" ==> Some(LifeDictOf(form).value.greenVegetables) == ParseReal(form["veg"])
    ensures "fried" in form && form["fried"] != "" ==> Some(LifeDictOf(form).value.friedPotato) == ParseReal(form["fried"])
  {
  }

  /** The checkup, depression and arthritis tips are never given through the lifestyle form. */
  lemma FormNeverGivesFixedTips(form: Form)
    requires LifeDictOf(form).Ok?
    ensures CheckupOverdue !in TipsFor(LifeDictOf(form).value)
    ensures Depressed !in TipsFor(LifeDictOf(form).value)
    ensures ArthritisMobility !in TipsFor(LifeDictOf(form).value)
  {
    FixedAnswersGiveNoTips(LifeDictOf(form).value);
  }

  lemma FixedAnswersGiveNoTips(life: LifeDict)
    requires life.checkup == "Within the past year" && life.depression == "No" && life.arthritis == "No"
    ensures CheckupOverdue !in TipsFor(life) && Depressed !in TipsFor(life) && ArthritisMobility !in TipsFor(life)
  {
    TipsForMembers(life);
  }

  /** Leaving the diet questions out gives no alcohol, diet or fried-food tip. */
  lemma DietDefaultsGiveNoDietTips(form: Form)
    requires LifeDictOf(form).Ok?
    requires "alcohol" !in form && "fruit" !in form && "veg" !in form && "fried" !in form
    ensures DrinksAlcohol !in TipsFor(LifeDictOf(form).value)
    ensures LowFruitAndVegetables !in TipsFor(LifeDictOf(form).value)
    ensures FriedFood !in TipsFor(LifeDictOf(form).value)
  {
    LifeDictOfDefaults(form);
    ThresholdTips(LifeDictOf(form).value);
  }

  /** What `full_lifestyle_eval` returns: the feature dictionary, the prediction and the tips. */
  datatype LifestyleEvaluation = LifestyleEvaluation(life: LifeDict, prediction: Prediction, tips: seq<LifestyleTip>)

  /**
   * `full_lifestyle_eval`: builds the feature dictionary, asks the predictor
   * (a parameter here) and computes the tips.
   */
  method FullLifestyleEval(form: Form, predict: LifeDict -> Prediction) returns (r: Result<LifestyleEvaluation>)
    ensures LifeDictOf(form).Err? ==> r == Err(LifeDictOf(form).error)
    ensures LifeDictOf(form).Ok? ==>
      r == Ok(LifestyleEvaluation(LifeDictOf(form).value, predict(LifeDictOf(form).value), TipsFor(LifeDictOf(form).value)))
  {
    var built := LifeDictOf(form);
    if built.Err? {
      return Err(built.error);
    }
    var life := built.value;
    var prediction := predict(life);
    var tips := LifestyleTips(life);
    r := Ok(LifestyleEvaluation(life, prediction, tips));
  }
}
