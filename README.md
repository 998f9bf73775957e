# Cardiovascular risk assessment — a Dafny model of its decision core

The system screens a patient for cardiovascular risk in two stages:

- **Lifestyle stage.** A lifestyle questionnaire (general health, exercise, smoking, BMI, diet, age category, …) feeds a lifestyle model.
- **Clinical stage.** A clinical form (resting blood pressure, cholesterol, maximum heart rate, ST depression, …) feeds a clinical model.

A Flask decision layer combines the two predictions. It decides whether a patient must go on to the clinical stage, which happens when they are over forty. It also picks the interpretation and the recommendation from a two-by-two table. Each stage also produces rule-based advice tips.

A patient portal (React) signs patients in and shows their latest assessments, their history and the advice tips. A dashboard (React) turns survey rows into chart data.

This project models, in Dafny:

- **Flask layer** (`flask_app.py`): the staged decision, the lifestyle form's redirect to the clinical stage, and the clinical form's default age derived from an age category. See `DecisionLayer`.
- **Stand-alone pipeline** (`m.py`): the same staged decision. See `StagedDecision`.
- **Lifestyle pipeline** (`DS1/cardio_predict.py`): the tip rules and the form-to-record conversion. See `LifestyleAdvice`.
- **Clinical pipeline** (`DS2/clinical_predict.py`): the tip rules and the form-to-record conversion. See `ClinicalAdvice`.
- **BMI encoding** (`DS1/Cardio.py`): the six-way BMI class encoding. See `BmiCategory`.
- **Patient portal** (`PatientApp.jsx`), all in `PatientPortal`:
  - login and registration;
  - the profile page's four asynchronous fetches and the state they leave behind;
  - the recommendation and history panels;
  - the lab-branch search.
- **Dashboard** (`CardiovascularInsights.jsx`): the heart-disease, diabetes, age-group and BMI chart data. See `CardioInsights`.

Supporting modules:

- `Wrappers`: Option and Result, where Result carries Python's `KeyError`/`ValueError`.
- `FormFields`: reading a submitted form the way `form[k]`, `form.get(k, d)`, `int(...)` and `float(...)` do.
- `TextOps`: decimal text, splitting and ASCII lowercasing.
- `TipLists`: filtering a rule catalogue, order preservation and absence of duplicates.
- `Predictions`: the prediction pair.

The two trained models are not modelled. Every operation that consults one takes the predictor as a function parameter, and a prediction is a class `pred` in {0, 1} with a probability `proba`.

The tip functions append to a list, one rule after another, in groups (four lifestyle groups, two clinical ones). Each is modelled as a method whose result is proved equal to the rule catalogue filtered by the rules that fire (`TipsFor`). The properties of the advice (which tips appear, their order, no repeats, bounds, exclusive pairs) are lemmas about `TipsFor`.

The login page and the profile page keep state that their handlers update. They are classes (`LoginPage`, `ProfileView`) whose methods are proved to apply the pure transition functions (`Submit`, `Apply`).

`AgeData` is the dashboard's loop over a mutable map. It is a method with loop invariants, proved equal to a fold (`Tabulate`). The lemmas about `Tabulate` then give the per-bucket counts and show that the chart keeps every row's count.

## Model

| member | source | states |
|---|---|---|
| BmiCategory.EncodeBmi | DS1/Cardio.py:100-112 | the class returned is the one whose lower-inclusive interval contains the BMI; below 18.5 is exactly Underweight, [18.5, 25) exactly Normal, 40 and above exactly Obesity Class III |
| BmiCategory.CoversUnique | DS1/Cardio.py:100-112 | the six BMI intervals do not overlap: at most one class fits any BMI |
| BmiCategory.EncodeBmiExactly | DS1/Cardio.py:100-112 | encode_bmi returns class c if and only if the BMI lies in c's interval (so 25 is Overweight, 30 Obesity I, 40 Obesity III) |
| BmiCategory.EncodeBmiRank | DS1/Cardio.py:101-111 | the class's position equals the number of cut-offs 18.5, 25, 30, 35, 40 the BMI has reached |
| BmiCategory.ReachedMonotone | DS1/Cardio.py:101-111 | a larger BMI reaches at least as many cut-offs |
| BmiCategory.EncodeBmiMonotone | DS1/Cardio.py:100-112 | the encoding never moves to a lower class as BMI grows |
| BmiCategory.LabelsDistinct | DS1/Cardio.py:102-112 | the six class labels are pairwise different |
| FormFields.Required | DS1/cardio_predict.py:94 | `form[k]` fails with KeyError exactly when the key is absent, and otherwise gives the submitted text |
| FormFields.TextOr | DS2/clinical_predict.py:62 | `form.get(k, d)` gives the submitted text when present and the default otherwise |
| FormFields.RequiredInt | DS2/clinical_predict.py:57 | `int(form[k])` succeeds exactly when the key is present and its text is an integer numeral, with that numeral's value; an absent key is a KeyError |
| FormFields.RequiredReal | DS2/clinical_predict.py:66 | `float(form[k])` succeeds exactly when the key is present and its text is a decimal numeral |
| FormFields.IntOr | DS2/clinical_predict.py:60 | `int(form.get(k, d))` gives the default when the key is absent, raises ValueError on an empty answer, and otherwise succeeds exactly when the text is an integer numeral, with that numeral's value |
| FormFields.RealOr | DS1/cardio_predict.py:105 | `float(form.get(k, d) or d)` gives the default when the key is absent or empty, and otherwise the parsed decimal |
| LifestyleAdvice.CatalogueEntries | DS1/cardio_predict.py:18-86 | the thirteen lifestyle tips, in the order the rules are checked |
| LifestyleAdvice.EveryTipCatalogued | DS1/cardio_predict.py:18-86 | every lifestyle tip has a place in that order |
| LifestyleAdvice.LifestyleTips | DS1/cardio_predict.py:18-86 | the tips appended are exactly the catalogue entries whose rule fires for the record, in catalogue order |
| LifestyleAdvice.AppendHabitTips | DS1/cardio_predict.py:25-37 | the general-health, checkup and exercise rules append exactly their firing tips, in order |
| LifestyleAdvice.AppendSubstanceTips | DS1/cardio_predict.py:39-46 | the smoking and alcohol rules append exactly their firing tips, in order |
| LifestyleAdvice.AppendWeightAndDietTips | DS1/cardio_predict.py:48-67 | the BMI, fruit-and-vegetable and fried-potato rules append exactly their firing tips, in order |
| LifestyleAdvice.AppendConditionTips | DS1/cardio_predict.py:69-84 | the diabetes, depression, arthritis and age rules append exactly their firing tips, in order |
| LifestyleAdvice.TipsForMembers | DS1/cardio_predict.py:18-86 | a tip is given if and only if its rule fires |
| LifestyleAdvice.TipsForOrdered | DS1/cardio_predict.py:18-86 | the tips given keep the order of the rules |
| LifestyleAdvice.CatalogueDistinct | DS1/cardio_predict.py:18-86 | no two rules share a tip |
| LifestyleAdvice.TipsForDistinct | DS1/cardio_predict.py:18-86 | no tip is given twice |
| LifestyleAdvice.ObeseOrOverweight | DS1/cardio_predict.py:49-56 | the obesity tip appears exactly when BMI >= 30, the overweight tip exactly when 25 <= BMI < 30, never both |
| LifestyleAdvice.NonBmiTipsCount | DS1/cardio_predict.py:18-86 | eleven tips do not depend on BMI |
| LifestyleAdvice.GivenTipKind | DS1/cardio_predict.py:49-56 | every given tip is a non-BMI tip or the single BMI tip for the record's range |
| LifestyleAdvice.TipsForAtMostTwelve | DS1/cardio_predict.py:18-86 | at most twelve tips are ever given |
| LifestyleAdvice.ThresholdTips | DS1/cardio_predict.py:43-84 | the alcohol, diet, fried-potato and age tips appear exactly when alcohol > 0, fruit < 20 or vegetables < 10, fried potato > 8, and the age category is a senior one |
| LifestyleAdvice.LifeDictOf | DS1/cardio_predict.py:93-113 | the lifestyle record always carries the fixed answers for checkup, heart disease, cancers, depression and arthritis |
| LifestyleAdvice.DietOf | DS1/cardio_predict.py:109-112 | the diet answers convert exactly when each is absent, empty or a decimal; an absent or empty answer becomes the default 0, 30, 15 or 4, and a submitted one its parsed value |
| LifestyleAdvice.LifeDictOfSucceeds | DS1/cardio_predict.py:93-113 | the form converts if and only if every required key is present, the BMI is a decimal, and every optional numeric answer is absent, empty or a decimal |
| LifestyleAdvice.LifeDictOfDefaults | DS1/cardio_predict.py:105-112 | an absent or empty height, weight, alcohol, fruit, vegetables or fried-potato answer becomes 170, 70, 0, 30, 15 or 4 |
| LifestyleAdvice.LifeDictOfCopies | DS1/cardio_predict.py:94-112 | a converted record copies the submitted general health, exercise, diabetes, sex, age category and smoking answers, and holds the parsed BMI and the parsed value of every submitted height, weight, alcohol, fruit, vegetables and fried-potato answer |
| LifestyleAdvice.FormNeverGivesFixedTips | DS1/cardio_predict.py:95-102 | a record built from the form never gets the checkup, depression or arthritis tip |
| LifestyleAdvice.FixedAnswersGiveNoTips | DS1/cardio_predict.py:30-79 | the fixed answers "Within the past year" and "No" do not fire the checkup, depression or arthritis rules |
| LifestyleAdvice.DietDefaultsGiveNoDietTips | DS1/cardio_predict.py:109-112 | a form with no diet answers gets no alcohol, fruit-and-vegetable or fried-food tip |
| LifestyleAdvice.FullLifestyleEval | DS1/cardio_predict.py:88-117 | a conversion error is passed on unchanged; otherwise the result carries the record, the predictor's answer on it and exactly the record's tips |
| ClinicalAdvice.CatalogueEntries | DS2/clinical_predict.py:16-49 | the nine clinical tips, in the order the rules are checked |
| ClinicalAdvice.EveryTipCatalogued | DS2/clinical_predict.py:16-49 | every clinical tip has a place in that order |
| ClinicalAdvice.ClinicalTips | DS2/clinical_predict.py:16-49 | the tips appended are exactly the catalogue entries whose rule fires, in catalogue order |
| ClinicalAdvice.AppendVitalSignTips | DS2/clinical_predict.py:19-33 | the age, blood-pressure and cholesterol rules append exactly their firing tips, in order |
| ClinicalAdvice.AppendTestResultTips | DS2/clinical_predict.py:35-47 | the heart-rate, ST-depression, fasting-sugar and angina rules append exactly their firing tips, in order |
| ClinicalAdvice.TipsForMembers | DS2/clinical_predict.py:16-49 | a tip is given if and only if its rule fires |
| ClinicalAdvice.TipsForOrderedAndDistinct | DS2/clinical_predict.py:16-49 | the tips given keep rule order and none repeats |
| ClinicalAdvice.CatalogueDistinct | DS2/clinical_predict.py:16-49 | no two rules share a tip |
| ClinicalAdvice.ThresholdTips | DS2/clinical_predict.py:19-47 | each tip appears exactly at its threshold: age >= 60, BP >= 140 or 130-139, cholesterol >= 240 or 200-239, max HR < 100 with age > 50, oldpeak >= 2, fasting sugar 1, exercise angina 1 |
| ClinicalAdvice.ExclusivePairs | DS2/clinical_predict.py:23-33 | the two blood-pressure tips never appear together, nor the two cholesterol tips |
| ClinicalAdvice.FirstChoiceTipsCount | DS2/clinical_predict.py:16-49 | seven tips remain once each exclusive pair is counted once |
| ClinicalAdvice.SwapSeparatesGivenTips | DS2/clinical_predict.py:23-33 | two different tips that both fire stay different after folding each pair onto one tip |
| ClinicalAdvice.SwapIntoFirstChoice | DS2/clinical_predict.py:16-49 | folding each pair onto one tip lands among the seven |
| ClinicalAdvice.TipsForAtMostSeven | DS2/clinical_predict.py:16-49 | at most seven clinical tips are ever given |
| ClinicalAdvice.DistinctGivenTipsAtMostSeven | DS2/clinical_predict.py:16-49 | any repeat-free list of firing tips has at most seven entries |
| ClinicalAdvice.ClinDictOf | DS2/clinical_predict.py:56-71 | the clinical record marks both "missing" flags 0, and records exercise angina as 1 exactly when the answer is "Yes" |
| ClinicalAdvice.ClinDictOfSucceeds | DS2/clinical_predict.py:56-71 | the form converts if and only if the required integer and decimal answers are present and numeric, and fbs and vessels are absent or integer numerals |
| ClinicalAdvice.ClinDictOfDefaults | DS2/clinical_predict.py:60-69 | absent fbs, vessels, resting ECG, slope and thalassemia answers become 0, 0, "Normal", "Up" and "Normal" |
| ClinicalAdvice.ClinDictOfCopies | DS2/clinical_predict.py:56-71 | a converted record holds the parsed age, resting blood pressure, cholesterol, maximum heart rate and ST depression, the submitted chest-pain text, the parsed fbs and vessels answers when given, and the submitted resting ECG, slope and thalassemia texts when given |
| ClinicalAdvice.UnansweredFlagsGiveNoTips | DS2/clinical_predict.py:60-64 | without a fasting-sugar answer and a "Yes" for exercise angina, neither tip is given |
| ClinicalAdvice.FullClinicalEval | DS2/clinical_predict.py:51-75 | a conversion error is passed on unchanged; otherwise the result carries the record, the predictor's answer on it and exactly its tips |
| DecisionLayer.IndexOf | flask_app.py:22-23 | the position found is the first occurrence of the category, and there is one exactly when the category is listed |
| DecisionLayer.AgeCatsDistinct | flask_app.py:12-13 | the thirteen age categories are all different |
| DecisionLayer.IndexOfDistinct | flask_app.py:22-23 | each listed category is found at its own position |
| DecisionLayer.TruncateTowardZero | flask_app.py:27 | `int()` of a float is the integer next to it toward zero: within one below a non-negative value, within one above a negative one |
| DecisionLayer.AgeFieldInt | flask_app.py:26-30 | `int(...)` of the age field: a missing age counts as 0, an integer as itself, a float as its integer part with the fraction dropped toward zero, a bool as 1 or 0, text as its integer value, and any other value (such as None) cannot be converted |
| DecisionLayer.OverFortyByPosition | flask_app.py:22-23 | a listed category is "over forty" exactly from the fifth category (40-44) on, whatever the age field says |
| DecisionLayer.IndexFromFour | flask_app.py:102-103 | a category's position is at least four exactly when it is in the list from 40-44 on |
| DecisionLayer.OverFortyFallback | flask_app.py:24-30 | for an absent or unlisted category the age field decides (>= 40): a float counts exactly from 40.0 on, a bool never, and a missing or unconvertible age is never over forty |
| DecisionLayer.TableVerdict | flask_app.py:61-72 | the four interpretations correspond one to one with the four (lifestyle, clinical) class pairs |
| DecisionLayer.TableVerdictInjective | flask_app.py:61-72 | different class pairs never share an interpretation |
| DecisionLayer.IntegratedDecision | flask_app.py:17-82 | with a clinical prediction the stage is combined and the table decides; without one, over forty means clinical needed (with a message and no advice); otherwise the young healthy or young risky advice follows the lifestyle class |
| DecisionLayer.YoungNeverNeedsClinical | flask_app.py:33-56 | a category below 40 never asks for the clinical stage |
| DecisionLayer.LifestyleDecision | flask_app.py:101-135 | an unlisted category is a ValueError; a category from 40-44 on with probability >= 0.02 redirects to the clinical form with that category; otherwise the page shows the level, message, prediction and tips |
| DecisionLayer.LifestyleFormPost | flask_app.py:96-135 | a posted form that fails to convert is an error; otherwise the page is the decision on the evaluated form |
| DecisionLayer.HalfTowardZero | flask_app.py:156 | `int(x / 2)` rounds half of x toward zero |
| DecisionLayer.DefaultAge | flask_app.py:150-158 | no default age without a category, or with one that has no dash and does not end in "+"; a category with a dash that does not split into exactly two integers is a ValueError; an "N+" category gives the integer N, or a ValueError when N is not an integer |
| DecisionLayer.RangeParts | flask_app.py:154-155 | splitting "lo-hi" at the dash gives exactly the two numerals |
| DecisionLayer.DefaultAgeOfRange | flask_app.py:154-156 | a category "lo-hi" gives the default age (lo + hi) / 2, rounded down |
| DecisionLayer.DefaultAgeOfOpenRange | flask_app.py:157-158 | a category "n+" gives the default age n |
| DecisionLayer.ListedRangeDefault | flask_app.py:150-156 | a listed range's default age lies within that range |
| DecisionLayer.ListedCategoriesDefaultAge | flask_app.py:150-158 | every listed category gives a default age, and it is at least 40 exactly from 40-44 on |
| DecisionLayer.ClinicalDecision | flask_app.py:163-173 | the level is High exactly when the probability is >= 0.5, and the page carries the prediction and tips unchanged |
| DecisionLayer.ClinicalFormPost | flask_app.py:150-173 | a malformed `age_cat` query argument fails the request first, even on a POST; otherwise a posted form that fails to convert is an error, and a converted one gives the decision on the evaluated form |
| StagedDecision.IntegratedDecision | m.py:4-59 | a missing category is a KeyError and an unlisted one a ValueError; the clinical model is consulted exactly for categories from 40-44 on; the lifestyle class is reported unchanged |
| StagedDecision.YoungIgnoresClinical | m.py:13-32 | below 40 the outcome depends on neither the clinical data nor the clinical model and reports no probability and no clinical prediction; a healthy lifestyle class gives the young-healthy interpretation with routine checkups, a risky one the young-risky interpretation with strong lifestyle modification |
| StagedDecision.OverFortyConsultsClinical | m.py:34-59 | from 40-44 on the outcome is the combined stage with both predictions and the table's interpretation and advice |
| StagedDecision.AgreesWithFlask | m.py:4-59 | for a listed category the stage and interpretation agree with the Flask layer's decision on the same predictions |
| PatientPortal.RequestFor | static/patient/PatientApp.jsx:55-71 | registration sends the username and password; sign-in looks up /api/patients/ followed by the username |
| PatientPortal.RegisteredAge | static/patient/PatientApp.jsx:81 | the stored age is the entered number when it is a non-zero number, and 45 when no age, a non-number or zero was entered; it is never 0 |
| PatientPortal.Outcome | static/patient/PatientApp.jsx:73-105 | the patient is signed in exactly when the server answered and accepted; a registration stores the entered name (or the username), the registered age, the server's id and the username; a login stores the server's profile and the server's username (or the entered one); a refusal shows the server's error or the page's own message; a failed request shows the connection alert |
| PatientPortal.Submit | static/patient/PatientApp.jsx:46-109 | nothing is sent exactly when the username is empty, which shows the "enter username" alert; otherwise the outcome is that of the request sent |
| PatientPortal.LoginPage.constructor | static/patient/PatientApp.jsx:41-43 | the page starts not loading, with the session the app read from local storage (`patient_user`, PatientApp.jsx line 779) |
| PatientPortal.LoginPage.HandleSubmit | static/patient/PatientApp.jsx:46-109 | the page's loading flag is cleared after a request, and the session becomes the signed-in user or stays as it was |
| PatientPortal.SignedInHasIdentity | static/patient/PatientApp.jsx:75-102 | a signed-in user always has a non-empty username and patient id |
| PatientPortal.RegistrationSendsDefaults | static/patient/PatientApp.jsx:63-70 | the registration request ignores the entered name and age: its name is the username and its age 45 |
| PatientPortal.RegisteredProfile | static/patient/PatientApp.jsx:78-85 | after registering, the profile holds the entered name (or the username), the entered non-zero age and the server's patient id |
| PatientPortal.RejectionShowsServerError | static/patient/PatientApp.jsx:88-102 | a refused request shows the server's error text, or the page's own message when there is none |
| PatientPortal.Apply | static/patient/PatientApp.jsx:261-279 | each arriving fetch changes only its own state cell |
| PatientPortal.EachCellSettlesAlone | static/patient/PatientApp.jsx:261-279 | after fetches for distinct cells, each cell holds what its own fetch wrote and untouched cells keep their value |
| PatientPortal.ArrivalOrderIrrelevant | static/patient/PatientApp.jsx:261-279 | the four fetches leave the same state whatever order they complete in |
| PatientPortal.AllFourSettled | static/patient/PatientApp.jsx:251-279 | once all four fetches have completed, in any order, each cell holds exactly its own fetch's outcome applied to the empty state |
| PatientPortal.ProfileView.constructor | static/patient/PatientApp.jsx:251-254 | the profile page starts with no predictions and empty histories |
| PatientPortal.ProfileView.OnLatestLifestyle | static/patient/PatientApp.jsx:261-264 | the latest lifestyle response updates the page state as Apply says |
| PatientPortal.ProfileView.OnLatestClinical | static/patient/PatientApp.jsx:266-269 | the latest clinical response updates the page state as Apply says |
| PatientPortal.ProfileView.OnLifestyleHistory | static/patient/PatientApp.jsx:271-274 | the lifestyle history response updates the page state as Apply says |
| PatientPortal.ProfileView.OnClinicalHistory | static/patient/PatientApp.jsx:276-279 | the clinical history response updates the page state as Apply says |
| PatientPortal.RecommendationPanelOf | static/patient/PatientApp.jsx:319-357 | the prompt shows exactly when neither prediction is known; otherwise each block is shown exactly when its prediction is known, with its risk line; the lifestyle block lists the lifestyle result's tips and the clinical block the lifestyle result's clinical tips, each none when absent |
| PatientPortal.TwoTipScenario | static/patient/PatientApp.jsx:319-336 | a high-risk lifestyle result with score 0.82 and two tips shows "Risk: High (score: 0.82)" and the two tips in order, and no clinical block |
| PatientPortal.ClinicalTipsComeFromLifestyle | static/patient/PatientApp.jsx:340-352 | the clinical block's tips do not depend on the clinical response beyond its risk line, and are empty without a lifestyle response |
| PatientPortal.NoPredictionKeepsPrompt | static/patient/PatientApp.jsx:261-269 | when neither latest fetch yields a prediction, the panel keeps its prompt |
| PatientPortal.HistoryPanelOf | static/patient/PatientApp.jsx:366-397 | an empty list or an error object shows the "no assessments" text; `null` fails to render; otherwise one line per assessment, in order |
| PatientPortal.ReceivedHistoryIsShown | static/patient/PatientApp.jsx:271-279 | a received list is shown in full and in order; a failed fetch on a fresh page and an error-object answer leave the "no assessments" text; a `null` answer fails to render |
| PatientPortal.FilteredBranches | static/patient/PatientApp.jsx:611-614 | the visible branches keep list order, and a branch is visible exactly when its lowercased name or code contains the lowercased search |
| PatientPortal.EmptySearchKeepsAll | static/patient/PatientApp.jsx:611-614 | an empty search shows every branch |
| PatientPortal.OwnNameOrCodeFinds | static/patient/PatientApp.jsx:611-614 | searching for a branch's own name or code, in any letter case, finds it |
| PatientPortal.LoadedBranches | static/patient/PatientApp.jsx:580-586 | the branch list is the fetched answer as received, and the empty list when the fetch fails |
| PatientPortal.BranchesAfterFetch | static/patient/PatientApp.jsx:580-614 | after a failed branch fetch no search lists any branch; after a received one a search lists exactly the matching received branches, in their order |
| CardioInsights.Coalesce | static/reactVisuals/react-dashboard/src/CardiovascularInsights.jsx:140 | `a ?? b ?? d` is the first argument that is neither null nor undefined, and the default when both are |
| CardioInsights.Or | static/reactVisuals/react-dashboard/src/CardiovascularInsights.jsx:89-90 | JavaScript's logical or of `a`, `b` and `d` is the first truthy argument, and the default when neither is |
| CardioInsights.HeartData | static/reactVisuals/react-dashboard/src/CardiovascularInsights.jsx:87-91 | the heart-disease chart has the slices "No" and "Yes"; each is `Number` of its label key's value when that is truthy, else of its numeric key's value when that is truthy, else zero |
| CardioInsights.HeartLabelKeyWins | static/reactVisuals/react-dashboard/src/CardiovascularInsights.jsx:89-90 | a non-zero count under the label key is shown whatever the numeric key holds |
| CardioInsights.DiabetesData | static/reactVisuals/react-dashboard/src/CardiovascularInsights.jsx:105-121 | the diabetes chart has four slices with the four labels in order; each is `Number` of its key's value when that is truthy, and zero otherwise, an absent key included |
| CardioInsights.DiabetesSliceOwnKey | static/reactVisuals/react-dashboard/src/CardiovascularInsights.jsx:105-121 | a diabetes slice depends only on its own key |
| CardioInsights.SexColorByFirstLetter | static/reactVisuals/react-dashboard/src/CardiovascularInsights.jsx:134-135 | the colour is blue exactly when the name starts with "m" or "M", and pink otherwise |
| CardioInsights.AgeKey | static/reactVisuals/react-dashboard/src/CardiovascularInsights.jsx:140 | a row's age group is its `Age_Category`, else its `age`, else "Unknown", taking the first that is neither null nor undefined; it is never null |
| CardioInsights.WordTexts | static/reactVisuals/react-dashboard/src/CardiovascularInsights.jsx:141-142 | of the texts of true, false and null, only "true" reads as yes |
| CardioInsights.IsYesIsTextTest | static/reactVisuals/react-dashboard/src/CardiovascularInsights.jsx:141-142 | a value counts as "yes" exactly when its text form, lowercased, is "1", "true" or "yes" |
| CardioInsights.RowYes | static/reactVisuals/react-dashboard/src/CardiovascularInsights.jsx:141-142 | a row is a "yes" when its first truthy heart-disease field passes the text test, and a "no" when neither field is truthy |
| CardioInsights.RowCount | static/reactVisuals/react-dashboard/src/CardiovascularInsights.jsx:144 | a row's count is `Number` of its first non-nullish count field, and 0 when both are missing |
| CardioInsights.Values | static/reactVisuals/react-dashboard/src/CardiovascularInsights.jsx:147 | one bucket per listed key, position by position: the i-th bucket is the bucket of the i-th key in insertion order, labelled with that key |
| CardioInsights.AgeData | static/reactVisuals/react-dashboard/src/CardiovascularInsights.jsx:137-147 | the buckets built by the loop are the fold of the rows, listed in first-seen key order |
| CardioInsights.TabulateKeys | static/reactVisuals/react-dashboard/src/CardiovascularInsights.jsx:139-147 | the buckets are keyed by exactly the rows' age groups, each listed once |
| CardioInsights.FirstIndex | static/reactVisuals/react-dashboard/src/CardiovascularInsights.jsx:139-140 | the position of the first row carrying an age group: that row carries it and no earlier one does |
| CardioInsights.OrderIsFirstSeen | static/reactVisuals/react-dashboard/src/CardiovascularInsights.jsx:137-147 | the buckets are listed in the order their age groups first occur in the rows: every listed key is a row's group, and of two listed keys the earlier has the earlier first row |
| CardioInsights.BucketTotals | static/reactVisuals/react-dashboard/src/CardiovascularInsights.jsx:139-146 | each bucket's "no" and "yes" equal the summed counts of that age group's rows with that answer |
| CardioInsights.TotalsPreserved | static/reactVisuals/react-dashboard/src/CardiovascularInsights.jsx:139-147 | all buckets together hold the sum of all rows' counts |
| CardioInsights.TotalsStep | static/reactVisuals/react-dashboard/src/CardiovascularInsights.jsx:143-145 | one more row adds exactly its count to the Yes and No totals of all buckets together |
| CardioInsights.PointOf | static/reactVisuals/react-dashboard/src/CardiovascularInsights.jsx:149-152 | a point's exercise value is the first non-nullish of `Exercise` and `exercise`, else "Unknown"; its bmi is `Number` of the first non-nullish of `mean` and `bmi`, else 0 |
| CardioInsights.BmiData | static/reactVisuals/react-dashboard/src/CardiovascularInsights.jsx:149-152 | one point per row, in row order |

## Left out

- The trained models, their loading and feature pipelines. They are function parameters. A prediction's probability is any real and its class is 0 or 1.
- HTTP and rendering: routing, templates, `redirect`/`url_for`, and JSX markup beyond the text each panel shows.
- Browser side effects: `localStorage`, `alert` and `fetch`. A fetch's outcome is an input (`Fetch`: received data or a failure). A stored or signed-in user is a value the page keeps.
- Other parts of the portal: the map of lab branches, the profile edit form, and the header's fallback name and age.
- The dashboard's sex and general-health charts: they copy object entries to slices, with no logic.
- Python and JavaScript number parsing:
  - only plain numerals are modelled: an optional sign, digits and an optional fraction;
  - not modelled: surrounding whitespace, underscores, exponents, "inf" and "nan", and hexadecimal or "Infinity" in `Number()`;
  - the model rejects these, or treats them as not numeric.
- Floating point: numbers are exact reals and integers are unbounded. Rounding above 2^53 is not modelled, and neither is NaN reaching `encode_bmi` (Python puts a NaN BMI in Obesity Class III), nor an infinite or NaN float `Age` entry, on which `int()` raises.
- DecisionLayer.HalfTowardZero: computes `int((lo + hi) / 2)` in exact arithmetic. This differs from Python's float division only for sums beyond 2^53.
- Lowercasing is ASCII-only.
- CardioInsights.IsYesIsTextTest: covers only values whose `String()` form the model defines (strings, booleans, null, integral numbers). It does not cover the decimal text of non-integral numbers.
- CardioInsights.AgeData: the key is the age value itself, not `String(age)`. So a number and its text are different groups, and JavaScript's ordering of integer-like object keys ahead of other keys is not modelled. Buckets are listed in first-seen order.
- The history panels' dates: the `createdAt` text is shown as it arrives, with no locale formatting.
- Rendered text: the risk, score and history fields (`Latest`, `LifestyleRecord`, `ClinicalRecord`) are the text a template literal makes of them. `String()` of a number, `null` or `undefined` is not modelled.
- Dashboard values: `Scalar` has no object or array case. Age values that name a property of `Object.prototype` (such as "constructor" or "__proto__") are not modelled: in `ageMap` they would find an inherited property instead of a missing bucket.
- History answers: a history fetch's JSON is modelled as a list of records, an error object or `null`. Other JSON (a string, a number) is not modelled.
- Field types: the server's `patient_id` is modelled as text. `data.heart_disease \|\| {}` and `data.diabetes \|\| {}` are modelled as a map given to the chart functions.
- Loading flag: `LoginPage.HandleSubmit` models the `loading` flag after the handler finishes, not its intermediate `true` while the request is pending.
- The lifestyle and clinical tip functions read every key with `.get` and a default. Their records always hold every key, because `full_lifestyle_eval` and `full_clinical_eval` build them, so those defaults never apply and are not modelled.
- Late fetches: the profile page's effect (static/patient/PatientApp.jsx:258-280) has no guard against a fetch that completes after the patient changes. Every completed fetch is applied (`Apply`).
