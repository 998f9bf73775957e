/**
 * The view-model of the patient portal page: the outcome of the login form,
 * the four state cells of the profile page that separate fetches overwrite
 * independently, the panels the page derives from them, and the search
 * filter of the lab locator.
 */
module PatientPortal {
  import opened Wrappers
  import opened TextOps
  import opened TipLists

  /** The outcome of one `fetch(...).then(res => res.json())`: Failed when the promise rejects. */
  datatype Fetch<+T> = Failed | Received(data: T)

  /** A string-valued JSON field that may be absent; absent and "" are both falsy. */
  predicate Truthy(s: Option<string>)
  {
    s.Some? && s.value != ""
  }

  /** `a || b` for an optional string and a string. */
  function OrElse(a: Option<string>, b: string): string
  {
    if Truthy(a) then a.value else b
  }

  // ---------------------------------------------------------------- login

  /** The login form's state; `name` and `age` are only filled in register mode. */
  datatype LoginForm = LoginForm(username: string, password: string, name: Option<string>, age: Option<string>)

  /** The request sent: POST /api/register with a JSON body, or GET /api/patients/<username>. */
  datatype Request =
    | Register(username: string, name: string, age: int, password: string)
    | Lookup(path: string)

  /** The part of the JSON answer the form reads. */
  datatype ServerProfile = ServerProfile(patientId: Option<string>, name: Option<string>, age: Option<string>)
  datatype Response = Response(success: bool, patientId: Option<string>, error: Option<string>,
                               profile: Option<ServerProfile>, username: Option<string>)

  /** The profile kept in the session: built from the form on registration, the server's on login. */
  datatype SessionProfile =
    | Built(name: string, age: real, id: string)
    | FromServer(server: ServerProfile)
  {
    function PatientId(): string
    {
      match this
      case Built(_, _, id) => id
      case FromServer(p) => if p.patientId.Some? then p.patientId.value else ""
    }
  }

  datatype UserData = UserData(profile: SessionProfile, username: string)

  datatype Alert = EnterUsername | ServerError(message: string) | RegistrationFailed | LoginFailed | ConnectionError
  {
    function Text(): string
    {
      match this
      case EnterUsername => "Please enter a username."
      case ServerError(m) => m
      case RegistrationFailed => "Registration failed!"
      case LoginFailed => "Login failed!"
      case ConnectionError => "Error connecting to server!"
    }
  }

  datatype LoginOutcome = Rejected(alert: Alert) | SignedIn(user: UserData)

  /** What one submission did: the request it sent, if any, and its outcome. */
  datatype Submission = Submission(sent: Option<Request>, outcome: LoginOutcome)

  /** The request for a non-empty username; registration always sends the username as name and age 45. */
  function RequestFor(registerMode: bool, form: LoginForm): (q: Request)
    ensures registerMode <==> q.Register?
    ensures q.Register? ==> q.username == form.username && q.password == form.password
    ensures !registerMode ==> q.path == "/api/patients/" + form.username
  {
    if registerMode then Register(form.username, form.username, 45, form.password)
    else Lookup("/api/patients/" + form.username)
  }

  /** `Number(formData.age) || 45`: NaN and 0 give 45. */
  function RegisteredAge(age: Option<string>): (a: real)
    ensures a != 0.0
    ensures age.None? ==> a == 45.0
    ensures age.Some? && JsNumber(age.value).Some? && JsNumber(age.value).value != 0.0 ==> a == JsNumber(age.value).value
    ensures age.Some? && (JsNumber(age.value).None? || JsNumber(age.value).value == 0.0) ==> a == 45.0
  {
    match age
    case None => 45.0
    case Some(s) =>
      match JsNumber(s)
      case None => 45.0
      case Some(x) => if x == 0.0 then 45.0 else x
  }

  /** `data.error || fallback` */
  function ServerOr(error: Option<string>, fallback: Alert): Alert
  {
    if Truthy(error) then ServerError(error.value) else fallback
  }

  /** Whether the answer counts as success: `success && patient_id` on registration, `profile && profile.patient_id` on login. */
  predicate Accepted(registerMode: bool, d: Response)
  {
    if registerMode then d.success && Truthy(d.patientId)
    else d.profile.Some? && Truthy(d.profile.value.patientId)
  }

  /** The outcome of a request that was sent. */
  function Outcome(registerMode: bool, form: LoginForm, response: Fetch<Response>): (o: LoginOutcome)
    ensures o.SignedIn? <==> response.Received? && Accepted(registerMode, response.data)
    ensures o.SignedIn? ==> o.user.profile.PatientId() != ""
    ensures o.SignedIn? && form.username != "" ==> o.user.username != ""
    ensures o.Rejected? ==> o.alert != EnterUsername
    ensures response.Failed? ==> o == Rejected(ConnectionError)
    ensures response.Received? && registerMode && Accepted(true, response.data) ==>
      o.user == UserData(Built(OrElse(form.name, form.username), RegisteredAge(form.age), response.data.patientId.value), form.username)
    ensures response.Received? && !registerMode && Accepted(false, response.data) ==>
      o.user == UserData(FromServer(response.data.profile.value), OrElse(response.data.username, form.username))
    ensures response.Received? && !Accepted(registerMode, response.data) ==>
      o.alert == ServerOr(response.data.error, if registerMode then RegistrationFailed else LoginFailed)
  {
    match response
    case Failed => Rejected(ConnectionError)
    case Received(d) =>
      if registerMode then
        if d.success && Truthy(d.patientId) then
          SignedIn(UserData(Built(OrElse(form.name, form.username), RegisteredAge(form.age), d.patientId.value), form.username))
        else Rejected(ServerOr(d.error, RegistrationFailed))
      else if d.profile.Some? && Truthy(d.profile.value.patientId) then
        SignedIn(UserData(FromServer(d.profile.value), OrElse(d.username, form.username)))
      else Rejected(ServerOr(d.error, LoginFailed))
  }

  /** `handleSubmit`: `respond` stands for the server. */
  function Submit(registerMode: bool, form: LoginForm, respond: Request -> Fetch<Response>): (o: Submission)
    ensures o.sent.None? <==> form.username == ""
    ensures o.sent.None? ==> o.outcome == Rejected(EnterUsername)
    ensures o.sent.Some? ==> o.sent.value == RequestFor(registerMode, form)
    ensures o.sent.Some? ==> o.outcome == Outcome(registerMode, form, respond(o.sent.value))
  {
    if form.username == "" then Submission(None, Rejected(EnterUsername))
    else
      var q := RequestFor(registerMode, form);
      Submission(Some(q), Outcome(registerMode, form, respond(q)))
  }

  /** The login page: its `loading` flag and the session kept in local storage. */
  class LoginPage {
    var loading: bool
    var session: Option<UserData>

    constructor(stored: Option<UserData>)
      ensures !loading && session == stored
    {
      loading := false;
      session := stored;
    }

    method HandleSubmit(registerMode: bool, form: LoginForm, respond: Request -> Fetch<Response>) returns (s: Submission)
      modifies this
      ensures s == Submit(registerMode, form, respond)
      ensures loading == (if s.sent.None? then old(loading) else false)
      ensures session == (if s.outcome.SignedIn? then Some(s.outcome.user) else old(session))
    {
      if form.username == "" {
        return Submission(None, Rejected(EnterUsername));
      }
      loading := true;
      var q := RequestFor(registerMode, form);
      var outcome := Outcome(registerMode, form, respond(q));
      if outcome.SignedIn? {
        session := Some(outcome.user);
      }
      loading := false;
      s := Submission(Some(q), outcome);
    }
  }

  /** A signed-in user always has a non-empty username and a non-empty patient id. */
  lemma SignedInHasIdentity(registerMode: bool, form: LoginForm, respond: Request -> Fetch<Response>)
    ensures var o := Submit(registerMode, form, respond).outcome;
      o.SignedIn? ==> o.user.username != "" && o.user.profile.PatientId() != ""
  {
  }

  /**
   * The registration request does not depend on the name and age typed in:
   * the server always receives the username as name and age 45.
   */
  lemma RegistrationSendsDefaults(form1: LoginForm, form2: LoginForm)
    requires form1.username == form2.username && form1.password == form2.password
    ensures RequestFor(true, form1) == RequestFor(true, form2)
    ensures RequestFor(true, form1).age == 45 && RequestFor(true, form1).name == form1.username
  {
  }

  /** A registered profile takes the typed name (or the username) and the typed non-zero integer age. */
  lemma RegisteredProfile(form: LoginForm, d: Response, n: int)
    requires Accepted(true, d) && n != 0 && form.age == Some(IntToString(n))
    ensures Outcome(true, form, Received(d)).user.profile == Built(OrElse(form.name, form.username), n as real, d.patientId.value)
  {
    IntToStringRoundTrip(n);
    ParseIntThenReal(IntToString(n));
  }

  /** A rejected answer shows the server's error text when there is one, else the fallback. */
  lemma RejectionShowsServerError(registerMode: bool, form: LoginForm, d: Response)
    requires !Accepted(registerMode, d)
    ensures Outcome(registerMode, form, Received(d)).alert.Text()
      == if Truthy(d.error) then d.error.value else (if registerMode then RegistrationFailed else LoginFailed).Text()
  {
  }

  // ---------------------------------------------------------------- profile page state

  datatype LatestProfile = LatestProfile(tips: Option<seq<string>>, clinicalTips: Option<seq<string>>)

  /** The answer of /latest-lifestyle or /latest-clinical. */
  datatype Latest = Latest(hasPrediction: bool, riskPrediction: string, predictionScore: string, profile: Option<LatestProfile>)

  /** One entry of the history answers; `createdAt` is the already formatted time stamp. */
  datatype LifestyleRecord = LifestyleRecord(createdAt: string, riskPrediction: string, predictionScore: string,
                                             bmi: string, smokingHistory: string)
  datatype ClinicalRecord = ClinicalRecord(createdAt: string, riskPrediction: string, predictionScore: string,
                                           restingBp: string, cholesterol: string)

  /**
   * The JSON a history fetch parses to: the list of records, an error object
   * (which has no `length`), or `null`.
   */
  datatype HistoryAnswer<+T> = Records(records: seq<T>) | ErrorObject | JsonNull

  /** The four state cells of `PatientProfile`. */
  datatype ProfileState = ProfileState(latestRisk: Option<Latest>, latestClinical: Option<Latest>,
                                       lifestyleHistory: HistoryAnswer<LifestyleRecord>,
                                       clinicalHistory: HistoryAnswer<ClinicalRecord>)

  const Initial := ProfileState(None, None, Records([]), Records([]))

  /** The settlement of one of the four fetches, which may arrive in any order. */
  datatype Arrival =
    | LatestLifestyle(lifestyle: Fetch<Latest>)
    | LatestClinical(clinical: Fetch<Latest>)
    | LifestyleHistory(lifestyleRecords: Fetch<HistoryAnswer<LifestyleRecord>>)
    | ClinicalHistory(clinicalRecords: Fetch<HistoryAnswer<ClinicalRecord>>)
  {
    /** The state cell this fetch writes. */
    function Cell(): nat
    {
      match this
      case LatestLifestyle(_) => 0
      case LatestClinical(_) => 1
      case LifestyleHistory(_) => 2
      case ClinicalHistory(_) => 3
    }
  }

  /** The value of one state cell. */
  datatype CellValue =
    | PredictionCell(latest: Option<Latest>)
    | LifestyleCell(lifestyleHistory: HistoryAnswer<LifestyleRecord>)
    | ClinicalCell(clinicalHistory: HistoryAnswer<ClinicalRecord>)

  function CellOf(s: ProfileState, c: nat): CellValue
    requires c < 4
  {
    if c == 0 then PredictionCell(s.latestRisk)
    else if c == 1 then PredictionCell(s.latestClinical)
    else if c == 2 then LifestyleCell(s.lifestyleHistory)
    else ClinicalCell(s.clinicalHistory)
  }

  /** A latest-result cell takes the answer only when it has `has_prediction`. */
  function KeepPrediction(current: Option<Latest>, f: Fetch<Latest>): Option<Latest>
  {
    if f.Received? && f.data.hasPrediction then Some(f.data) else current
  }

  /** A history cell takes any answer verbatim, whatever JSON it is. */
  function KeepHistory<T>(current: HistoryAnswer<T>, f: Fetch<HistoryAnswer<T>>): HistoryAnswer<T>
  {
    if f.Received? then f.data else current
  }

  /** One settled fetch writes its own cell and leaves the other three as they were. */
  function Apply(s: ProfileState, a: Arrival): (t: ProfileState)
    ensures forall c :: c < 4 && c != a.Cell() ==> CellOf(t, c) == CellOf(s, c)
  {
    match a
    case LatestLifestyle(f) => s.(latestRisk := KeepPrediction(s.latestRisk, f))
    case LatestClinical(f) => s.(latestClinical := KeepPrediction(s.latestClinical, f))
    case LifestyleHistory(f) => s.(lifestyleHistory := KeepHistory(s.lifestyleHistory, f))
    case ClinicalHistory(f) => s.(clinicalHistory := KeepHistory(s.clinicalHistory, f))
  }

  /** Settling fetches in the order they arrive. */
  function ApplyAll(s: ProfileState, arrivals: seq<Arrival>): ProfileState
    decreases |arrivals|
  {
    if arrivals == [] then s else ApplyAll(Apply(s, arrivals[0]), arrivals[1..])
  }

  /** Each fetch is issued once, so no two arrivals write the same cell. */
  predicate DistinctCells(arrivals: seq<Arrival>)
  {
    forall i, j :: 0 <= i < j < |arrivals| ==> arrivals[i].Cell() != arrivals[j].Cell()
  }

  /** The state is its four cells. */
  lemma CellsDetermineState(s: ProfileState, t: ProfileState)
    requires forall c :: c < 4 ==> CellOf(s, c) == CellOf(t, c)
    ensures s == t
  {
    assert CellOf(s, 0) == CellOf(t, 0);
    assert CellOf(s, 1) == CellOf(t, 1);
    assert CellOf(s, 2) == CellOf(t, 2);
    assert CellOf(s, 3) == CellOf(t, 3);
  }

  /**
   * After any sequence of settlements that write distinct cells, every cell
   * holds what its own fetch made of it, and a cell no fetch wrote (or whose
   * fetch failed) keeps its value.
   */
  lemma {:induction false} EachCellSettlesAlone(s: ProfileState, arrivals: seq<Arrival>)
    requires DistinctCells(arrivals)
    decreases |arrivals|
    ensures forall i :: 0 <= i < |arrivals| ==>
      CellOf(ApplyAll(s, arrivals), arrivals[i].Cell()) == CellOf(Apply(s, arrivals[i]), arrivals[i].Cell())
    ensures forall c :: c < 4 && (forall i :: 0 <= i < |arrivals| ==> arrivals[i].Cell() != c) ==>
      CellOf(ApplyAll(s, arrivals), c) == CellOf(s, c)
  {
    if arrivals != [] {
      var a := arrivals[0];
      var rest := arrivals[1..];
      var s' := Apply(s, a);
      assert DistinctCells(rest) by {
        forall i, j | 0 <= i < j < |rest| ensures rest[i].Cell() != rest[j].Cell() {
          assert rest[i] == arrivals[i + 1] && rest[j] == arrivals[j + 1];
        }
      }
      EachCellSettlesAlone(s', rest);
      forall i | 0 <= i < |arrivals|
        ensures CellOf(ApplyAll(s, arrivals), arrivals[i].Cell()) == CellOf(Apply(s, arrivals[i]), arrivals[i].Cell())
      {
        if i == 0 {
          forall k | 0 <= k < |rest| ensures rest[k].Cell() != a.Cell() {
            assert rest[k] == arrivals[k + 1];
          }
        } else {
          assert rest[i - 1] == arrivals[i];
          assert arrivals[i].Cell() != a.Cell();
          assert CellOf(Apply(s', arrivals[i]), arrivals[i].Cell()) == CellOf(Apply(s, arrivals[i]), arrivals[i].Cell()) by {
            assert CellOf(s', arrivals[i].Cell()) == CellOf(s, arrivals[i].Cell());
          }
        }
      }
      forall c | c < 4 && forall i :: 0 <= i < |arrivals| ==> arrivals[i].Cell() != c
        ensures CellOf(ApplyAll(s, arrivals), c) == CellOf(s, c)
      {
        assert a.Cell() != c;
        forall k | 0 <= k < |rest| ensures rest[k].Cell() != c {
          assert rest[k] == arrivals[k + 1];
        }
      }
    }
  }

  /** The order in which the fetches settle does not matter. */
  lemma ArrivalOrderIrrelevant(s: ProfileState, arrivals1: seq<Arrival>, arrivals2: seq<Arrival>)
    requires DistinctCells(arrivals1) && DistinctCells(arrivals2)
    requires multiset(arrivals1) == multiset(arrivals2)
    ensures ApplyAll(s, arrivals1) == ApplyAll(s, arrivals2)
  {
    EachCellSettlesAlone(s, arrivals1);
    EachCellSettlesAlone(s, arrivals2);
    forall c | c < 4 ensures CellOf(ApplyAll(s, arrivals1), c) == CellOf(ApplyAll(s, arrivals2), c) {
      if i :| 0 <= i < |arrivals1| && arrivals1[i].Cell() == c {
        assert arrivals1[i] in multiset(arrivals2);
        var j :| 0 <= j < |arrivals2| && arrivals2[j] == arrivals1[i];
      } else {
        forall j | 0 <= j < |arrivals2| ensures arrivals2[j].Cell() != c {
          assert arrivals2[j] in multiset(arrivals1);
        }
      }
    }
    CellsDetermineState(ApplyAll(s, arrivals1), ApplyAll(s, arrivals2));
  }

  /**
   * Once all four fetches have settled, in whatever order, each cell holds
   * its own fetch's result; a failed fetch leaves only its own cell at the
   * initial value.
   */
  lemma AllFourSettled(f1: Fetch<Latest>, f2: Fetch<Latest>,
                       f3: Fetch<HistoryAnswer<LifestyleRecord>>, f4: Fetch<HistoryAnswer<ClinicalRecord>>,
                       arrivals: seq<Arrival>)
    requires DistinctCells(arrivals)
    requires multiset(arrivals) == multiset{LatestLifestyle(f1), LatestClinical(f2), LifestyleHistory(f3), ClinicalHistory(f4)}
    ensures ApplyAll(Initial, arrivals)
      == ProfileState(KeepPrediction(None, f1), KeepPrediction(None, f2), KeepHistory(Records([]), f3), KeepHistory(Records([]), f4))
  {
    var all := [LatestLifestyle(f1), LatestClinical(f2), LifestyleHistory(f3), ClinicalHistory(f4)];
    var expected := ProfileState(KeepPrediction(None, f1), KeepPrediction(None, f2), KeepHistory(Records([]), f3), KeepHistory(Records([]), f4));
    EachCellSettlesAlone(Initial, arrivals);
    forall c: nat | c < 4 ensures CellOf(ApplyAll(Initial, arrivals), c) == CellOf(expected, c) {
      var a := all[c];
      assert a.Cell() == c;
      assert a in multiset(arrivals);
      var i :| 0 <= i < |arrivals| && arrivals[i] == a;
    }
    CellsDetermineState(ApplyAll(Initial, arrivals), expected);
  }

  /** The page's state cells, overwritten by the four fetch callbacks. */
  class ProfileView {
    var latestRisk: Option<Latest>
    var latestClinical: Option<Latest>
    var lifestyleHistory: HistoryAnswer<LifestyleRecord>
    var clinicalHistory: HistoryAnswer<ClinicalRecord>

    function State(): ProfileState
      reads this
    {
      ProfileState(latestRisk, latestClinical, lifestyleHistory, clinicalHistory)
    }

    constructor()
      ensures State() == Initial
    {
      latestRisk := None;
      latestClinical := None;
      lifestyleHistory := Records([]);
      clinicalHistory := Records([]);
    }

    method OnLatestLifestyle(f: Fetch<Latest>)
      modifies this
      ensures State() == Apply(old(State()), LatestLifestyle(f))
    {
      if f.Received? && f.data.hasPrediction {
        latestRisk := Some(f.data);
      }
    }

    method OnLatestClinical(f: Fetch<Latest>)
      modifies this
      ensures State() == Apply(old(State()), LatestClinical(f))
    {
      if f.Received? && f.data.hasPrediction {
        latestClinical := Some(f.data);
      }
    }

    method OnLifestyleHistory(f: Fetch<HistoryAnswer<LifestyleRecord>>)
      modifies this
      ensures State() == Apply(old(State()), LifestyleHistory(f))
    {
      if f.Received? {
        lifestyleHistory := f.data;
      }
    }

    method OnClinicalHistory(f: Fetch<HistoryAnswer<ClinicalRecord>>)
      modifies this
      ensures State() == Apply(old(State()), ClinicalHistory(f))
    {
      if f.Received? {
        clinicalHistory := f.data;
      }
    }
  }

  // ---------------------------------------------------------------- panels

  /** One block of the recommendation panel: its risk line and the tips listed under it. */
  datatype Block = Block(riskLine: string, tips: seq<string>)

  datatype RecommendationPanel = Prompt | Blocks(lifestyle: Option<Block>, clinical: Option<Block>)
  {
    function PromptText(): string
    {
      "Run lifestyle and clinical predictions to see your personalized recommendations here."
    }
  }

  function RiskLine(l: Latest): string
  {
    "Risk: " + l.riskPrediction + " (score: " + l.predictionScore + ")"
  }

  /** A tip list that is absent shows like an empty one: not at all. */
  function ListedTips(tips: Option<seq<string>>): seq<string>
  {
    if tips.Some? then tips.value else []
  }

  function LifestyleTipsOf(latestRisk: Option<Latest>): seq<string>
  {
    if latestRisk.Some? && latestRisk.value.profile.Some? then ListedTips(latestRisk.value.profile.value.tips) else []
  }

  /** The clinical block's tips are read from the lifestyle result. */
  function ClinicalTipsOf(latestRisk: Option<Latest>): seq<string>
  {
    if latestRisk.Some? && latestRisk.value.profile.Some? then ListedTips(latestRisk.value.profile.value.clinicalTips) else []
  }

  function RecommendationPanelOf(s: ProfileState): (p: RecommendationPanel)
    ensures p.Prompt? <==> s.latestRisk.None? && s.latestClinical.None?
    ensures p.Blocks? ==> (p.lifestyle.Some? <==> s.latestRisk.Some?) && (p.clinical.Some? <==> s.latestClinical.Some?)
    ensures p.Blocks? && p.lifestyle.Some? ==> p.lifestyle.value.riskLine == RiskLine(s.latestRisk.value)
    ensures p.Blocks? && p.clinical.Some? ==> p.clinical.value.riskLine == RiskLine(s.latestClinical.value)
    ensures p.Blocks? && p.lifestyle.Some? ==>
      (p.lifestyle.value.tips ==
        if s.latestRisk.value.profile.Some? && s.latestRisk.value.profile.value.tips.Some?
        then s.latestRisk.value.profile.value.tips.value else [])
    ensures p.Blocks? && p.clinical.Some? ==>
      (p.clinical.value.tips ==
        if s.latestRisk.Some? && s.latestRisk.value.profile.Some? && s.latestRisk.value.profile.value.clinicalTips.Some?
        then s.latestRisk.value.profile.value.clinicalTips.value else [])
  {
    if s.latestRisk.None? && s.latestClinical.None? then Prompt
    else Blocks(
      if s.latestRisk.Some? then Some(Block(RiskLine(s.latestRisk.value), LifestyleTipsOf(s.latestRisk))) else None,
      if s.latestClinical.Some? then Some(Block(RiskLine(s.latestClinical.value), ClinicalTipsOf(s.latestRisk))) else None)
  }

  /**
   * The clinical block shows tips only when a lifestyle result is present,
   * and what the clinical result itself carries besides its risk and score
   * never reaches the panel.
   */
  lemma ClinicalTipsComeFromLifestyle(s: ProfileState, other: Latest)
    requires s.latestClinical.Some?
    requires other.riskPrediction == s.latestClinical.value.riskPrediction
    requires other.predictionScore == s.latestClinical.value.predictionScore
    ensures RecommendationPanelOf(s.(latestClinical := Some(other))) == RecommendationPanelOf(s)
    ensures RecommendationPanelOf(s).clinical.value.tips != [] ==> s.latestRisk.Some?
  {
  }

  /**
   * A high-risk lifestyle result with two tips, and no clinical result, shows
   * one block: its risk line and the two tips in order.
   */
  lemma TwoTipScenario()
    ensures var l := Latest(true, "High", "0.82", Some(LatestProfile(Some(["Reduce sodium", "Exercise 30min/day"]), None)));
      RecommendationPanelOf(ApplyAll(Initial, [LatestLifestyle(Received(l))]))
        == Blocks(Some(Block("Risk: High (score: 0.82)", ["Reduce sodium", "Exercise 30min/day"])), None)
  {
    var l := Latest(true, "High", "0.82", Some(LatestProfile(Some(["Reduce sodium", "Exercise 30min/day"]), None)));
    var arrivals := [LatestLifestyle(Received(l))];
    assert arrivals[1..] == [];
    assert ApplyAll(Initial, arrivals) == Initial.(latestRisk := Some(l));
    assert RiskLine(l) == "Risk: " + "High" + " (score: " + "0.82" + ")";
    assert "Risk: " + "High" + " (score: " + "0.82" + ")" == "Risk: High (score: 0.82)";
  }

  /** A result without `has_prediction` never leaves the prompt. */
  lemma NoPredictionKeepsPrompt(f1: Fetch<Latest>, f2: Fetch<Latest>)
    requires f1.Failed? || !f1.data.hasPrediction
    requires f2.Failed? || !f2.data.hasPrediction
    ensures RecommendationPanelOf(ApplyAll(Initial, [LatestLifestyle(f1), LatestClinical(f2)])) == Prompt
  {
    var arrivals := [LatestLifestyle(f1), LatestClinical(f2)];
    assert Apply(Initial, arrivals[0]) == Initial;
    assert arrivals[1..] == [LatestClinical(f2)];
    assert ApplyAll(Initial, arrivals) == ApplyAll(Initial, [LatestClinical(f2)]);
    assert Apply(Initial, LatestClinical(f2)) == Initial;
    assert [LatestClinical(f2)][1..] == [];
    assert ApplyAll(Initial, [LatestClinical(f2)]) == ApplyAll(Initial, []) == Initial;
    assert Initial.latestRisk.None? && Initial.latestClinical.None?;
  }

  datatype HistoryKind = LifestyleKind | ClinicalKind
  {
    function EmptyText(): string
    {
      match this
      case LifestyleKind => "No lifestyle assessments yet."
      case ClinicalKind => "No clinical assessments yet."
    }
  }

  /** A history panel; RenderFailure is the `null` answer, on which `.length` throws while rendering. */
  datatype HistoryPanel = NoAssessments(kind: HistoryKind) | Entries(lines: seq<string>) | RenderFailure

  function LifestyleLine(r: LifestyleRecord): string
  {
    r.createdAt + " — Risk: " + r.riskPrediction + " (score: " + r.predictionScore + "), BMI: " + r.bmi
      + ", Smoking: " + r.smokingHistory
  }

  function ClinicalLine(r: ClinicalRecord): string
  {
    r.createdAt + " — Risk: " + r.riskPrediction + " (score: " + r.predictionScore + "), BP: " + r.restingBp
      + ", Chol: " + r.cholesterol
  }

  /**
   * A history panel: one line per record, in the list's order, for a non-empty
   * list; the placeholder for an empty list and for an error object (whose
   * missing `length` is not greater than 0); a failed render for `null`.
   */
  function HistoryPanelOf<T>(h: HistoryAnswer<T>, line: T -> string, kind: HistoryKind): (p: HistoryPanel)
    ensures p.NoAssessments? <==> (h.Records? && |h.records| == 0) || h.ErrorObject?
    ensures p.RenderFailure? <==> h.JsonNull?
    ensures p.NoAssessments? ==> p.kind == kind
    ensures p.Entries? ==>
      (h.Records? && |p.lines| == |h.records| && forall i :: 0 <= i < |h.records| ==> p.lines[i] == line(h.records[i]))
  {
    match h
    case Records(items) =>
      if |items| == 0 then NoAssessments(kind)
      else Entries(seq(|items|, i requires 0 <= i < |items| => line(items[i])))
    case ErrorObject => NoAssessments(kind)
    case JsonNull => RenderFailure
  }

  function LifestyleHistoryPanel(s: ProfileState): HistoryPanel
  {
    HistoryPanelOf(s.lifestyleHistory, LifestyleLine, LifestyleKind)
  }

  function ClinicalHistoryPanel(s: ProfileState): HistoryPanel
  {
    HistoryPanelOf(s.clinicalHistory, ClinicalLine, ClinicalKind)
  }

  /**
   * A received list of records is shown as it came, one line per record in
   * order; before it arrives, when its fetch fails, or when the server answers
   * with an error object, the placeholder shows; a `null` answer breaks the page.
   */
  lemma ReceivedHistoryIsShown(s: ProfileState, d: seq<LifestyleRecord>, e: seq<ClinicalRecord>)
    ensures var p := LifestyleHistoryPanel(Apply(s, LifestyleHistory(Received(Records(d)))));
      (p.NoAssessments? <==> d == []) && (p.Entries? ==> |p.lines| == |d| && forall i :: 0 <= i < |d| ==> p.lines[i] == LifestyleLine(d[i]))
    ensures var p := ClinicalHistoryPanel(Apply(s, ClinicalHistory(Received(Records(e)))));
      (p.NoAssessments? <==> e == []) && (p.Entries? ==> |p.lines| == |e| && forall i :: 0 <= i < |e| ==> p.lines[i] == ClinicalLine(e[i]))
    ensures LifestyleHistoryPanel(Apply(Initial, LifestyleHistory(Failed))) == NoAssessments(LifestyleKind)
    ensures ClinicalHistoryPanel(Apply(Initial, ClinicalHistory(Failed))) == NoAssessments(ClinicalKind)
    ensures LifestyleHistoryPanel(Apply(s, LifestyleHistory(Received(ErrorObject)))) == NoAssessments(LifestyleKind)
    ensures ClinicalHistoryPanel(Apply(s, ClinicalHistory(Received(ErrorObject)))) == NoAssessments(ClinicalKind)
    ensures LifestyleHistoryPanel(Apply(s, LifestyleHistory(Received(JsonNull)))) == RenderFailure
    ensures ClinicalHistoryPanel(Apply(s, ClinicalHistory(Received(JsonNull)))) == RenderFailure
  {
  }

  // ---------------------------------------------------------------- lab locator

  datatype Branch = Branch(name: string, code: string)

  /** The branch list after its fetch: the answer as received, and the empty list when the fetch fails. */
  function LoadedBranches(f: Fetch<seq<Branch>>): (r: seq<Branch>)
    ensures f.Received? ==> r == f.data
    ensures f.Failed? ==> r == []
  {
    if f.Received? then f.data else []
  }

  /** The lower-cased search is part of the lower-cased name or code. */
  predicate Matches(b: Branch, search: string)
  {
    Contains(Lower(b.name), Lower(search)) || Contains(Lower(b.code), Lower(search))
  }

  /** The branches listed for a search: the matching ones, in their original order. */
  function FilteredBranches(branches: seq<Branch>, search: string): (r: seq<Branch>)
    ensures IsSubsequence(r, branches)
    ensures forall b :: b in r <==> b in branches && Matches(b, search)
  {
    FilterIsSubsequence(branches, b => Matches(b, search));
    Filter(branches, b => Matches(b, search))
  }

  /**
   * After the branch fetch, a search lists exactly the received branches that
   * match it, in their order; after a failed fetch no search lists anything.
   */
  lemma BranchesAfterFetch(f: Fetch<seq<Branch>>, search: string)
    ensures f.Failed? ==> FilteredBranches(LoadedBranches(f), search) == []
    ensures f.Received? ==> IsSubsequence(FilteredBranches(LoadedBranches(f), search), f.data)
    ensures f.Received? ==> forall b :: b in FilteredBranches(LoadedBranches(f), search) <==> b in f.data && Matches(b, search)
  {
  }

  /** An empty search lists every branch. */
  lemma EmptySearchKeepsAll(branches: seq<Branch>)
    ensures FilteredBranches(branches, "") == branches
  {
    forall b | b in branches ensures Matches(b, "") {
      ContainsEmpty(Lower(b.name));
    }
    FilterKeepsAll(branches, b => Matches(b, ""));
  }

  /** Searching for a branch's own name or code, in any letter case, finds it. */
  lemma OwnNameOrCodeFinds(branches: seq<Branch>, b: Branch, search: string)
    requires b in branches
    requires Lower(search) == Lower(b.name) || Lower(search) == Lower(b.code)
    ensures b in FilteredBranches(branches, search)
  {
    ContainsItself(Lower(b.name));
    ContainsItself(Lower(b.code));
  }
}
