/**
 * The data mapping of the cardiovascular insights dashboard: the fixed-slot
 * pie data, the age buckets built row by row, the BMI points and the colour
 * chosen for a sex label. JSON values are modelled as scalars with
 * JavaScript's truthiness, `??` and `Number()`.
 */
module CardioInsights {
  import opened Wrappers
  import opened TextOps
  import opened TipLists

  /** A JSON scalar as the dashboard receives it. */
  datatype Scalar = Num(x: real) | Str(s: string) | Bool(b: bool) | Null

  /** A JavaScript number: finite, or NaN, which every addition propagates. */
  datatype Number = Finite(value: real) | NaN

  function Plus(a: Number, b: Number): Number
  {
    if a.Finite? && b.Finite? then Finite(a.value + b.value) else NaN
  }

  const Zero := Finite(0.0)

  /** A field that may be missing from its object (None). */
  function Lookup(m: map<string, Scalar>, key: string): Option<Scalar>
  {
    if key in m then Some(m[key]) else None
  }

  /** JavaScript truthiness; a missing field is `undefined`, which is falsy. */
  predicate Truthy(v: Option<Scalar>)
  {
    match v
    case None => false
    case Some(Num(x)) => x != 0.0
    case Some(Str(s)) => s != ""
    case Some(Bool(b)) => b
    case Some(Null) => false
  }

  /** `a || b || d` */
  function Or(a: Option<Scalar>, b: Option<Scalar>, d: Scalar): (r: Scalar)
    ensures Truthy(a) ==> r == a.value
    ensures !Truthy(a) && Truthy(b) ==> r == b.value
    ensures !Truthy(a) && !Truthy(b) ==> r == d
  {
    if Truthy(a) then a.value else if Truthy(b) then b.value else d
  }

  predicate Nullish(v: Option<Scalar>)
  {
    v.None? || v.value.Null?
  }

  /** `a ?? b ?? d` */
  function Coalesce(a: Option<Scalar>, b: Option<Scalar>, d: Scalar): (r: Scalar)
    ensures !r.Null? || d.Null?
    ensures !Nullish(a) ==> r == a.value
    ensures Nullish(a) && !Nullish(b) ==> r == b.value
    ensures Nullish(a) && Nullish(b) ==> r == d
  {
    if !Nullish(a) then a.value else if !Nullish(b) then b.value else d
  }

  /** `Number(v)` */
  function ToNumber(v: Scalar): Number
  {
    match v
    case Num(x) => Finite(x)
    case Str(s) => if JsNumber(s).Some? then Finite(JsNumber(s).value) else NaN
    case Bool(b) => Finite(if b then 1.0 else 0.0)
    case Null => Zero
  }

  // ---------------------------------------------------------------- pie data

  datatype Slice = Slice(name: string, value: Number)

  /** The two heart-disease slices: each from its label key, else its 0/1 key, else 0. */
  function HeartData(raw: map<string, Scalar>): (d: seq<Slice>)
    ensures |d| == 2 && d[0].name == "No" && d[1].name == "Yes"
    ensures !Truthy(Lookup(raw, "No")) && !Truthy(Lookup(raw, "0")) ==> d[0].value == Zero
    ensures !Truthy(Lookup(raw, "Yes")) && !Truthy(Lookup(raw, "1")) ==> d[1].value == Zero
    ensures Truthy(Lookup(raw, "No")) ==> d[0].value == ToNumber(raw["No"])
    ensures !Truthy(Lookup(raw, "No")) && Truthy(Lookup(raw, "0")) ==> d[0].value == ToNumber(raw["0"])
    ensures Truthy(Lookup(raw, "Yes")) ==> d[1].value == ToNumber(raw["Yes"])
    ensures !Truthy(Lookup(raw, "Yes")) && Truthy(Lookup(raw, "1")) ==> d[1].value == ToNumber(raw["1"])
  {
    [ Slice("No", ToNumber(Or(Lookup(raw, "No"), Lookup(raw, "0"), Num(0.0)))),
      Slice("Yes", ToNumber(Or(Lookup(raw, "Yes"), Lookup(raw, "1"), Num(0.0)))) ]
  }

  /** A label key that holds a non-zero count wins over the numeric key. */
  lemma HeartLabelKeyWins(raw: map<string, Scalar>, x: real, y: real)
    requires x != 0.0 && y != 0.0
    ensures HeartData(raw["No" := Num(x)])[0].value == Finite(x)
    ensures HeartData(raw["Yes" := Num(y)])[1].value == Finite(y)
  {
  }

  /** The four diabetes answers, their keys in the data and their slice labels. */
  datatype DiabetesAnswer = NoDiabetes | Borderline | YesDiabetes | PregnancyOnly
  {
    function Key(): string
    {
      match this
      case NoDiabetes => "No"
      case Borderline => "No, pre-diabetes or borderline diabetes"
      case YesDiabetes => "Yes"
      case PregnancyOnly => "Yes, but female told only during pregnancy"
    }

    function Label(): string
    {
      match this
      case NoDiabetes => "No"
      case Borderline => "Borderline"
      case YesDiabetes => "Yes"
      case PregnancyOnly => "Pregnancy Only"
    }
  }

  const DiabetesAnswers := [NoDiabetes, Borderline, YesDiabetes, PregnancyOnly]

  function DiabetesSlice(raw: map<string, Scalar>, a: DiabetesAnswer): Slice
  {
    Slice(a.Label(), ToNumber(Or(Lookup(raw, a.Key()), None, Num(0.0))))
  }

  /**
   * Always the four slices, in the fixed order; a slice is `Number` of its
   * key's value when that is truthy, and 0 otherwise (a missing key included).
   */
  function DiabetesData(raw: map<string, Scalar>): (d: seq<Slice>)
    ensures |d| == 4
    ensures forall i :: 0 <= i < 4 ==> d[i].name == DiabetesAnswers[i].Label()
    ensures forall i :: 0 <= i < 4 && DiabetesAnswers[i].Key() !in raw ==> d[i].value == Zero
    ensures forall i :: 0 <= i < 4 && !Truthy(Lookup(raw, DiabetesAnswers[i].Key())) ==> d[i].value == Zero
    ensures forall i :: 0 <= i < 4 && Truthy(Lookup(raw, DiabetesAnswers[i].Key())) ==>
      d[i].value == ToNumber(raw[DiabetesAnswers[i].Key()])
  {
    seq(4, i requires 0 <= i < 4 => DiabetesSlice(raw, DiabetesAnswers[i]))
  }

  /** Each diabetes slice reads only its own key. */
  lemma DiabetesSliceOwnKey(raw: map<string, Scalar>, key: string, v: Scalar, i: nat)
    requires i < 4 && key != DiabetesAnswers[i].Key()
    ensures DiabetesData(raw[key := v])[i] == DiabetesData(raw)[i]
  {
    assert Lookup(raw[key := v], DiabetesAnswers[i].Key()) == Lookup(raw, DiabetesAnswers[i].Key());
  }

  // ---------------------------------------------------------------- sex colours

  datatype Colour = Blue | Pink
  {
    function Hex(): string
    {
      match this
      case Blue => "#2563eb"
      case Pink => "#ec4899"
    }
  }

  /** `sexColorFor`: blue when the lower-cased label starts with "m". */
  function SexColorFor(name: string): (c: Colour)
  {
    if StartsWith(Lower(name), "m") then Blue else Pink
  }

  /** Blue exactly for a label whose first letter is m or M. */
  lemma SexColorByFirstLetter(name: string)
    ensures SexColorFor(name) == Blue <==> |name| > 0 && (name[0] == 'm' || name[0] == 'M')
  {
    if |name| > 0 {
      assert Lower(name)[..1] == [LowerChar(name[0])];
    }
  }

  // ---------------------------------------------------------------- age buckets

  /**
   * One row of `age_disease`; the fields with `Alt` are the lower-case
   * spellings `age`, `heart_disease` and `count` the row may use instead.
   */
  datatype Row = Row(ageCategory: Option<Scalar>, ageAlt: Option<Scalar>,
                     heartDisease: Option<Scalar>, heartDiseaseAlt: Option<Scalar>,
                     count: Option<Scalar>, countAlt: Option<Scalar>)

  /** The bucket a row belongs to: its age, or "Unknown". */
  function AgeKey(r: Row): (k: Scalar)
    ensures !k.Null?
    ensures !Nullish(r.ageCategory) ==> k == r.ageCategory.value
    ensures Nullish(r.ageCategory) && !Nullish(r.ageAlt) ==> k == r.ageAlt.value
    ensures Nullish(r.ageCategory) && Nullish(r.ageAlt) ==> k == Str("Unknown")
  {
    Coalesce(r.ageCategory, r.ageAlt, Str("Unknown"))
  }

  /** The test on `String(v).toLowerCase()`. */
  predicate YesText(t: string)
  {
    var l := Lower(t);
    l == "yes" || l == "1" || l == "true"
  }

  /** Whether a heart-disease value counts as Yes. */
  predicate IsYes(v: Scalar)
  {
    match v
    case Str(s) => YesText(s)
    case Num(x) => x == 1.0
    case Bool(b) => b
    case Null => false
  }

  /** `String(v)`, for the values whose text the model fixes: all but non-integral numbers. */
  function TextOf(v: Scalar): Option<string>
  {
    match v
    case Str(s) => Some(s)
    case Num(x) => if x == x.Floor as real then Some(IntToString(x.Floor)) else None
    case Bool(b) => Some(if b then "true" else "false")
    case Null => Some("null")
  }

  lemma WordTexts()
    ensures YesText("true") && !YesText("false") && !YesText("null")
  {
    assert Lower("true") == "true";
    assert Lower("false") == "false";
    assert Lower("null") == "null";
  }

  /** `IsYes` is the test on the value's text. */
  lemma IsYesIsTextTest(v: Scalar)
    requires TextOf(v).Some?
    ensures IsYes(v) <==> YesText(TextOf(v).value)
  {
    match v
    case Num(x) =>
      IntToStringIsOne(x.Floor);
      IntToStringIsNoWord(x.Floor);
    case Str(_) =>
    case Bool(b) =>
      WordTexts();
    case Null =>
      WordTexts();
  }

  /** `yes`: the first truthy heart-disease field passes the text test; no such field is a No. */
  function RowYes(r: Row): (y: bool)
    ensures Truthy(r.heartDisease) ==> (y <==> IsYes(r.heartDisease.value))
    ensures !Truthy(r.heartDisease) && Truthy(r.heartDiseaseAlt) ==> (y <==> IsYes(r.heartDiseaseAlt.value))
    ensures !Truthy(r.heartDisease) && !Truthy(r.heartDiseaseAlt) ==> !y
  {
    IsYes(Or(r.heartDisease, r.heartDiseaseAlt, Str("")))
  }

  /** `Number(row.Count ?? row.count ?? 0)`: the first non-nullish count, 0 without one. */
  function RowCount(r: Row): (n: Number)
    ensures !Nullish(r.count) ==> n == ToNumber(r.count.value)
    ensures Nullish(r.count) && !Nullish(r.countAlt) ==> n == ToNumber(r.countAlt.value)
    ensures Nullish(r.count) && Nullish(r.countAlt) ==> n == Zero
  {
    ToNumber(Coalesce(r.count, r.countAlt, Num(0.0)))
  }

  datatype Bucket = Bucket(age: Scalar, no: Number, yes: Number)

  /** `ageMap`: its buckets and, as a JavaScript object keeps them, the order their keys were added in. */
  datatype Table = Table(order: seq<Scalar>, buckets: map<Scalar, Bucket>)

  const EmptyTable := Table([], map[])

  function Fresh(k: Scalar): Bucket
  {
    Bucket(k, Zero, Zero)
  }

  /** The bucket of key `k`, or a fresh one when there is none yet. */
  function BucketOr(t: Table, k: Scalar): Bucket
  {
    if k in t.buckets then t.buckets[k] else Fresh(k)
  }

  /** One step of the loop: the row's count goes to Yes or No in the bucket of its age. */
  function AddRow(t: Table, r: Row): Table
  {
    var k := AgeKey(r);
    var b := BucketOr(t, k);
    var b' := if RowYes(r) then b.(yes := Plus(b.yes, RowCount(r))) else b.(no := Plus(b.no, RowCount(r)));
    Table(if k in t.buckets then t.order else t.order + [k], t.buckets[k := b'])
  }

  /** The table after the rows, processed first to last. */
  function Tabulate(rows: seq<Row>): Table
    decreases |rows|
  {
    if rows == [] then EmptyTable else AddRow(Tabulate(rows[..|rows| - 1]), rows[|rows| - 1])
  }

  ghost predicate WellFormed(t: Table)
  {
    && NoDuplicates(t.order)
    && (forall k :: k in t.buckets <==> k in t.order)
    && (forall k :: k in t.buckets ==> t.buckets[k].age == k)
  }

  /** `Object.values(ageMap)` */
  function Values(t: Table): (v: seq<Bucket>)
    requires WellFormed(t)
    ensures |v| == |t.order|
    ensures forall i :: 0 <= i < |v| ==> v[i].age == t.order[i] && v[i] == t.buckets[t.order[i]]
  {
    seq(|t.order|, i requires 0 <= i < |t.order| => t.buckets[t.order[i]])
  }

  /** The age keys the rows carry. */
  function KeysOf(rows: seq<Row>): set<Scalar>
  {
    set r | r in rows :: AgeKey(r)
  }

  /** The loop, as the dashboard runs it, over a map and its key order. */
  method AgeData(rows: seq<Row>) returns (ageData: seq<Bucket>)
    ensures WellFormed(Tabulate(rows))
    ensures ageData == Values(Tabulate(rows))
  {
    var order: seq<Scalar> := [];
    var ageMap: map<Scalar, Bucket> := map[];
    var i := 0;
    while i < |rows|
      invariant 0 <= i <= |rows|
      invariant Table(order, ageMap) == Tabulate(rows[..i])
    {
      ghost var before := Table(order, ageMap);
      var row := rows[i];
      var age := AgeKey(row);
      var yes := RowYes(row);
      if age !in ageMap {
        ageMap := ageMap[age := Fresh(age)];
        order := order + [age];
      }
      assert ageMap[age] == BucketOr(before, age) && order == AddRow(before, row).order;
      var count := RowCount(row);
      if yes {
        ageMap := ageMap[age := ageMap[age].(yes := Plus(ageMap[age].yes, count))];
      } else {
        ageMap := ageMap[age := ageMap[age].(no := Plus(ageMap[age].no, count))];
      }
      assert Table(order, ageMap) == AddRow(before, row);
      TabulateStep(rows, i);
      i := i + 1;
    }
    assert rows[..i] == rows;
    TabulateKeys(rows);
    ageData := Values(Table(order, ageMap));
  }

  /** The table after one more row is that row added to the table before it. */
  lemma TabulateStep(rows: seq<Row>, i: nat)
    requires i < |rows|
    ensures Tabulate(rows[..i + 1]) == AddRow(Tabulate(rows[..i]), rows[i])
  {
    assert rows[..i + 1][..i] == rows[..i];
  }

  /** Exactly one bucket per distinct age key, each labelled with its key, in first-seen order without repeats. */
  lemma {:induction false} TabulateKeys(rows: seq<Row>)
    decreases |rows|
    ensures WellFormed(Tabulate(rows))
    ensures Tabulate(rows).buckets.Keys == KeysOf(rows)
  {
    if rows != [] {
      var prefix := rows[..|rows| - 1];
      var last := rows[|rows| - 1];
      TabulateKeys(prefix);
      assert rows == prefix + [last];
      assert KeysOf(rows) == KeysOf(prefix) + {AgeKey(last)};
      var t := Tabulate(prefix);
      if AgeKey(last) !in t.buckets {
        var order' := t.order + [AgeKey(last)];
        forall i, j | 0 <= i < j < |order'| ensures order'[i] != order'[j] {
          if j == |order'| - 1 {
            assert order'[i] == t.order[i];
          }
        }
      }
    }
  }

  /** The position of the first row whose age key is `k`. */
  function FirstIndex(rows: seq<Row>, k: Scalar): (n: nat)
    requires k in KeysOf(rows)
    decreases |rows|
    ensures n < |rows| && AgeKey(rows[n]) == k
    ensures forall m :: 0 <= m < n ==> AgeKey(rows[m]) != k
  {
    var prefix := rows[..|rows| - 1];
    assert rows == prefix + [rows[|rows| - 1]];
    if k in KeysOf(prefix) then FirstIndex(prefix, k)
    else
      assert forall m :: 0 <= m < |prefix| ==> AgeKey(rows[m]) != k by {
        forall m | 0 <= m < |prefix| ensures AgeKey(rows[m]) != k {
          assert rows[m] == prefix[m] && prefix[m] in prefix;
        }
      }
      |rows| - 1
  }

  /**
   * The buckets are listed in the order their ages first occur in the rows:
   * of two listed keys, the earlier one has the earlier first row.
   */
  lemma {:induction false} OrderIsFirstSeen(rows: seq<Row>)
    decreases |rows|
    ensures WellFormed(Tabulate(rows))
    ensures forall i :: 0 <= i < |Tabulate(rows).order| ==> Tabulate(rows).order[i] in KeysOf(rows)
    ensures forall i, j :: 0 <= i < j < |Tabulate(rows).order| ==>
      FirstIndex(rows, Tabulate(rows).order[i]) < FirstIndex(rows, Tabulate(rows).order[j])
  {
    TabulateKeys(rows);
    if rows != [] {
      var prefix := rows[..|rows| - 1];
      var last := rows[|rows| - 1];
      OrderIsFirstSeen(prefix);
      TabulateKeys(prefix);
      FirstIndexOfPrefix(rows);
      assert rows == prefix + [last];
      assert Tabulate(rows).order == AddRow(Tabulate(prefix), last).order;
      OrderStep(prefix, last, rows, Tabulate(prefix).order);
    }
  }

  /** A key already in the rows before the last has the same first row with the last one added. */
  lemma FirstIndexOfPrefix(rows: seq<Row>)
    requires rows != []
    ensures forall k :: k in KeysOf(rows[..|rows| - 1]) ==>
      k in KeysOf(rows) && FirstIndex(rows, k) == FirstIndex(rows[..|rows| - 1], k)
  {
  }

  /** One step of the first-seen order: adding the last row appends its key only when that key is new. */
  lemma OrderStep(prefix: seq<Row>, last: Row, rows: seq<Row>, order: seq<Scalar>)
    requires rows == prefix + [last]
    requires forall i :: 0 <= i < |order| ==> order[i] in KeysOf(prefix)
    requires forall i, j :: 0 <= i < j < |order| ==> FirstIndex(prefix, order[i]) < FirstIndex(prefix, order[j])
    requires forall k :: k in KeysOf(prefix) ==> k in KeysOf(rows) && FirstIndex(rows, k) == FirstIndex(prefix, k)
    requires AgeKey(last) in order <==> AgeKey(last) in KeysOf(prefix)
    ensures var o := if AgeKey(last) in order then order else order + [AgeKey(last)];
      && (forall i :: 0 <= i < |o| ==> o[i] in KeysOf(rows))
      && (forall i, j :: 0 <= i < j < |o| ==> FirstIndex(rows, o[i]) < FirstIndex(rows, o[j]))
  {
    var k := AgeKey(last);
    assert k in KeysOf(rows) by { assert last in rows; }
    if k !in order {
      var o := order + [k];
      assert FirstIndex(rows, k) == |rows| - 1 by {
        forall m | 0 <= m < |rows| - 1 ensures AgeKey(rows[m]) != k {
          assert rows[m] == prefix[m] && prefix[m] in prefix;
        }
      }
      forall i, j | 0 <= i < j < |o| ensures FirstIndex(rows, o[i]) < FirstIndex(rows, o[j]) {
        assert o[i] == order[i];
        if j < |o| - 1 {
          assert o[j] == order[j];
        }
      }
    }
  }

  /** The sum of the counts of the rows with key `k` and the given answer, 0 when there are none. */
  function AnswerTotal(rows: seq<Row>, k: Scalar, yes: bool): Number
    decreases |rows|
  {
    if rows == [] then Zero
    else
      var last := rows[|rows| - 1];
      Plus(AnswerTotal(rows[..|rows| - 1], k, yes), if AgeKey(last) == k && RowYes(last) == yes then RowCount(last) else Zero)
  }

  /**
   * Every row's count lands in exactly one place: the Yes or No side of its
   * own age's bucket. So each bucket holds the totals of its rows, and a key
   * no row carries has an empty bucket.
   */
  lemma {:induction false} BucketTotals(rows: seq<Row>, k: Scalar)
    decreases |rows|
    ensures BucketOr(Tabulate(rows), k) == Bucket(k, AnswerTotal(rows, k, false), AnswerTotal(rows, k, true))
  {
    if rows != [] {
      var prefix := rows[..|rows| - 1];
      var last := rows[|rows| - 1];
      BucketTotals(prefix, k);
      assert Tabulate(rows) == AddRow(Tabulate(prefix), last);
      if AgeKey(last) != k {
        assert BucketOr(AddRow(Tabulate(prefix), last), k) == BucketOr(Tabulate(prefix), k);
      }
    }
  }

  /** The Yes and No totals of a list of buckets. */
  function SumBuckets(bs: seq<Bucket>): Number
  {
    if bs == [] then Zero else Plus(Plus(bs[0].yes, bs[0].no), SumBuckets(bs[1..]))
  }

  /** The sum of the counts of all rows. */
  function RowTotal(rows: seq<Row>): Number
    decreases |rows|
  {
    if rows == [] then Zero else Plus(RowTotal(rows[..|rows| - 1]), RowCount(rows[|rows| - 1]))
  }

  lemma {:induction false} SumAfterUpdate(bs: seq<Bucket>, j: nat, b: Bucket, d: Number)
    requires j < |bs|
    requires Plus(b.yes, b.no) == Plus(Plus(bs[j].yes, bs[j].no), d)
    ensures SumBuckets(bs[j := b]) == Plus(SumBuckets(bs), d)
  {
    if j == 0 {
      assert bs[j := b][1..] == bs[1..];
    } else {
      SumAfterUpdate(bs[1..], j - 1, b, d);
      assert bs[j := b][1..] == bs[1..][j - 1 := b];
    }
  }

  lemma {:induction false} SumAfterAppend(bs: seq<Bucket>, b: Bucket)
    ensures SumBuckets(bs + [b]) == Plus(SumBuckets(bs), Plus(b.yes, b.no))
  {
    if bs != [] {
      SumAfterAppend(bs[1..], b);
      assert (bs + [b])[1..] == bs[1..] + [b];
    }
  }

  /** Over all buckets, the Yes and No totals add up to the sum of the rows' counts. */
  lemma {:induction false} TotalsPreserved(rows: seq<Row>)
    decreases |rows|
    ensures WellFormed(Tabulate(rows))
    ensures SumBuckets(Values(Tabulate(rows))) == RowTotal(rows)
  {
    TabulateKeys(rows);
    if rows != [] {
      var prefix := rows[..|rows| - 1];
      var last := rows[|rows| - 1];
      TotalsPreserved(prefix);
      assert Tabulate(rows) == AddRow(Tabulate(prefix), last);
      TotalsStep(Tabulate(prefix), last);
    }
  }

  /** Adding one row adds its count to the Yes and No totals of the buckets. */
  lemma TotalsStep(t: Table, r: Row)
    requires WellFormed(t) && WellFormed(AddRow(t, r))
    ensures SumBuckets(Values(AddRow(t, r))) == Plus(SumBuckets(Values(t)), RowCount(r))
  {
    var t' := AddRow(t, r);
    var k := AgeKey(r);
    var b := BucketOr(t, k);
    var b' := t'.buckets[k];
    assert Plus(b'.yes, b'.no) == Plus(Plus(b.yes, b.no), RowCount(r));
    if k in t.buckets {
      var j :| 0 <= j < |t.order| && t.order[j] == k;
      assert Values(t') == Values(t)[j := b'];
      SumAfterUpdate(Values(t), j, b', RowCount(r));
    } else {
      assert Values(t') == Values(t) + [b'];
      SumAfterAppend(Values(t), b');
    }
  }

  // ---------------------------------------------------------------- BMI points

  /** One row of `bmi_exercise`; the `Alt` fields are the spellings `exercise` and `bmi`. */
  datatype BmiRow = BmiRow(exercise: Option<Scalar>, exerciseAlt: Option<Scalar>, mean: Option<Scalar>, bmiAlt: Option<Scalar>)

  datatype BmiPoint = BmiPoint(exercise: Scalar, bmi: Number)

  /** One point: the first non-nullish exercise value (else "Unknown") and `Number` of the first non-nullish mean (else 0). */
  function PointOf(r: BmiRow): (p: BmiPoint)
    ensures !p.exercise.Null?
    ensures Nullish(r.exercise) && Nullish(r.exerciseAlt) ==> p.exercise == Str("Unknown")
    ensures !Nullish(r.exercise) ==> p.exercise == r.exercise.value
    ensures Nullish(r.exercise) && !Nullish(r.exerciseAlt) ==> p.exercise == r.exerciseAlt.value
    ensures !Nullish(r.mean) ==> p.bmi == ToNumber(r.mean.value)
    ensures Nullish(r.mean) && !Nullish(r.bmiAlt) ==> p.bmi == ToNumber(r.bmiAlt.value)
    ensures Nullish(r.mean) && Nullish(r.bmiAlt) ==> p.bmi == Zero
  {
    BmiPoint(Coalesce(r.exercise, r.exerciseAlt, Str("Unknown")), ToNumber(Coalesce(r.mean, r.bmiAlt, Num(0.0))))
  }

  /** One point per row, in the rows' order. */
  function BmiData(rows: seq<BmiRow>): (d: seq<BmiPoint>)
    ensures |d| == |rows|
    ensures forall i :: 0 <= i < |rows| ==> d[i] == PointOf(rows[i])
  {
    seq(|rows|, i requires 0 <= i < |rows| => PointOf(rows[i]))
  }
}
