/**
 * The six-class adult BMI categorisation of the World Health Organization,
 * as the cardiovascular training script encodes it (`encode_bmi`).
 */
module BmiCategory {

  datatype BmiClass = Underweight | Normal | Overweight | ObesityI | ObesityII | ObesityIII
  {
    /** The label stored in the `BMI_Category` column. */
    function Label(): string
    {
      match this
      case Underweight => "Underweight"
      case Normal => "Normal"
      case Overweight => "Overweight"
      case ObesityI => "Obesity Class I"
      case ObesityII => "Obesity Class II"
      case ObesityIII => "Obesity Class III"
    }

    /** Position of the class in order of increasing BMI. */
    function Rank(): nat
    {
      match this
      case Underweight => 0
      case Normal => 1
      case Overweight => 2
      case ObesityI => 3
      case ObesityII => 4
      case ObesityIII => 5
    }
  }

  /** The lower bounds of the classes above Underweight; each bound belongs to the class it starts. */
  const Thresholds: seq<real> := [18.5, 25.0, 30.0, 35.0, 40.0]

  /** How many of the thresholds `bmi` has reached. */
  function Reached(ts: seq<real>, bmi: real): (n: nat)
    ensures n <= |ts|
  {
    if ts == [] then 0 else (if ts[0] <= bmi then 1 else 0) + Reached(ts[1..], bmi)
  }

  /** The class `c` covers `bmi`: `bmi` lies in the half-open interval of `c`. */
  predicate Covers(c: BmiClass, bmi: real)
  {
    (c.Rank() == 0 || Thresholds[c.Rank() - 1] <= bmi) &&
    (c.Rank() == 5 || bmi < Thresholds[c.Rank()])
  }

  /** `encode_bmi`: total, and the class it returns is the one whose interval holds `bmi`. */
  function EncodeBmi(bmi: real): (c: BmiClass)
    ensures Covers(c, bmi)
    ensures bmi < 18.5 <==> c == Underweight
    ensures 18.5 <= bmi < 25.0 <==> c == Normal
    ensures 40.0 <= bmi <==> c == ObesityIII
  {
    if bmi < 18.5 then Underweight
    else if bmi < 25.0 then Normal
    else if bmi < 30.0 then Overweight
    else if bmi < 35.0 then ObesityI
    else if bmi < 40.0 then ObesityII
    else ObesityIII
  }

  /** The intervals do not overlap: the class covering a BMI is unique. */
  lemma CoversUnique(c: BmiClass, d: BmiClass, bmi: real)
    requires Covers(c, bmi) && Covers(d, bmi)
    ensures c == d
  {
    assert Thresholds[0] < Thresholds[1] < Thresholds[2] < Thresholds[3] < Thresholds[4];
  }

  /** `encode_bmi` returns `c` exactly when `c`'s interval holds the BMI. */
  lemma EncodeBmiExactly(c: BmiClass, bmi: real)
    ensures EncodeBmi(bmi) == c <==> Covers(c, bmi)
  {
    if Covers(c, bmi) {
      CoversUnique(c, EncodeBmi(bmi), bmi);
    }
  }

  /** The class index is the number of thresholds reached. */
  lemma {:induction false} EncodeBmiRank(bmi: real)
    ensures EncodeBmi(bmi).Rank() == Reached(Thresholds, bmi)
  {
    var t5: seq<real> := [40.0];
    var t4: seq<real> := [35.0] + t5;
    var t3: seq<real> := [30.0] + t4;
    var t2: seq<real> := [25.0] + t3;
    assert Thresholds == [18.5] + t2;
    assert t5[1..] == [];
    assert Reached(t5, bmi) == if 40.0 <= bmi then 1 else 0;
    assert t4[1..] == t5;
    assert Reached(t4, bmi) == (if 35.0 <= bmi then 1 else 0) + Reached(t5, bmi);
    assert t3[1..] == t4;
    assert Reached(t3, bmi) == (if 30.0 <= bmi then 1 else 0) + Reached(t4, bmi);
    assert t2[1..] == t3;
    assert Reached(t2, bmi) == (if 25.0 <= bmi then 1 else 0) + Reached(t3, bmi);
    assert Thresholds[1..] == t2;
    assert Reached(Thresholds, bmi) == (if 18.5 <= bmi then 1 else 0) + Reached(t2, bmi);
  }

  lemma {:induction false} ReachedMonotone(ts: seq<real>, a: real, b: real)
    requires a <= b
    ensures Reached(ts, a) <= Reached(ts, b)
  {
    if ts != [] {
      ReachedMonotone(ts[1..], a, b);
    }
  }

  /** A larger BMI never gets a lower class. */
  lemma EncodeBmiMonotone(a: real, b: real)
    requires a <= b
    ensures EncodeBmi(a).Rank() <= EncodeBmi(b).Rank()
  {
    EncodeBmiRank(a);
    EncodeBmiRank(b);
    ReachedMonotone(Thresholds, a, b);
  }

  /** The six labels are pairwise different. */
  lemma LabelsDistinct(c: BmiClass, d: BmiClass)
    requires c != d
    ensures c.Label() != d.Label()
  {
  }
}
