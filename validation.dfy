/** Input validation of the BMI form: the ordered chains of checks that
    "Calculate & Save" and "Calculate Only" run before computing a BMI. */
module Validation {
  import opened Rounding

  datatype Option<T> = None | Some(value: T)

  /** A number as parseFloat or parseInt hands it over: not-a-number, one of
      the two infinities, or a finite value. */
  datatype Num = NaN | PosInf | NegInf | Finite(v: real)

  /** `!x` holds of NaN and of zero. */
  predicate Falsy(x: Num)
  {
    x.NaN? || (x.Finite? && x.v == 0.0)
  }

  /** `x < c`, `x <= c` and `x > c` for a constant c; every comparison with
      NaN is false. */
  predicate LessThan(x: Num, c: real)
  {
    x.NegInf? || (x.Finite? && x.v < c)
  }

  predicate AtMost(x: Num, c: real)
  {
    x.NegInf? || (x.Finite? && x.v <= c)
  }

  predicate GreaterThan(x: Num, c: real)
  {
    x.PosInf? || (x.Finite? && x.v > c)
  }

  /** The range an input must lie in: a finite value in [lo, hi]. */
  predicate Within(x: Num, lo: real, hi: real)
  {
    x.Finite? && lo <= x.v <= hi
  }

  const MinHeight := 0.5
  const MaxHeight := 3.0
  const MinWeight := 10.0
  const MaxWeight := 500.0
  const MinAge := 1.0
  const MaxAge := 120.0

  const MsgMissingAll := "Please enter valid numbers for all fields."
  const MsgNotPositiveAll := "Please enter positive values for all fields."
  const MsgMissingPair := "Please enter valid height and weight."
  const MsgNotPositivePair := "Please enter positive values."
  const MsgHeightRange := "Please enter a realistic height between 0.5m and 3m."
  const MsgWeightRange := "Please enter a realistic weight between 10kg and 500kg."
  const MsgAgeRange := "Please enter a realistic age between 1 and 120 years."

  /** What a chain of checks decides: a BMI, or the message of a failed check. */
  datatype Verdict = Accept(bmi: real) | Reject(message: string)

  /** One check of a chain: whether it fails, and what the user is told if so. */
  datatype Check = Check(fails: bool, message: string)

  /** Index of the first check that fails, or |checks| when none does. */
  function FirstFailing(checks: seq<Check>): (k: nat)
    ensures k <= |checks|
    ensures forall j :: 0 <= j < k ==> !checks[j].fails
    ensures k < |checks| ==> checks[k].fails
  {
    if checks == [] then 0
    else if checks[0].fails then 0
    else 1 + FirstFailing(checks[1..])
  }

  /** Running a chain with early returns: the message of the first failing
      check, if any check fails. */
  function FirstMessage(checks: seq<Check>): Option<string>
  {
    var k := FirstFailing(checks);
    if k < |checks| then Some(checks[k].message) else None
  }

  /** The message a verdict reports, if it is a rejection. */
  function Rejection(v: Verdict): Option<string>
  {
    match v
    case Accept(_) => None
    case Reject(m) => Some(m)
  }

  /** The checks of "Calculate & Save", in the order they are made. */
  function SubmitChecks(height: Num, weight: Num, age: Num): seq<Check>
  {
    [ Check(Falsy(height) || Falsy(weight) || Falsy(age), MsgMissingAll),
      Check(AtMost(height, 0.0) || AtMost(weight, 0.0) || AtMost(age, 0.0), MsgNotPositiveAll),
      Check(LessThan(height, MinHeight) || GreaterThan(height, MaxHeight), MsgHeightRange),
      Check(LessThan(weight, MinWeight) || GreaterThan(weight, MaxWeight), MsgWeightRange),
      Check(LessThan(age, MinAge) || GreaterThan(age, MaxAge), MsgAgeRange) ]
  }

  /** The checks of "Calculate Only", in the order they are made. */
  function CalculateChecks(height: Num, weight: Num): seq<Check>
  {
    [ Check(Falsy(height) || Falsy(weight), MsgMissingPair),
      Check(AtMost(height, 0.0) || AtMost(weight, 0.0), MsgNotPositivePair),
      Check(LessThan(height, MinHeight) || GreaterThan(height, MaxHeight), MsgHeightRange),
      Check(LessThan(weight, MinWeight) || GreaterThan(weight, MaxWeight), MsgWeightRange) ]
  }

  /** The BMI the form shows and saves: weight over height squared, rounded
      to cents; it is within half a cent of the exact quotient. */
  function ComputeBmi(height: real, weight: real): (bmi: real)
    requires height != 0.0
    ensures Dist(bmi, weight / (height * height)) <= 0.005
  {
    RoundToCents(weight / (height * height))
  }

  /** Multiplying by a non-negative factor keeps the order. */
  lemma MulMonotone(a: real, b: real, c: real)
    requires 0.0 <= a && b <= c
    ensures a * b <= a * c
  {
    var d := c - b;
    assert a * c == a * b + a * d;
    assert 0.0 <= a * d;
  }

  /** Multiplying by a positive factor keeps the strict order. */
  lemma MulStrict(a: real, b: real, c: real)
    requires 0.0 < a && b < c
    ensures a * b < a * c
  {
    var d := c - b;
    assert a * c == a * b + a * d;
    assert 0.0 < a * d;
  }

  /** The square of a height in [0.5, 3] lies in [0.25, 9]. */
  lemma SquareBounds(height: real)
    requires MinHeight <= height <= MaxHeight
    ensures 0.25 <= height * height <= 9.0
  {
    MulMonotone(height, 0.5, height);
    assert 0.25 <= height * 0.5 <= height * height;
    MulMonotone(height, height, 3.0);
    assert height * height <= height * 3.0 <= 9.0;
  }

  /** A factor q with sq * q == weight, for sq in [0.25, 9] and weight at
      most 500, is at most 2000. */
  lemma FactorUpperBound(weight: real, sq: real, q: real)
    requires weight <= MaxWeight && 0.25 <= sq && sq * q == weight
    ensures q <= 2000.0
  {
    if 2000.0 < q {
      MulStrict(sq, 2000.0, q);
      assert false;
    }
  }

  /** A factor q with sq * q == weight, for sq at most 9 and weight at
      least 10, is at least 10/9. */
  lemma FactorLowerBound(weight: real, sq: real, q: real)
    requires MinWeight <= weight && 0.0 < sq <= 9.0 && sq * q == weight
    ensures 10.0 <= 9.0 * q
  {
    if 9.0 * q < 10.0 {
      MulStrict(sq, 9.0 * q, 10.0);
      assert false;
    }
  }

  /** For heights in [0.5, 3] and weights in [10, 500], the exact quotient
      lies in [10/9, 2000]. */
  lemma ExactBmiBounds(height: real, weight: real)
    requires MinHeight <= height <= MaxHeight && MinWeight <= weight <= MaxWeight
    ensures 10.0 / 9.0 <= weight / (height * height) <= 2000.0
  {
    var sq := height * height;
    SquareBounds(height);
    var q := weight / sq;
    assert sq * q == weight;
    FactorUpperBound(weight, sq, q);
    FactorLowerBound(weight, sq, q);
  }

  /** The rounded BMI of accepted inputs lies in [1.11, 2000]. */
  lemma BmiBounds(height: real, weight: real)
    requires MinHeight <= height <= MaxHeight && MinWeight <= weight <= MaxWeight
    ensures 1.11 <= ComputeBmi(height, weight) <= 2000.0
  {
    ExactBmiBounds(height, weight);
    RoundToCentsBetween(weight / (height * height), 111, 200000);
  }

  /** handleSubmit's validation: a chain of tests with early returns. It
      accepts exactly the inputs whose three values lie in their ranges, and
      a rejection carries the message of the first failing check. */
  function ValidateSubmit(height: Num, weight: Num, age: Num): (v: Verdict)
    ensures v.Accept? <==>
      Within(height, MinHeight, MaxHeight) && Within(weight, MinWeight, MaxWeight) && Within(age, MinAge, MaxAge)
    ensures v.Accept? ==> 1.11 <= v.bmi <= 2000.0
  {
    if Falsy(height) || Falsy(weight) || Falsy(age) then Reject(MsgMissingAll)
    else if AtMost(height, 0.0) || AtMost(weight, 0.0) || AtMost(age, 0.0) then Reject(MsgNotPositiveAll)
    else if LessThan(height, MinHeight) || GreaterThan(height, MaxHeight) then Reject(MsgHeightRange)
    else if LessThan(weight, MinWeight) || GreaterThan(weight, MaxWeight) then Reject(MsgWeightRange)
    else if LessThan(age, MinAge) || GreaterThan(age, MaxAge) then Reject(MsgAgeRange)
    else
      BmiBounds(height.v, weight.v);
      Accept(ComputeBmi(height.v, weight.v))
  }

  /** handleCalculateOnly's validation: the same chain without the age, with
      its own wording for the first two messages. */
  function ValidateCalculate(height: Num, weight: Num): (v: Verdict)
    ensures v.Accept? <==> Within(height, MinHeight, MaxHeight) && Within(weight, MinWeight, MaxWeight)
    ensures v.Accept? ==> 1.11 <= v.bmi <= 2000.0
  {
    if Falsy(height) || Falsy(weight) then Reject(MsgMissingPair)
    else if AtMost(height, 0.0) || AtMost(weight, 0.0) then Reject(MsgNotPositivePair)
    else if LessThan(height, MinHeight) || GreaterThan(height, MaxHeight) then Reject(MsgHeightRange)
    else if LessThan(weight, MinWeight) || GreaterThan(weight, MaxWeight) then Reject(MsgWeightRange)
    else
      BmiBounds(height.v, weight.v);
      Accept(ComputeBmi(height.v, weight.v))
  }

  /** The BMI of an accepted input is weight / height², rounded to cents:
      within half a cent of the exact quotient, for both handlers. */
  lemma AcceptedBmiNearQuotient(height: Num, weight: Num, age: Num)
    ensures ValidateSubmit(height, weight, age).Accept? ==>
      Dist(ValidateSubmit(height, weight, age).bmi, weight.v / (height.v * height.v)) <= 0.005
    ensures ValidateCalculate(height, weight).Accept? ==>
      Dist(ValidateCalculate(height, weight).bmi, weight.v / (height.v * height.v)) <= 0.005
  {
    if ValidateCalculate(height, weight).Accept? {
      assert ValidateCalculate(height, weight).bmi == ComputeBmi(height.v, weight.v);
      assert ValidateSubmit(height, weight, age).Accept? ==>
        ValidateSubmit(height, weight, age).bmi == ComputeBmi(height.v, weight.v);
    }
  }

  /** A chain rejects with the message of check k exactly when check k is
      the first to fail. */
  lemma {:induction false} FirstFailingIs(checks: seq<Check>, k: nat)
    requires k < |checks|
    ensures FirstFailing(checks) == k <==> checks[k].fails && forall j :: 0 <= j < k ==> !checks[j].fails
  {
  }

  /** "Calculate & Save" runs the chain of "Calculate Only" and then checks
      the age: whatever it accepts, "Calculate Only" accepts with the same
      BMI; whatever "Calculate Only" rejects, it rejects too, with the same
      range message once the age is a positive number; and an age rejection
      comes only after height and weight have passed. */
  lemma SubmitExtendsCalculate(height: Num, weight: Num, age: Num)
    ensures ValidateSubmit(height, weight, age).Accept? ==>
      ValidateCalculate(height, weight) == ValidateSubmit(height, weight, age)
    ensures ValidateCalculate(height, weight).Reject? ==> ValidateSubmit(height, weight, age).Reject?
    ensures !Falsy(age) && !AtMost(age, 0.0) && ValidateCalculate(height, weight) in {Reject(MsgHeightRange), Reject(MsgWeightRange)} ==>
      ValidateSubmit(height, weight, age) == ValidateCalculate(height, weight)
    ensures ValidateSubmit(height, weight, age) == Reject(MsgAgeRange) ==> ValidateCalculate(height, weight).Accept?
  {
  }

  /** handleSubmit reports the message of the first failing check of its
      chain, and accepts exactly when no check fails. */
  lemma SubmitFollowsChain(height: Num, weight: Num, age: Num)
    ensures Rejection(ValidateSubmit(height, weight, age)) == FirstMessage(SubmitChecks(height, weight, age))
  {
    var cs := SubmitChecks(height, weight, age);
    var k := FirstFailing(cs);
    assert k > 0 ==> !cs[0].fails;
    assert k > 1 ==> !cs[1].fails;
    assert k > 2 ==> !cs[2].fails;
    assert k > 3 ==> !cs[3].fails;
    assert k > 4 ==> !cs[4].fails;
  }

  /** handleCalculateOnly reports the message of the first failing check of
      its chain, and accepts exactly when no check fails. */
  lemma CalculateFollowsChain(height: Num, weight: Num)
    ensures Rejection(ValidateCalculate(height, weight)) == FirstMessage(CalculateChecks(height, weight))
  {
    var cs := CalculateChecks(height, weight);
    var k := FirstFailing(cs);
    assert k > 0 ==> !cs[0].fails;
    assert k > 1 ==> !cs[1].fails;
    assert k > 2 ==> !cs[2].fails;
    assert k > 3 ==> !cs[3].fails;
  }

  /** Worked examples: 1.75 m and 70 kg give 22.86; 1.60 m and 90 kg give
      35.16; a height of 0.4 m is always rejected. */
  lemma BmiExample()
    ensures ValidateCalculate(Finite(1.75), Finite(70.0)) == Accept(22.86)
    ensures ValidateCalculate(Finite(1.60), Finite(90.0)) == Accept(35.16)
    ensures forall weight, age :: ValidateSubmit(Finite(0.4), weight, age).Reject?
  {
  }
}
