/** BMI classification: the four left-closed buckets shared by the category
    badge and the advice text of the BMI calculator component. */
module Classification {
  import opened Validation

  /** The four buckets, in increasing order of BMI. */
  datatype Category = Underweight | NormalWeight | Overweight | Obese

  /** What the category badge shows: its name and the colour it is drawn in. */
  datatype CategoryInfo = CategoryInfo(category: string, color: string)

  /** A bound of a bucket; `Unbounded` stands for minus or plus infinity. */
  datatype Bound = Unbounded | At(value: real)

  /** Position of a bucket on the scale, 0 for Underweight up to 3 for Obese. */
  function Index(c: Category): nat
  {
    match c
    case Underweight => 0
    case NormalWeight => 1
    case Overweight => 2
    case Obese => 3
  }

  /** The BMI scale as a table: each bucket is the range [Lower, Upper). */
  function Lower(c: Category): Bound
  {
    match c
    case Underweight => Unbounded
    case NormalWeight => At(18.5)
    case Overweight => At(25.0)
    case Obese => At(30.0)
  }

  function Upper(c: Category): Bound
  {
    match c
    case Underweight => At(18.5)
    case NormalWeight => At(25.0)
    case Overweight => At(30.0)
    case Obese => Unbounded
  }

  /** `bmi` lies in the left-closed, right-open range of bucket `c`. */
  predicate InBucket(bmi: real, c: Category)
  {
    (Lower(c).Unbounded? || Lower(c).value <= bmi) &&
    (Upper(c).Unbounded? || bmi < Upper(c).value)
  }

  /** Name and colour the component displays for each bucket. */
  function Info(c: Category): CategoryInfo
  {
    match c
    case Underweight => CategoryInfo("Underweight", "#3b82f6")
    case NormalWeight => CategoryInfo("Normal weight", "#10b981")
    case Overweight => CategoryInfo("Overweight", "#f59e0b")
    case Obese => CategoryInfo("Obese", "#ef4444")
  }

  /** The advice texts, one per bucket. */
  const AdviceUnderweight := "Consider consulting a healthcare provider about healthy weight gain strategies."
  const AdviceNormal := "Great! You are in the healthy weight range. Maintain your current lifestyle."
  const AdviceOverweight := "Consider adopting healthier eating habits and increasing physical activity."
  const AdviceObese := "Please consult with a healthcare provider about weight management strategies."

  /** Advice text the component displays for each bucket. */
  function Advice(c: Category): string
  {
    match c
    case Underweight => AdviceUnderweight
    case NormalWeight => AdviceNormal
    case Overweight => AdviceOverweight
    case Obese => AdviceObese
  }

  /** The bucket a BMI value falls in, by the component's chain of tests. */
  function CategoryOf(bmi: real): (c: Category)
    ensures InBucket(bmi, c)
  {
    if bmi < 18.5 then Underweight
    else if bmi < 25.0 then NormalWeight
    else if bmi < 30.0 then Overweight
    else Obese
  }

  /** getBMICategory: the badge for a BMI value; it is the badge of the one
      bucket of the scale that holds the value. */
  function GetBMICategory(bmiValue: real): (r: CategoryInfo)
    ensures forall c :: InBucket(bmiValue, c) ==> r == Info(c)
  {
    if bmiValue < 18.5 then CategoryInfo("Underweight", "#3b82f6")
    else if bmiValue < 25.0 then CategoryInfo("Normal weight", "#10b981")
    else if bmiValue < 30.0 then CategoryInfo("Overweight", "#f59e0b")
    else CategoryInfo("Obese", "#ef4444")
  }

  /** getBMIAdvice: a chain of tests of its own, with the advice of the one
      bucket of the scale that holds the value as its result. */
  function GetBMIAdvice(bmiValue: real): (r: string)
    ensures forall c :: InBucket(bmiValue, c) ==> r == Advice(c)
  {
    if bmiValue < 18.5 then AdviceUnderweight
    else if bmiValue < 25.0 then AdviceNormal
    else if bmiValue < 30.0 then AdviceOverweight
    else AdviceObese
  }

  /** getBMICategory applied to an arbitrary JavaScript number, as the
      history list does with each fetched record's `bmi`. Every comparison
      with NaN is false, so NaN falls through to the last bucket. */
  function GetBMICategoryOfNumber(x: Num): (r: CategoryInfo)
    ensures x.Finite? ==> r == GetBMICategory(x.v)
    ensures x.NaN? || x.PosInf? ==> r == Info(Obese)
    ensures x.NegInf? ==> r == Info(Underweight)
  {
    if LessThan(x, 18.5) then CategoryInfo("Underweight", "#3b82f6")
    else if LessThan(x, 25.0) then CategoryInfo("Normal weight", "#10b981")
    else if LessThan(x, 30.0) then CategoryInfo("Overweight", "#f59e0b")
    else CategoryInfo("Obese", "#ef4444")
  }

  /** getBMIAdvice applied to an arbitrary JavaScript number. */
  function GetBMIAdviceOfNumber(x: Num): (r: string)
    ensures x.Finite? ==> r == GetBMIAdvice(x.v)
    ensures x.NaN? || x.PosInf? ==> r == Advice(Obese)
    ensures x.NegInf? ==> r == Advice(Underweight)
  {
    if LessThan(x, 18.5) then AdviceUnderweight
    else if LessThan(x, 25.0) then AdviceNormal
    else if LessThan(x, 30.0) then AdviceOverweight
    else AdviceObese
  }

  /** The buckets do not overlap: a value lies in at most one of them. */
  lemma BucketsDisjoint(bmi: real, c1: Category, c2: Category)
    requires InBucket(bmi, c1) && InBucket(bmi, c2)
    ensures c1 == c2
  {
  }

  /** The buckets partition the reals, with every threshold in the upper bucket. */
  lemma Partition(bmi: real, c: Category)
    ensures InBucket(bmi, c) <==> CategoryOf(bmi) == c
    ensures CategoryOf(bmi) == Underweight <==> bmi < 18.5
    ensures CategoryOf(bmi) == NormalWeight <==> 18.5 <= bmi < 25.0
    ensures CategoryOf(bmi) == Overweight <==> 25.0 <= bmi < 30.0
    ensures CategoryOf(bmi) == Obese <==> 30.0 <= bmi
  {
  }

  /** Distinct buckets show distinct badges and distinct advice. */
  lemma InfoAndAdviceInjective(c1: Category, c2: Category)
    requires c1 != c2
    ensures Info(c1).category != Info(c2).category
    ensures Info(c1).color != Info(c2).color
    ensures Advice(c1) != Advice(c2)
  {
  }

  /** The badge names exactly the bucket of the value, in both directions. */
  lemma CategoryMatchesBucket(bmi: real, c: Category)
    ensures GetBMICategory(bmi) == Info(c) <==> InBucket(bmi, c)
  {
  }

  /** The advice names exactly the bucket of the value, in both directions. */
  lemma AdviceMatchesBucket(bmi: real, c: Category)
    ensures GetBMIAdvice(bmi) == Advice(c) <==> InBucket(bmi, c)
  {
  }

  /** The advice and the badge shown for one value always speak of the same bucket. */
  lemma AdviceAgreesWithCategory(bmi: real, c: Category)
    ensures GetBMICategory(bmi) == Info(c) <==> GetBMIAdvice(bmi) == Advice(c)
  {
  }

  /** Badge and advice agree for every JavaScript number, NaN and the
      infinities included. */
  lemma AdviceAgreesWithCategoryOfNumber(x: Num, c: Category)
    ensures GetBMICategoryOfNumber(x) == Info(c) <==> GetBMIAdviceOfNumber(x) == Advice(c)
  {
    if x.Finite? {
      AdviceAgreesWithCategory(x.v, c);
    } else if Info(c) != GetBMICategoryOfNumber(x) {
      var b := if x.NegInf? then Underweight else Obese;
      InfoAndAdviceInjective(b, c);
    }
  }

  /** A larger BMI never falls in a lower bucket. */
  lemma Monotone(a: real, b: real)
    requires a <= b
    ensures Index(CategoryOf(a)) <= Index(CategoryOf(b))
  {
  }

  /** The boundary examples of the BMI scale. */
  lemma ScaleExamples()
    ensures GetBMICategory(17.9).category == "Underweight"
    ensures GetBMICategory(18.5).category == "Normal weight"
    ensures GetBMICategory(24.9).category == "Normal weight"
    ensures GetBMICategory(25.0).category == "Overweight"
    ensures GetBMICategory(29.9).category == "Overweight"
    ensures GetBMICategory(30.0).category == "Obese"
  {
  }

  /** A result card: a BMI value with the badge and the advice shown beside it. */
  datatype Card = Card(bmi: real, info: CategoryInfo, advice: string)

  /** The card the component renders for one BMI value: the badge and the
      advice always belong to the bucket that holds the value. */
  function CardFor(bmi: real): (card: Card)
    ensures card.bmi == bmi
    ensures card.info == Info(CategoryOf(bmi)) && card.advice == Advice(CategoryOf(bmi))
  {
    Card(bmi, GetBMICategory(bmi), GetBMIAdvice(bmi))
  }

  /** The history list: one card per saved record, in the order fetched; the
      argument holds the `bmi` fields of the records. */
  function HistoryCards(bmis: seq<real>): (cards: seq<Card>)
    ensures |cards| == |bmis|
    ensures forall i, c :: 0 <= i < |bmis| && InBucket(bmis[i], c) ==>
      cards[i] == Card(bmis[i], Info(c), Advice(c))
  {
    if bmis == [] then [] else [CardFor(bmis[0])] + HistoryCards(bmis[1..])
  }
}
