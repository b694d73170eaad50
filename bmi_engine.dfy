/** The BMI engine of the calculator screen: the category classifier, the
    two unit-specific validation chains with their fixed messages, and the
    two formulas. Everything here is a pure function of its inputs. */
module BmiEngine {
  import opened Types

  /** The label and panel colour the classifier returns. */
  datatype CategoryInfo = CategoryInfo(category: string, color: string)

  const UnderweightInfo := CategoryInfo("Underweight", "bg-blue-500")
  const NormalWeightInfo := CategoryInfo("Normal weight", "bg-green-500")
  const OverweightInfo := CategoryInfo("Overweight", "bg-yellow-500")
  const ObesityInfo := CategoryInfo("Obesity", "bg-red-600")

  // The fixed error messages, one per failed check.
  const MetricInputError := "Please enter valid positive numbers for height and weight."
  const WeightError := "Please enter a valid positive weight."
  const NegativeHeightError := "Height values cannot be negative."
  const HeightError := "Please enter a valid positive height."
  const CalculationError := "Could not calculate BMI. Please check your inputs."

  /** What a submission produces: a result to display or one error message. */
  datatype Outcome = Success(result: BmiResult) | Failure(message: string)

  /** First-match chain of threshold tests. Values in the open gaps
      (24.9, 25) and (29.9, 30) match none of the first three tests and so
      fall through to the last one. */
  function GetBmiCategory(bmi: real): (c: CategoryInfo)
    ensures c in {UnderweightInfo, NormalWeightInfo, OverweightInfo, ObesityInfo}
  {
    if bmi < 18.5 then UnderweightInfo
    else if bmi >= 18.5 && bmi <= 24.9 then NormalWeightInfo
    else if bmi >= 25.0 && bmi <= 29.9 then OverweightInfo
    else ObesityInfo
  }

  /** The JavaScript idiom `parseFloat(s) || 0`: a NaN becomes 0 and every
      other number is kept (0 itself is also replaced by 0). */
  function DefaultZero(x: Option<real>): (r: Option<real>)
    ensures r.Some?
    ensures x.Some? ==> r == x
    ensures x.None? ==> r.value == 0.0
  {
    match x
    case None => Some(0.0)
    case Some(v) => if v == 0.0 then Some(0.0) else Some(v)
  }

  /** Metric formula: weight in kilograms over the square of the height in
      metres. */
  function MetricFormula(heightCm: real, weightKg: real): (bmi: real)
    requires heightCm > 0.0
    ensures bmi * (heightCm / 100.0) * (heightCm / 100.0) == weightKg
    ensures weightKg > 0.0 ==> bmi > 0.0
  {
    var heightInMeters := heightCm / 100.0;
    weightKg / (heightInMeters * heightInMeters)
  }

  /** Imperial formula: pounds over square inches, scaled by 703. */
  function ImperialFormula(totalInches: real, weightLb: real): (bmi: real)
    requires totalInches > 0.0
    ensures bmi * totalInches * totalInches == 703.0 * weightLb
    ensures weightLb > 0.0 ==> bmi > 0.0
  {
    (weightLb / (totalInches * totalInches)) * 703.0
  }

  /** The final step of a submission: a positive BMI is classified and
      stored, anything else is reported as a failed calculation. */
  function Conclude(bmi: real): (r: Outcome)
    ensures r.Success? <==> bmi > 0.0
    ensures r.Success? ==> (r.result.bmi == bmi
      && CategoryInfo(r.result.category, r.result.color) == GetBmiCategory(bmi))
    ensures r.Failure? ==> r.message == CalculationError
  {
    if bmi > 0.0 then
      var info := GetBmiCategory(bmi);
      Success(BmiResult(bmi, info.category, info.color))
    else
      Failure(CalculationError)
  }

  /** Metric validation: both fields must be numbers and strictly positive. */
  function MetricOutcome(height: Option<real>, weight: Option<real>): (r: Outcome)
    ensures r.Failure? ==> r.message == MetricInputError
  {
    if height.None? || weight.None? || height.value <= 0.0 || weight.value <= 0.0 then
      Failure(MetricInputError)
    else
      Conclude(MetricFormula(height.value, weight.value))
  }

  /** Imperial validation: weight first, then negative height parts, then a
      non-positive total height; the first failing check decides the message. */
  function ImperialOutcome(feet: Option<real>, inches: Option<real>, weight: Option<real>): (r: Outcome)
    ensures r.Failure? ==> r.message in {WeightError, NegativeHeightError, HeightError}
  {
    var heightFt := DefaultZero(feet);
    var heightIn := DefaultZero(inches);
    if weight.None? || weight.value <= 0.0 then
      Failure(WeightError)
    else if heightFt.None? || heightIn.None? || heightFt.value < 0.0 || heightIn.value < 0.0 then
      Failure(NegativeHeightError)
    else
      var totalInches := heightFt.value * 12.0 + heightIn.value;
      if totalInches <= 0.0 then
        Failure(HeightError)
      else
        Conclude(ImperialFormula(totalInches, weight.value))
  }

  /** The body of the submit handler's `try` block: read the fields of the
      selected unit system, validate them and compute the outcome. */
  function ComputeBmi(unit: Unit, form: FormFields): (r: Outcome)
    ensures r.Success? ==> (r.result.bmi > 0.0
      && CategoryInfo(r.result.category, r.result.color) == GetBmiCategory(r.result.bmi))
    ensures r.Failure? ==> r.message != "" && r.message != CalculationError
    ensures r.Failure? ==>
      r.message in (if unit == Metric then {MetricInputError} else {WeightError, NegativeHeightError, HeightError})
  {
    match unit
    case Metric => MetricOutcome(form.metricHeight, form.metricWeight)
    case Imperial => ImperialOutcome(form.imperialHeightFt, form.imperialHeightIn, form.imperialWeight)
  }

  // ---------------------------------------------------------------------
  // Classifier properties

  /** Each category is reached exactly on its band; the Obesity band is
      everything above 29.9 together with the gap between 24.9 and 25. */
  lemma CategoryBands(bmi: real)
    ensures GetBmiCategory(bmi) == UnderweightInfo <==> bmi < 18.5
    ensures GetBmiCategory(bmi) == NormalWeightInfo <==> 18.5 <= bmi <= 24.9
    ensures GetBmiCategory(bmi) == OverweightInfo <==> 25.0 <= bmi <= 29.9
    ensures GetBmiCategory(bmi) == ObesityInfo <==> (24.9 < bmi < 25.0 || 29.9 < bmi)
  {
  }

  /** The colour is a one-to-one tag of the category label. */
  lemma ColorMatchesCategory(a: real, b: real)
    ensures GetBmiCategory(a).color == GetBmiCategory(b).color
        <==> GetBmiCategory(a).category == GetBmiCategory(b).category
  {
  }

  /** Severity order of the four categories. */
  function Severity(c: CategoryInfo): nat
  {
    if c == UnderweightInfo then 0
    else if c == NormalWeightInfo then 1
    else if c == OverweightInfo then 2
    else 3
  }

  /** The classifier is not monotone: a larger BMI can get a milder label. */
  lemma ClassifierNotMonotone()
    ensures Severity(GetBmiCategory(24.95)) > Severity(GetBmiCategory(25.0))
  {
  }

  /** The categories as the screen's information panel lists them
      (App.tsx:177-182: below 18.5, 18.5 - 24.9 "Healthy Weight",
      25.0 - 29.9, 30.0 and above), read with contiguous bands: below 18.5,
      below 25, below 30, the rest. */
  function ListedCategory(bmi: real): (c: CategoryInfo)
  {
    if bmi < 18.5 then UnderweightInfo
    else if bmi < 25.0 then NormalWeightInfo
    else if bmi < 30.0 then OverweightInfo
    else ObesityInfo
  }

  /** The classifier agrees with the contiguous bands exactly outside the
      two gaps, where it answers Obesity instead. */
  lemma AgreesWithListedBandsOutsideGaps(bmi: real)
    ensures GetBmiCategory(bmi) == ListedCategory(bmi)
        <==> !(24.9 < bmi < 25.0 || 29.9 < bmi < 30.0)
    ensures GetBmiCategory(bmi) != ListedCategory(bmi) ==> GetBmiCategory(bmi) == ObesityInfo
  {
  }

  // ---------------------------------------------------------------------
  // Validation and formula properties

  /** Metric submissions fail exactly when a field is missing or not
      positive, always with the one metric message; on success the BMI
      times the squared height in metres gives back the weight. */
  lemma MetricSubmission(form: FormFields)
    ensures var r := ComputeBmi(Metric, form);
      var h, w := form.metricHeight, form.metricWeight;
      (r.Failure? <==> h.None? || w.None? || h.value <= 0.0 || w.value <= 0.0)
      && (r.Failure? ==> r.message == MetricInputError)
      && (r.Success? ==> r.result.bmi * (h.value / 100.0) * (h.value / 100.0) == w.value)
  {
  }

  /** Imperial submissions: which message is reported for which inputs, in
      the order the checks run, and the formula on success. A missing feet
      or inches entry counts as 0. */
  lemma ImperialSubmission(form: FormFields)
    ensures var r := ComputeBmi(Imperial, form);
      var ft, inch := DefaultZero(form.imperialHeightFt).value, DefaultZero(form.imperialHeightIn).value;
      var w := form.imperialWeight;
      var weightOk := w.Some? && w.value > 0.0;
      (r == Failure(WeightError) <==> !weightOk)
      && (r == Failure(NegativeHeightError) <==> weightOk && (ft < 0.0 || inch < 0.0))
      && (r == Failure(HeightError) <==> weightOk && ft == 0.0 && inch == 0.0)
      && (r.Success? <==> weightOk && ft >= 0.0 && inch >= 0.0 && (ft > 0.0 || inch > 0.0))
      && (r.Success? ==> r.result.bmi * (ft * 12.0 + inch) * (ft * 12.0 + inch) == 703.0 * w.value)
  {
  }

  /** The NaN tests on the defaulted height parts can never fire: an
      unparseable feet or inches entry behaves exactly like 0. */
  lemma MissingHeightPartIsZero(form: FormFields)
    ensures ComputeBmi(Imperial, form.(imperialHeightFt := None))
         == ComputeBmi(Imperial, form.(imperialHeightFt := Some(0.0)))
    ensures ComputeBmi(Imperial, form.(imperialHeightIn := None))
         == ComputeBmi(Imperial, form.(imperialHeightIn := Some(0.0)))
  {
  }

  /** Only the fields of the selected unit system are read. */
  lemma ReadsOnlySelectedFields(f: FormFields, g: FormFields)
    ensures f.metricHeight == g.metricHeight && f.metricWeight == g.metricWeight
      ==> ComputeBmi(Metric, f) == ComputeBmi(Metric, g)
    ensures f.imperialHeightFt == g.imperialHeightFt && f.imperialHeightIn == g.imperialHeightIn
      && f.imperialWeight == g.imperialWeight
      ==> ComputeBmi(Imperial, f) == ComputeBmi(Imperial, g)
  {
  }

  /** A form whose only filled-in fields are the ones the given unit system
      reads, set so that the formula yields `bmi` exactly (100 cm, or a
      height of one inch). */
  function FormFor(unit: Unit, bmi: real): (f: FormFields)
  {
    match unit
    case Metric => FormFields(Some(100.0), Some(bmi), None, None, None)
    case Imperial => FormFields(None, None, None, Some(1.0), Some(bmi / 703.0))
  }

  /** Each of the four categories is shown for some input in each unit
      system, so the classifier's range is exactly the four pairs. */
  lemma {:induction false} EveryCategoryReachable(unit: Unit, c: CategoryInfo)
    requires c in {UnderweightInfo, NormalWeightInfo, OverweightInfo, ObesityInfo}
    ensures exists form ::
      (ComputeBmi(unit, form).Success?
       && ComputeBmi(unit, form).result.category == c.category
       && ComputeBmi(unit, form).result.color == c.color)
  {
    var bmi := if c == UnderweightInfo then 17.0
      else if c == NormalWeightInfo then 22.0
      else if c == OverweightInfo then 27.0
      else 32.0;
    var form := FormFor(unit, bmi);
    assert ComputeBmi(unit, form) == Conclude(bmi);
    CategoryBands(bmi);
  }

  /** Each message of the selected unit system's checks is reported for
      some input; together with the contract of ComputeBmi this makes the
      three imperial messages and the one metric message exactly the
      errors a submission can show, and the calculation message none. */
  lemma {:induction false} EveryMessageReachable(unit: Unit, m: string)
    requires if unit == Metric then m == MetricInputError
      else m in {WeightError, NegativeHeightError, HeightError}
    ensures exists form :: ComputeBmi(unit, form) == Failure(m)
  {
    var form := if m == MetricInputError || m == WeightError then ClearedForm
      else if m == NegativeHeightError then FormFields(None, None, Some(-1.0), None, Some(150.0))
      else FormFields(None, None, None, None, Some(150.0));
    assert ComputeBmi(unit, form) == Failure(m);
  }

  /** A reset form (every field empty) is rejected in both unit systems. */
  lemma ClearedFormIsRejected()
    ensures ComputeBmi(Metric, ClearedForm) == Failure(MetricInputError)
    ensures ComputeBmi(Imperial, ClearedForm) == Failure(WeightError)
  {
  }

  /** The imperial constant 703 slightly undershoots the exact conversion
      factor 45359237 / 64516 (about 703.0696): for the same body measured
      in both systems the imperial BMI is below the metric one, by less
      than 0.01 percent. */
  lemma {:induction false} ImperialApproximatesMetric(totalInches: real, weightLb: real)
    requires totalInches > 0.0 && weightLb > 0.0
    ensures var imperial := ImperialFormula(totalInches, weightLb);
      var metric := MetricFormula(totalInches * 2.54, weightLb * 0.45359237);
      0.9999 * metric < imperial < metric
  {
    var q := weightLb / (totalInches * totalInches);
    assert q > 0.0;
    var m := totalInches * 2.54 / 100.0;
    assert m * m == totalInches * totalInches * 0.00064516;
    assert MetricFormula(totalInches * 2.54, weightLb * 0.45359237) == q * (45359237.0 / 64516.0);
  }

  /** Worked examples: a normal-weight adult in each system, and one
      rejected input in each. */
  lemma WorkedExamples()
    ensures ComputeBmi(Metric, FormFields(Some(175.0), Some(70.0), None, None, None)).result.category
         == "Normal weight"
    ensures ComputeBmi(Imperial, FormFields(None, None, Some(5.0), Some(9.0), Some(155.0))).result.category
         == "Normal weight"
    ensures ComputeBmi(Metric, FormFields(Some(0.0), Some(70.0), None, None, None))
         == Failure(MetricInputError)
    ensures ComputeBmi(Imperial, FormFields(None, None, Some(-1.0), Some(0.0), Some(150.0)))
         == Failure(NegativeHeightError)
  {
  }

  /** The gap in the classifier is reached by ordinary inputs: 180 cm and
      80.9 kg give a BMI of about 24.97, which is labelled Obesity while
      81 kg (about 25.0) is labelled Overweight. */
  lemma GapReachedByOrdinaryInput()
    ensures ComputeBmi(Metric, FormFields(Some(180.0), Some(80.9), None, None, None)).result.category
         == "Obesity"
    ensures ComputeBmi(Metric, FormFields(Some(180.0), Some(81.0), None, None, None)).result.category
         == "Overweight"
  {
  }
}
