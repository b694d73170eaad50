/** The calculator screen's state: the selected unit system, the displayed
    result and the displayed error message, and the two event handlers that
    change them. */
module AppComponent {
  import opened Types
  import opened BmiEngine

  class App {
    var unit: Unit
    var result: Option<BmiResult>   // `None` is the absent result (null)
    var error: string               // "" means no error is shown

    /** The screen never shows a result and an error at the same time. */
    predicate ShowsAtMostOne()
      reads this
    {
      result.None? || error == ""
    }

    /** After a submission exactly one of the two is shown. */
    predicate ShowsExactlyOne()
      reads this
    {
      result.Some? <==> error == ""
    }

    /** Initial state: metric units, nothing shown. */
    constructor ()
      ensures unit == Metric && result == None && error == ""
      ensures ShowsAtMostOne()
    {
      unit := Metric;
      result := None;
      error := "";
    }

    /** Switching unit systems selects the new one and clears whatever
        result or error was shown. */
    method HandleUnitChange(newUnit: Unit)
      modifies this
      ensures unit == newUnit && result == None && error == ""
      ensures ShowsAtMostOne()
    {
      unit := newUnit;
      result := None;
      error := "";
    }

    /** Submitting the form: clear the previous outcome, then validate and
        compute for the current unit system. The handler's `try` block is
        the labelled block `attempt`; a `throw` records its message in
        `thrown` and leaves the block, and the `catch` shows that message. */
    method HandleSubmit(form: FormFields)
      modifies this
      ensures unit == old(unit)
      ensures match ComputeBmi(unit, form)
        case Success(r) => result == Some(r) && error == ""
        case Failure(m) => result == None && error == m
      ensures ShowsExactlyOne()
    {
      error := "";
      result := None;
      var bmi := 0.0;
      var thrown: Option<string> := None;

      label attempt: {
        if unit == Metric {
          var height := form.metricHeight;
          var weight := form.metricWeight;
          if height.None? || weight.None? || height.value <= 0.0 || weight.value <= 0.0 {
            thrown := Some(MetricInputError);
            break attempt;
          }
          var heightInMeters := height.value / 100.0;
          bmi := weight.value / (heightInMeters * heightInMeters);
          assert bmi == MetricFormula(height.value, weight.value);
          assert ComputeBmi(unit, form) == Conclude(bmi);
        } else {
          var heightFt := DefaultZero(form.imperialHeightFt);
          var heightIn := DefaultZero(form.imperialHeightIn);
          var weight := form.imperialWeight;
          if weight.None? || weight.value <= 0.0 {
            thrown := Some(WeightError);
            break attempt;
          }
          if heightFt.None? || heightIn.None? || heightFt.value < 0.0 || heightIn.value < 0.0 {
            thrown := Some(NegativeHeightError);
            break attempt;
          }
          var totalInches := heightFt.value * 12.0 + heightIn.value;
          if totalInches <= 0.0 {
            thrown := Some(HeightError);
            break attempt;
          }
          bmi := (weight.value / (totalInches * totalInches)) * 703.0;
          assert bmi == ImperialFormula(totalInches, weight.value);
          assert ComputeBmi(unit, form) == Conclude(bmi);
        }

        if bmi > 0.0 {
          var info := GetBmiCategory(bmi);
          result := Some(BmiResult(bmi, info.category, info.color));
        } else {
          thrown := Some(CalculationError);
        }
      }

      if thrown.Some? {
        error := thrown.value;
      }
    }
  }

  /** Resubmitting the same form without touching it, from any screen
      state, shows the same outcome (result and error) both times. */
  method ResubmitShowsSameOutcome(app: App, form: FormFields)
    returns (first: Option<BmiResult>, firstError: string, second: Option<BmiResult>, secondError: string)
    modifies app
    ensures first == second && firstError == secondError
    ensures app.unit == old(app.unit)
    ensures first.Some? <==> ComputeBmi(old(app.unit), form).Success?
  {
    app.HandleSubmit(form);
    first, firstError := app.result, app.error;
    app.HandleSubmit(form);
    second, secondError := app.result, app.error;
  }
}
