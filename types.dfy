/** Value types shared by the BMI engine and the screen component. */
module Types {

  /** A number read from the form: `None` stands for NaN, i.e. a field that
      was missing or did not parse as a number. */
  datatype Option<+T> = None | Some(value: T)

  /** The two unit systems the calculator offers. */
  datatype Unit = Metric | Imperial

  /** A computed outcome as it is stored and displayed: the BMI value, its
      category label and the colour class of the result panel. */
  datatype BmiResult = BmiResult(bmi: real, category: string, color: string)

  /** The parsed contents of the form at the moment of submission: one entry
      per named input field, each the value `parseFloat` produced for it. */
  datatype FormFields = FormFields(
    metricHeight: Option<real>,      // "metric-height", centimetres
    metricWeight: Option<real>,      // "metric-weight", kilograms
    imperialHeightFt: Option<real>,  // "imperial-height-ft", feet
    imperialHeightIn: Option<real>,  // "imperial-height-in", inches
    imperialWeight: Option<real>     // "imperial-weight", pounds
  )

  /** What every field parses to after the form has been reset (all empty). */
  const ClearedForm := FormFields(None, None, None, None, None)
}
