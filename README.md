# BMI calculator: engine and screen state

A model of the logic behind the single-screen BMI calculator. The calculator
collects a height and a weight in metric (cm, kg) or imperial (ft + in, lb)
units. It validates them with a fixed, ordered chain of checks. It computes
a Body Mass Index and labels it with one of four categories, each with a
panel colour. The screen keeps three pieces of state: the selected `unit`,
the displayed `result` and the displayed `error` message.

- `types.dfy` (module `Types`): `Unit`, `BmiResult` (from `types.ts`), the
  parsed form fields and an `Option` type. Each field is the value
  `parseFloat` produced for it, and `None` stands for NaN.
- `bmi_engine.dfy` (module `BmiEngine`): `GetBmiCategory`, the `|| 0`
  defaulting, the two formulas and the validation chains as pure functions.
  `ComputeBmi` is what the submit handler's `try` block computes. The module
  also holds the lemmas about these functions.
- `app_component.dfy` (module `AppComponent`): class `App` with the fields
  `unit`, `result` and `error`, plus the two event handlers.
  `HandleSubmit` is written imperatively, like the handler. It uses a local
  `bmi` and a labelled block that each `throw` leaves with its message. It
  is proved against `ComputeBmi`.

Numbers are `real`. The classifier is modelled as written. A BMI strictly
between 24.9 and 25 passes none of the first three tests, so it is labelled
Obesity. Values between 29.9 and 30 are labelled Obesity too. The lemmas
`CategoryBands`, `ClassifierNotMonotone` and `GapReachedByOrdinaryInput`
state this. For example, 180 cm and 80.9 kg is labelled Obesity, while
180 cm and 81 kg is labelled Overweight.

The feet input is marked `required` (App.tsx:126), but the form is
`noValidate` (App.tsx:97), and `|| 0` is applied to both height parts
(App.tsx:46-47). So an empty feet entry reaches the handler as 0, and a
positive inches value alone is accepted.

## Model

| member | source | states |
|---|---|---|
| BmiEngine.GetBmiCategory | App.tsx:21-26 | the classifier is total and returns only the four (category, colour) pairs |
| BmiEngine.CategoryBands | App.tsx:22-25 | each pair is returned exactly on its band: Underweight iff bmi < 18.5; Normal weight iff 18.5 ≤ bmi ≤ 24.9; Overweight iff 25 ≤ bmi ≤ 29.9; Obesity iff bmi is in (24.9, 25) or above 29.9 |
| BmiEngine.ColorMatchesCategory | App.tsx:21-26 | two BMIs get the same colour iff they get the same category label |
| BmiEngine.ClassifierNotMonotone | App.tsx:23-24 | a larger BMI (25.0) can get a milder label than a smaller one (24.95) |
| BmiEngine.AgreesWithListedBandsOutsideGaps | App.tsx:21-25 | compares the classifier with the contiguous bands of the on-screen category list at App.tsx:177-182 (below 18.5, 25, 30): they agree exactly outside (24.9, 25) and (29.9, 30), and inside those gaps the classifier says Obesity |
| BmiEngine.DefaultZero | App.tsx:46-47 | the "or 0" default on a parsed height part is never NaN, keeps every number and turns NaN into 0, so the isNaN tests on the height parts can never fire |
| BmiEngine.MetricFormula | App.tsx:43-44 | the BMI times the squared height in metres gives back the weight; a positive weight gives a positive BMI |
| BmiEngine.ImperialFormula | App.tsx:56-60 | the BMI times the squared total inches equals 703 times the weight; a positive weight gives a positive BMI |
| BmiEngine.Conclude | App.tsx:63-68 | a result is stored iff the BMI is positive, and its category and colour are those of GetBmiCategory; otherwise the calculation message is reported |
| BmiEngine.MetricOutcome | App.tsx:37-44 | the metric branch can only fail with the one metric message |
| BmiEngine.ImperialOutcome | App.tsx:45-61 | the imperial branch can only fail with the weight, negative-height or positive-height message |
| BmiEngine.ComputeBmi | App.tsx:36-68 | every stored result has bmi > 0 and the category and colour of GetBmiCategory(bmi); every error is non-empty, is one of the selected unit's messages, and is never the calculation message (that branch is unreachable over the reals) |
| BmiEngine.MetricSubmission | App.tsx:38-44 | a metric submission fails iff height or weight is missing/NaN or ≤ 0, always with the metric message; on success bmi·(cm/100)² = kg |
| BmiEngine.ImperialSubmission | App.tsx:46-60 | which imperial message wins: the weight message iff the weight is missing/NaN or ≤ 0; otherwise the negative message iff feet or inches < 0; otherwise the positive-height message iff both are 0; success iff none applies, with bmi·(ft·12+in)² = 703·lb |
| BmiEngine.MissingHeightPartIsZero | App.tsx:46-53 | a missing or unparseable feet or inches entry gives exactly the outcome of entering 0 |
| BmiEngine.ReadsOnlySelectedFields | App.tsx:37-48 | the outcome depends only on the fields of the selected unit system |
| BmiEngine.EveryCategoryReachable | App.tsx:63-65 | in each unit system every one of the four categories is shown for some input |
| BmiEngine.EveryMessageReachable | App.tsx:40-59 | in each unit system every message of its checks is reported for some input |
| BmiEngine.ClearedFormIsRejected | App.tsx:15-18 | submitting a form right after it was reset fails: metric with the metric message, imperial with the weight message |
| BmiEngine.ImperialApproximatesMetric | App.tsx:43-60 | for the same body measured in both systems (1 in = 2.54 cm, 1 lb = 0.45359237 kg), the imperial BMI is below the metric BMI by less than 0.01% |
| BmiEngine.WorkedExamples | App.tsx:36-68 | 175 cm / 70 kg and 5 ft 9 in / 155 lb are Normal weight; 0 cm / 70 kg gets the metric message; −1 ft / 150 lb gets the negative-height message |
| BmiEngine.GapReachedByOrdinaryInput | App.tsx:21-44 | 180 cm / 80.9 kg is labelled Obesity while 180 cm / 81 kg is labelled Overweight |
| AppComponent.App.constructor | App.tsx:7-9 | the initial state is metric, with no result and no error |
| AppComponent.App.HandleUnitChange | App.tsx:11-14 | sets the new unit and clears both result and error |
| AppComponent.App.HandleSubmit | App.tsx:28-74 | leaves the unit unchanged and shows exactly what ComputeBmi gives for the current unit and form: the result and no error, or the message and no result; afterwards exactly one of the two is shown |
| AppComponent.ResubmitShowsSameOutcome | App.tsx:28-74 | from any screen state, submitting the same form twice shows the same result and the same error both times, leaves the unit unchanged, and shows a result iff ComputeBmi succeeds for the current unit |

## Left out

- Rendering: the JSX, the static information text, the result panel (`components/BmiResult.tsx`, including `toFixed(1)`) and `components/UnitToggle.tsx`. They are presentation only.
- `form.reset()` on a unit change. It acts on the DOM, so the form is not part of the state. `ClearedFormIsRejected` states what a reset form leads to.
- `FormData`, `preventDefault` and `parseFloat`'s string-prefix parsing. Each field arrives already parsed, as `Option<real>`.
- IEEE-754 behaviour. Overflow to `Infinity` and underflow to 0 in the divisions are not modelled, so `isFinite` is always true. In the browser these make the "Could not calculate BMI" message reachable; over the reals it is unreachable. Rounding of the thresholds and of the formulas is also not modelled.
- `err instanceof Error` in the `catch`. Every throw site throws an `Error`, so the message is always shown.
- The footer year from the clock.
