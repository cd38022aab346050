# BMI calculator: a Dafny model

This project models the logic of the `BMICalculator` component of a BMI
tracking page (`frontend/src/App.tsx`). The page collects height, weight and
age, computes a Body Mass Index client-side, classifies it into one of four
buckets with advice, and can save it through a remote API.

The project has four modules:

- `Classification` (`classification.dfy`) covers `getBMICategory` and
  `getBMIAdvice` over exact reals, and the cards rendered for the current
  result and for each history record. The scale is stated as an
  independent table of left-closed ranges (`InBucket`). Both functions are
  proved to name exactly the bucket that holds the value, so they always
  agree. The buckets partition the reals, and classification is monotone.
- `Rounding` (`rounding.dfy`) models `+(x).toFixed(2)` on exact reals. A
  non-negative value is rounded to the nearest cent, and a tie goes to the
  larger cent. A negative value is rounded by its magnitude, so its ties go
  away from zero. For non-negative values this is proved against the
  nearest-cent definition of `toFixed`. Rounding
  is also shown to be monotone and to fix whole cents.
- `Validation` (`validation.dfy`) covers the two chains of checks with early
  returns:
  - `handleSubmit` checks missing/zero, then non-positive, then the height
    range, the weight range and the age range;
  - `handleCalculateOnly` makes the same checks without the age.

  Parsed inputs are JavaScript numbers (`NaN`, the two infinities, or a
  finite value), and every comparison with `NaN` is false. Each chain is
  proved to accept exactly when all ranges hold. It reports the message of
  the first failing check. An accepted BMI lies in [1.11, 2000], and the
  exact quotient lies in [10/9, 2000].
- `BmiForm` (`form.dfy`) holds the component state as a class. Its fields
  are `height`, `weight`, `age`, `bmi`, `message`, `loading`, `activeTab`
  and `history` (the `bmi` of each fetched record), and it has the event
  handlers. Each handler's postcondition
  gives the whole new state in terms of the validation functions, including
  which fields stay unchanged.

## Model

| member | source | states |
|---|---|---|
| `Classification.CategoryOf` | frontend/src/App.tsx:46-51 | the bucket chosen by the chain of `<` tests is the bucket of the scale table whose range [lower, upper) holds the value |
| `Classification.GetBMICategory` | frontend/src/App.tsx:46-51 | the badge (name and colour) returned for any value is the badge of the bucket of the scale that holds it |
| `Classification.GetBMIAdvice` | frontend/src/App.tsx:53-58 | the advice returned for any value, by its own chain of tests, is the advice of the bucket of the scale that holds it |
| `Classification.GetBMICategoryOfNumber` | frontend/src/App.tsx:46-51 | for any JavaScript number: a finite value gets the badge of its bucket, NaN and +Infinity get Obese (every `<` with NaN is false), -Infinity gets Underweight |
| `Classification.GetBMIAdviceOfNumber` | frontend/src/App.tsx:53-58 | for any JavaScript number: a finite value gets the advice of its bucket, NaN and +Infinity the Obese advice, -Infinity the Underweight advice |
| `Classification.BucketsDisjoint` | frontend/src/App.tsx:46-51 | no value lies in two buckets of the scale |
| `Classification.Partition` | frontend/src/App.tsx:46-51 | every real lies in exactly one bucket: below 18.5 Underweight, [18.5, 25) Normal weight, [25, 30) Overweight, 30 and above Obese; each threshold falls in the upper bucket |
| `Classification.InfoAndAdviceInjective` | frontend/src/App.tsx:46-58 | different buckets show different names, colours and advice texts |
| `Classification.CategoryMatchesBucket` | frontend/src/App.tsx:46-51 | the badge is that of bucket c if and only if the value lies in c |
| `Classification.AdviceMatchesBucket` | frontend/src/App.tsx:53-58 | the advice is that of bucket c if and only if the value lies in c |
| `Classification.AdviceAgreesWithCategory` | frontend/src/App.tsx:46-58 | for every value and bucket, the badge belongs to that bucket if and only if the advice does |
| `Classification.AdviceAgreesWithCategoryOfNumber` | frontend/src/App.tsx:46-58 | for every JavaScript number, NaN and the infinities included, the badge belongs to a bucket if and only if the advice does |
| `Classification.Monotone` | frontend/src/App.tsx:46-51 | a larger BMI never lands in a lower bucket |
| `Classification.ScaleExamples` | frontend/src/App.tsx:46-51 | 17.9 is Underweight; 18.5 and 24.9 are Normal weight; 25.0 and 29.9 are Overweight; 30.0 is Obese |
| `Classification.CardFor` | frontend/src/App.tsx:419-437 | the result card shows the value with the badge and the advice of the bucket that holds it |
| `Classification.HistoryCards` | frontend/src/App.tsx:554-653 | the history list has one card per record, in order, and each card's badge and advice are those of the bucket holding that record's BMI |
| `Rounding.RoundToCents` | frontend/src/App.tsx:99 | `+(x).toFixed(2)` stays within half a cent of x, strictly above x - 0.005 for non-negative x |
| `Rounding.RoundToCentsIsNearest` | frontend/src/App.tsx:99 | for non-negative x the result is a whole number of cents, no whole number of cents is nearer to x, and of two equally near ones it is the larger |
| `Rounding.RoundToCentsMonotone` | frontend/src/App.tsx:99 | rounding preserves the order of non-negative values |
| `Rounding.RoundToCentsExact` | frontend/src/App.tsx:99 | a non-negative value with two decimals is unchanged |
| `Rounding.RoundToCentsBetween` | frontend/src/App.tsx:99 | rounding keeps a value inside any interval whose ends are non-negative whole cents |
| `Validation.FirstFailing` | frontend/src/App.tsx:69-97 | the index returned is the first failing check: every earlier check passes, and the check at that index fails (or none fails) |
| `Validation.FirstFailingIs` | frontend/src/App.tsx:69-97 | the first failing index is k if and only if check k fails and all checks before it pass |
| `Validation.ComputeBmi` | frontend/src/App.tsx:99 | the BMI is within half a cent of weight / height² |
| `Validation.SquareBounds` | frontend/src/App.tsx:81-85 | the square of an accepted height lies in [0.25, 9] |
| `Validation.FactorUpperBound` | frontend/src/App.tsx:87-99 | a weight of at most 500 divided by a square of at least 0.25 is at most 2000 |
| `Validation.FactorLowerBound` | frontend/src/App.tsx:87-99 | a weight of at least 10 divided by a square of at most 9 is at least 10/9 |
| `Validation.ExactBmiBounds` | frontend/src/App.tsx:81-99 | with height in [0.5, 3] and weight in [10, 500], weight / height² lies in [10/9, 2000] |
| `Validation.BmiBounds` | frontend/src/App.tsx:81-99 | with the same ranges, the rounded BMI lies in [1.11, 2000] |
| `Validation.ValidateSubmit` | frontend/src/App.tsx:65-99 | accepts if and only if height is finite in [0.5, 3], weight in [10, 500] and age in [1, 120]; an accepted BMI lies in [1.11, 2000] |
| `Validation.ValidateCalculate` | frontend/src/App.tsx:143-166 | accepts if and only if height is finite in [0.5, 3] and weight in [10, 500]; an accepted BMI lies in [1.11, 2000] |
| `Validation.AcceptedBmiNearQuotient` | frontend/src/App.tsx:99-166 | the BMI accepted by either handler is within half a cent of weight / height² |
| `Validation.SubmitFollowsChain` | frontend/src/App.tsx:69-97 | the submit rejection message is the message of the first failing check in the order missing/zero, non-positive, height, weight, age; it accepts when none fails |
| `Validation.CalculateFollowsChain` | frontend/src/App.tsx:146-164 | the calculate-only rejection message is the message of the first failing check in the order missing/zero, non-positive, height, weight |
| `Validation.SubmitExtendsCalculate` | frontend/src/App.tsx:69-164 | whatever submit accepts, calculate-only accepts with the same BMI; whatever calculate-only rejects, submit rejects; the range messages coincide once the age is a positive number; an age rejection happens only after height and weight pass |
| `Validation.BmiExample` | frontend/src/App.tsx:81-99 | 1.75 m and 70 kg give 22.86; 1.60 m and 90 kg give 35.16; a 0.4 m height is always rejected |
| `BmiForm.SaveMessage` | frontend/src/App.tsx:118-135 | after a save the message is the success text, or the server's or the error's own message, or a fixed fallback when that is empty; it is never empty |
| `BmiForm.HistoryMessage` | frontend/src/App.tsx:36-40 | after a history fetch the message is the success text, or the error's own message, or a fixed fallback when that is empty; it is never empty |
| `BmiForm.ResultCard` | frontend/src/App.tsx:251-437 | a result card is shown exactly when the calculator tab is open and a BMI is present, with the badge and advice of its bucket |
| `BmiForm.Form.constructor` | frontend/src/App.tsx:4-11 | a fresh component has empty fields and message, no BMI, an empty history, is not busy, and is on the calculator tab |
| `BmiForm.Form.SetHeight` | frontend/src/App.tsx:267 | typing sets the height text and nothing else |
| `BmiForm.Form.SetWeight` | frontend/src/App.tsx:292 | typing sets the weight text and nothing else |
| `BmiForm.Form.SetAge` | frontend/src/App.tsx:316 | typing sets the age text and nothing else |
| `BmiForm.Form.SelectTab` | frontend/src/App.tsx:14-22 | clicking a tab sets the active tab (lines 216 and 233); a change to the history tab starts the history fetch, which empties the message and sets `loading`; any other click leaves both; the fields, the BMI and the history never change |
| `BmiForm.Form.HistoryFetched` | frontend/src/App.tsx:20-44 | when the history fetch ends, the fetched records replace the history (or it is emptied on failure), the outcome's message is shown and `loading` is cleared; the fields, the BMI and the tab are unchanged |
| `BmiForm.Form.ClearForm` | frontend/src/App.tsx:171-177 | height, weight, age and message become empty and the BMI becomes absent; `loading` and the tab are unchanged |
| `BmiForm.Form.CalculateOnly` | frontend/src/App.tsx:141-169 | on acceptance, sets the BMI and the "not saved" message; on rejection, shows the first failing check's message and keeps the old BMI; never touches the fields, `loading` or the tab |
| `BmiForm.Form.Submit` | frontend/src/App.tsx:60-116 | on rejection, shows the first failing check's message, clears `loading`, keeps the old BMI and issues no request; on acceptance, sets the BMI, stays busy and issues a request with the parsed values and the BMI; the fields are unchanged |
| `BmiForm.Form.SaveFinished` | frontend/src/App.tsx:118-138 | when the save ends, shows the outcome's message and clears `loading`; only a successful save empties the three fields; the BMI stays |

The lowest height accepted is 0.5 m itself: the only test against low
heights is `heightNum < 0.5` (App.tsx:81), and the input's `min="0.5"`
(App.tsx:264) agrees.

`BmiForm.ExampleSession` is a worked session with no contract of its own.
A 1.75 m, 70 kg person presses "Calculate Only". The form shows a BMI of
22.86 in the "Normal weight" bucket, and the fields stay filled in. "Clear"
then empties the form. Switching to the history tab then starts a fetch,
and the fetched record is shown in the "Normal weight" bucket.

## Left out

- Parsing is not modelled. JavaScript `parseFloat`/`parseInt` (prefix
  parsing, producing `NaN`) are left abstract. The handlers take the parser
  as a function parameter from text to a JavaScript number.
- The parsed age is not required to be a whole number. The model treats it
  like any other number, so an age in (0, 1) reaches the age-range check.
  `parseInt` never produces such a value.
- Floating-point division is not modelled. `weight / (height * height)` is
  computed on exact reals before rounding to cents, so an IEEE-754 rounding
  error in the quotient is not captured.
- The network calls are not modelled: the history GET, the POST of a
  record, the DELETE of a record, and the JSON encoding and decoding. They
  talk to an external API. `Submit` returns the request data instead of
  sending it. `SaveFinished` takes the way the request ended as a
  parameter.
- The history refresh after a successful save (App.tsx:131-133) is not
  modelled because it cannot run. `handleSubmit` is only called from a
  button that is rendered on the calculator tab (App.tsx:251, 357-359),
  and the handler reads the `activeTab` of that render, so the test at
  App.tsx:131 is always false.
- fetchBMIHistory: its request is not modelled. Its effect on the state is
  split in two: the start (message emptied, `loading` set) happens in
  `SelectTab`, and the end happens in `HistoryFetched`, which takes the
  outcome as a parameter. The model keeps only the `bmi` of each fetched
  record in `history`.
- `deleteBMIRecord` is not modelled. It consists of a `confirm()` dialog
  and network calls, followed by a refetch of the history.
- The record id (`Math.random`), the `createdAt` time stamp and the
  `confirm()` dialog are not modelled. They are sources of nondeterminism
  or user interaction.
- HistoryCards: takes the records' `bmi` values as finite numbers. A
  record whose `bmi` is missing or not a number is classified by
  `GetBMICategoryOfNumber` and `GetBMIAdviceOfNumber`, where NaN falls into
  the Obese bucket. A `null` bmi compares as 0 and is shown as Underweight;
  the model represents it as the finite value 0.
- Rendering is not modelled: the JSX, inline styles, hover and focus
  handlers, the disabled state of buttons while `loading` is set, and the
  choice of colour and icon through `message.includes(...)`.
- React state batching is not modelled. Each handler reads the field
  values of the render it was called in and only its final writes become
  visible. The model therefore applies each handler's writes in order to
  one object.
