# Calculator widgets of the multi-calculator hub, in Dafny

This project models the logic behind the calculator widgets of a client-side React
calculator hub, and proves what each widget promises. Every widget is a component whose
state lives in `useState` fields. Its event handlers and effects update those fields.

- **Standard and scientific calculators.** Both are two-operand accumulators over the fields
  `display`, `previousValue`, `operation` and `resetDisplay`. Operators chain strictly left to
  right. The scientific one adds `^` and eight unary keys.
- **Vedic calculator.** Four guarded integer tricks: the square of a number ending in 5,
  multiplication by 11, the square of a two-digit number, and subtraction from a power of 10.
- **Unit converter.** A table of linear units, six temperature formulas, and the
  category-reset effect.
- **Currency converter.** A hard-coded rate table, the set-up pass that derives cross rates
  through the US dollar, and the order in which a rate is chosen.
- **Formula widgets.** Percentage, BMI, tip, mortgage and loan EMI: input fallbacks, guards
  that zero the outputs, threshold classification, and the amortization formula.

How JavaScript is represented:

- **Numbers** are `JsNumbers.Num`: an exact finite real, NaN or a signed infinity. NaN
  propagates, `x / 0` is not finite, and comparisons with NaN are false. `a || d` is
  `JsNumbers.Or`.
- **Runtime functions.** `parseFloat`, `String` and `toFixed` are the uninterpreted fields of a
  `Format` value. `Math.pow`, `sin`, `cos`, `tan`, `log10`, `log` and `sqrt` are the fields of a
  `MathLib` value. `parseInt` is defined in full, for decimal and `0x` hexadecimal text.
- **Components.** Each component whose handlers assign fields is a class, with one field per
  `useState`. Each handler method is proved equal to a pure transition function of the old
  state, and the lemmas are stated about those functions.
- **Effects** run right after the handler that changed one of their dependencies. React
  compares dependencies by identity (`Object.is`). For the string and number state here that
  is the same as comparing values. The unit converter's `category` is an object taken from
  `conversionCategories`, which is rebuilt on every render, so choosing the same category
  again is still a change and its reset effect runs every time.
- **Invariants.** Each class keeps `Valid()`, meaning the derived outputs agree with the inputs.

Files, one module each:

| file | module |
|---|---|
| `wrappers.dfy` | Option |
| `js_numbers.dfy` | numbers and the runtime functions |
| `digits.dfy` | positional digit values |
| `js_parse_int.dfy` | `parseInt` |
| `trim_zeros.dfy` | the trailing-zero trim `replace(/\.?0+$/, "")` |
| `accumulator.dfy` | the shared two-operand accumulator |
| `amortization.dfy` | the level-payment formula and the loan balance |
| one file per widget | that widget |

## Model

| member | source | states |
|---|---|---|
| Accumulator.StepKeepsPendingTogether | src/components/calculators/StandardCalculator.tsx:21-34 | Every key (digit, operator, equals, clear) keeps `previousValue` and `operation` both null or both set |
| Accumulator.RunKeepsPendingTogether | src/components/calculators/StandardCalculator.tsx:46-62 | The same holds after any sequence of keys |
| Accumulator.RunAppend | src/components/calculators/StandardCalculator.tsx:12-62 | Running `a + b` is running `a`, then `b` |
| Accumulator.DigitEntry | src/components/calculators/StandardCalculator.tsx:12-19 | A digit replaces a display of "0" or a shown result, and otherwise appends; `resetDisplay` ends false; the pending fields are untouched |
| Accumulator.FirstOperator | src/components/calculators/StandardCalculator.tsx:21-34 | The first operator stores the parsed display, keeps the display, sets the operation and marks the display for replacement |
| Accumulator.ChainedOperator | src/components/calculators/StandardCalculator.tsx:26-30 | With an operation pending, an operator folds it into `previousValue` and shows the result, which gives left-to-right chaining |
| Accumulator.EqualsBehaviour | src/components/calculators/StandardCalculator.tsx:46-55 | `=` with nothing pending changes nothing; otherwise it shows the result and clears both pending fields; pressing it twice equals pressing it once |
| Accumulator.TypingAppends | src/components/calculators/StandardCalculator.tsx:12-19 | Typing tokens onto a display that is neither "0" nor a result appends them all |
| Accumulator.TypingOperand | src/components/calculators/StandardCalculator.tsx:12-19 | Typing an operand after "0" or a result shows exactly that operand, a lone "0" included |
| Accumulator.ChainPending | src/components/calculators/StandardCalculator.tsx:21-34 | After "x0 op1 x1 … opn xn" the last operand is shown, and the left fold of the earlier ones is pending; an operand may be a lone "0" but not a longer one led by "0", whose 0 the next digit replaces |
| Accumulator.LeftToRight | src/components/calculators/StandardCalculator.tsx:21-55 | The whole expression followed by `=` shows the strict left-to-right fold of its operands, with no precedence; lone "0" operands such as "5 ÷ 0" included, longer operands led by "0" excluded |
| StandardCalculator.CalculateMeaning | src/components/calculators/StandardCalculator.tsx:36-44 | + − × ÷ are exact arithmetic; ÷ by 0 gives a value that is not finite rather than an error; any other operator returns b |
| StandardCalculator.DecimalEntry | src/components/calculators/StandardCalculator.tsx:64-71 | Decimal entry leaves exactly one '.', starts from "0." after a result, and keeps the pending state |
| StandardCalculator.BackspaceEffect | src/components/calculators/StandardCalculator.tsx:101 | Backspace removes exactly the last character, falls back to "0", and keeps the pending state |
| StandardCalculator.ReachableStatesKeepPendingTogether | src/components/calculators/StandardCalculator.tsx:7-71 | In every state reachable from mount, including decimal and backspace keys, `previousValue` is null exactly when `operation` is |
| StandardCalculator.TwelvePlusThree | src/components/calculators/StandardCalculator.tsx:12-55 | "1" "2" "+" "3" "=" shows String(15) |
| StandardCalculator.FiveDividedByZero | src/components/calculators/StandardCalculator.tsx:12-55 | "5" "÷" "0" "=" is accepted and shows "Infinity" |
| StandardCalculator.Calculator.HandleNumberClick | src/components/calculators/StandardCalculator.tsx:12-19 | The handler performs the digit transition and keeps the pending invariant |
| StandardCalculator.Calculator.HandleOperationClick | src/components/calculators/StandardCalculator.tsx:21-34 | The handler performs the operator transition and keeps the invariant |
| StandardCalculator.Calculator.HandleEquals | src/components/calculators/StandardCalculator.tsx:46-55 | The handler performs the equals transition and keeps the invariant |
| StandardCalculator.Calculator.HandleClear | src/components/calculators/StandardCalculator.tsx:57-62 | Clear restores "0", null pending fields and `resetDisplay` false |
| StandardCalculator.Calculator.HandleDecimal | src/components/calculators/StandardCalculator.tsx:64-71 | The handler performs the decimal transition |
| StandardCalculator.Calculator.HandleBackspace | src/components/calculators/StandardCalculator.tsx:101 | The handler performs the backspace transition |
| StandardCalculator.Calculator.constructor | src/components/calculators/StandardCalculator.tsx:7-10 | Mount starts from "0", no pending value or operation, and no reset, a state that keeps both pending fields together |
| ScientificCalculator.CalculateMeaning | src/components/calculators/ScientificCalculator.tsx:36-45 | `^` is Math.pow of the pending value and the display; an unknown operator returns b |
| ScientificCalculator.UnaryValue | src/components/calculators/ScientificCalculator.tsx:65-99 | A unary key has a value exactly when its name is one of the eight the switch knows |
| ScientificCalculator.ScientificOperationEffect | src/components/calculators/ScientificCalculator.tsx:65-99 | A known unary key shows String(f(display)) with no domain check, sets `resetDisplay` and keeps the pending fields; an unknown name changes nothing |
| ScientificCalculator.UnaryMeaning | src/components/calculators/ScientificCalculator.tsx:79-93 | 1/x is exact on a non-zero display and not finite at 0; x^2 is pow(x, 2); log is log10 and ln is the natural log |
| ScientificCalculator.PointIsADigit | src/components/calculators/ScientificCalculator.tsx:12-19 | '.' goes through digit entry: on "0" it gives ".", and on "1.2" it gives "1.2." |
| ScientificCalculator.KeysKeepPendingTogether | src/components/calculators/ScientificCalculator.tsx:21-99 | Binary and unary keys keep the pending invariant |
| ScientificCalculator.ReachableStatesKeepPendingTogether | src/components/calculators/ScientificCalculator.tsx:7-99 | Every state reachable from mount satisfies the pending invariant |
| ScientificCalculator.TwoToTheThird | src/components/calculators/ScientificCalculator.tsx:21-56 | "2" "^" "3" "=" shows String(Math.pow(2, 3)) |
| ScientificCalculator.Calculator.HandleNumberClick | src/components/calculators/ScientificCalculator.tsx:12-19 | The handler performs the digit transition |
| ScientificCalculator.Calculator.HandleOperationClick | src/components/calculators/ScientificCalculator.tsx:21-34 | The handler performs the operator transition |
| ScientificCalculator.Calculator.HandleEquals | src/components/calculators/ScientificCalculator.tsx:47-56 | The handler performs the equals transition |
| ScientificCalculator.Calculator.HandleClear | src/components/calculators/ScientificCalculator.tsx:58-63 | Clear restores the initial state |
| ScientificCalculator.Calculator.HandleScientificOperation | src/components/calculators/ScientificCalculator.tsx:65-99 | The handler performs the unary transition and keeps the invariant |
| ScientificCalculator.Calculator.constructor | src/components/calculators/ScientificCalculator.tsx:7-10 | Mount starts from "0", no pending value or operation, and no reset, a state that keeps both pending fields together |
| JsParseInt.ParseDigitText | src/components/calculators/VedicCalculator.tsx:89 | parseInt of plain digit text is the positional value of its digits |
| JsParseInt.ParseNegative | src/components/calculators/TipCalculator.tsx:32 | parseInt of a minus sign and then decimal digits is the negated value of those digits |
| VedicCalculator.JsRem | src/components/calculators/VedicCalculator.tsx:31 | JavaScript `%` by a positive d: the result lies strictly between −d and d, and takes the sign of the dividend |
| VedicCalculator.EndsWith5 | src/components/calculators/VedicCalculator.tsx:31 | A JavaScript remainder of 5 by 10 happens only for a positive n = 10⌊n/10⌋ + 5 |
| VedicCalculator.SquareEndingWith5Correct | src/components/calculators/VedicCalculator.tsx:27-41 | The guard accepts exactly the parsed n with JavaScript n % 10 = 5, and t(t+1)·100 + 25 equals n² |
| VedicCalculator.NegativeFiveRejected | src/components/calculators/VedicCalculator.tsx:31-34 | "-25" is rejected, because −25 % 10 is −5 |
| VedicCalculator.MultiplyBy11Correct | src/components/calculators/VedicCalculator.tsx:44-62 | Blank text is rejected first, then text with no number; otherwise the result is 11·n |
| VedicCalculator.GeneralSquareCorrect | src/components/calculators/VedicCalculator.tsx:65-85 | Accepts exactly 10 ≤ n ≤ 99, and 100² + 2·100·d + d² equals n² |
| VedicCalculator.SquareFrom50Correct | src/components/calculators/VedicCalculator.tsx:81-82 | The unused alternative 2500 + 100·d′ + d′² is n² for every n |
| VedicCalculator.SubtractFromPower10Correct | src/components/calculators/VedicCalculator.tsx:88-103 | Accepts any text with a number and shows 10^(length of the text) − n; on plain digit text of length k the result lies in 1..10^k |
| VedicCalculator.RejectionKeepsResult | src/components/calculators/VedicCalculator.tsx:31-34 | Every rejection, in every handler, keeps the result shown before |
| VedicCalculator.ElevenColumnsValue | src/components/calculators/VedicCalculator.tsx:173-177 | The columns of the multiply-by-11 trick, read positionally, are 11 times the number, for any number of digits |
| VedicCalculator.ElevenThreeDigits | src/components/calculators/VedicCalculator.tsx:173-177 | A \| A+B \| B+C \| C is 11·ABC |
| VedicCalculator.FiftyThreeTimesEleven | src/components/calculators/VedicCalculator.tsx:177 | 53 × 11 = 5 \| 8 \| 3 = 583 |
| VedicCalculator.ComplementValue | src/components/calculators/VedicCalculator.tsx:252-256 | "Each digit from 9, the last from 10" equals 10ⁿ − x, and gives digits when the last digit is not 0 |
| VedicCalculator.ThousandMinus463 | src/components/calculators/VedicCalculator.tsx:256 | 1000 − 463 = 537 |
| UnitConverter.CategoriesWellFormed | src/components/calculators/UnitConverter.tsx:17-64 | Every category has at least two units and no zero factor |
| UnitConverter.FindUnit | src/components/calculators/UnitConverter.tsx:124 | `find` returns a unit with that id, and finds none exactly when no unit has it |
| UnitConverter.FindCategory | src/components/calculators/UnitConverter.tsx:136 | `find` returns a category with that name, and finds nothing exactly when no category has that name |
| UnitConverter.ConversionCases | src/components/calculators/UnitConverter.tsx:80-115 | Empty or non-numeric input gives ""; otherwise a temperature is written with 4 decimals and other units with 6, trailing zeros trimmed |
| UnitConverter.LinearIdentity | src/components/calculators/UnitConverter.tsx:110-112 | A unit converted to itself is the identity |
| UnitConverter.LinearRoundTrip | src/components/calculators/UnitConverter.tsx:110-112 | A→B→A returns the value |
| UnitConverter.LinearCompose | src/components/calculators/UnitConverter.tsx:110-112 | A→B then B→C equals A→C |
| UnitConverter.TemperatureFormulas | src/components/calculators/UnitConverter.tsx:92-105 | The six formulas are exact on finite readings |
| UnitConverter.TemperatureRoundTrip | src/components/calculators/UnitConverter.tsx:92-105 | The formulas come in inverse pairs, and a unit to itself is the identity |
| UnitConverter.FreezingPoint | src/components/calculators/UnitConverter.tsx:92-97 | 0 °C is 32 °F, 32 °F is 0 °C, and 0 K is −273.15 °C |
| UnitConverter.TemperatureCompose | src/components/calculators/UnitConverter.tsx:100-103 | K→F is C→F after K→C, and F→K is C→K after F→C |
| UnitConverter.Converter.constructor | src/components/calculators/UnitConverter.tsx:66-78 | Mount selects the first category, its first two units and "1" |
| UnitConverter.Converter.Convert | src/components/calculators/UnitConverter.tsx:80-115 | convert writes only the output text |
| UnitConverter.Converter.HandleFromValueChange | src/components/calculators/UnitConverter.tsx:117-121 | The input is stored and the output recomputed |
| UnitConverter.Converter.HandleFromUnitChange | src/components/calculators/UnitConverter.tsx:123-127 | The found unit becomes the from-unit and the output is recomputed |
| UnitConverter.Converter.HandleToUnitChange | src/components/calculators/UnitConverter.tsx:129-133 | The found unit becomes the to-unit and the output is recomputed |
| UnitConverter.Converter.HandleCategoryChange | src/components/calculators/UnitConverter.tsx:135-138 | With the effect on the category: units[0], units[1] and "1" |
| TrimZeros.OnFixedText | src/components/calculators/UnitConverter.tsx:108 | On "digits.digits" the trim removes only trailing fractional zeros, and the '.' when nothing is left after it |
| TrimZeros.LeftmostMatch | src/components/calculators/UnitConverter.tsx:113 | The regular expression's leftmost match is the trailing run of zeros, with the '.' before it |
| TrimZeros.EatsIntegerZeros | src/components/calculators/UnitConverter.tsx:113 | On text without a '.', the trim also eats integer zeros: "100" gives "1" |
| CurrencyConverter.FillTargetsSpec | src/components/calculators/CurrencyConverter.tsx:64-74 | The inner loop writes only the base's table: 1 to itself, and the cross rate for each target with a dollar quote |
| CurrencyConverter.SetupRatesSpec | src/components/calculators/CurrencyConverter.tsx:60-77 | Set-up keeps every existing table, and gives each listed currency without a table the derived one |
| CurrencyConverter.MountKeepsWrittenTables | src/components/calculators/CurrencyConverter.tsx:61-63 | At mount the USD, EUR and GBP tables stay as written |
| CurrencyConverter.MountTables | src/components/calculators/CurrencyConverter.tsx:60-77 | After mount exactly the listed currencies have a table |
| CurrencyConverter.MountDerivesTables | src/components/calculators/CurrencyConverter.tsx:65-73 | Every other listed currency gets the table derived from the dollar table |
| CurrencyConverter.DerivedTablesMissDollar | src/components/calculators/CurrencyConverter.tsx:68-71 | A derived table has no USD entry, because the dollar table has none for itself |
| CurrencyConverter.SelectRateCases | src/components/calculators/CurrencyConverter.tsx:95-102 | The rate order: same currency 1, then the direct entry, then the inverse of the reverse entry, then 1; it is never 0 |
| CurrencyConverter.NoInverseLaw | src/components/calculators/CurrencyConverter.tsx:45-49 | USD→EUR (0.91) and EUR→USD (1.10) are independent, and their product is not 1 |
| CurrencyConverter.CrossRateSelected | src/components/calculators/CurrencyConverter.tsx:70-72 | A pair with no direct quote in the hard-coded table converts at (1/USD[from])·USD[to] |
| CurrencyConverter.MountedCrossRate | src/components/calculators/CurrencyConverter.tsx:65-73 | JPY→INR after mount is (1/151.12)·83.45 |
| CurrencyConverter.YenTableDerived | src/components/calculators/CurrencyConverter.tsx:61-75 | After mount the yen has the table derived from the dollar table |
| CurrencyConverter.MountedEuroToDollar | src/components/calculators/CurrencyConverter.tsx:61 | The set-up pass keeps the written euro table, so EUR→USD stays 1.10 |
| CurrencyConverter.StepDerives | src/components/calculators/CurrencyConverter.tsx:64-73 | One pass of the inner loop extends a derived table by one target: 1 for the base itself, the cross rate for a target the dollar table quotes, nothing otherwise |
| CurrencyConverter.ConversionCases | src/components/calculators/CurrencyConverter.tsx:85-107 | A non-numeric amount shows "Invalid amount" and no rate; a number shows the selected rate |
| CurrencyConverter.ConversionOfNumber | src/components/calculators/CurrencyConverter.tsx:105-106 | A finite amount is shown as amount·rate with two decimals |
| CurrencyConverter.SwapTwice | src/components/calculators/CurrencyConverter.tsx:109-114 | Swapping twice restores the pair and shows its conversion |
| CurrencyConverter.SwapShowsNewPair | src/components/calculators/CurrencyConverter.tsx:109-114 | After the corrected swap, the rate shown is the rate of the new pair |
| CurrencyConverter.ConvertAfterMountAsWritten | src/components/calculators/CurrencyConverter.tsx:79-83 | As written, a render after mount reads the unfilled table, so JPY→INR gets rate 1 instead of the cross rate |
| CurrencyConverter.SwapShowsOldPairAsWritten | src/components/calculators/CurrencyConverter.tsx:109-114 | As written, a swap from USD/EUR shows EUR→USD with the old rate 0.91 instead of 1.10 |
| CurrencyConverter.Converter.SetupMockExchangeRates | src/components/calculators/CurrencyConverter.tsx:59-76 | The outer loop leaves exactly the set-up table in `rates` |
| CurrencyConverter.Converter.SetupTables | src/components/calculators/CurrencyConverter.tsx:60-75 | The outer loop over any list of bases leaves the set-up pass over that list, and the screen unchanged |
| CurrencyConverter.Converter.FillTable | src/components/calculators/CurrencyConverter.tsx:64-74 | The inner loop leaves exactly the filled table |
| CurrencyConverter.Converter.constructor | src/components/calculators/CurrencyConverter.tsx:79-83 | Mount runs set-up, then a conversion of 100 USD to EUR |
| CurrencyConverter.Converter.CalculateConversion | src/components/calculators/CurrencyConverter.tsx:85-107 | The shown conversion against the persistent table |
| CurrencyConverter.Converter.SwapCurrencies | src/components/calculators/CurrencyConverter.tsx:109-114 | The corrected swap: the pair swapped, and the new pair converted |
| CurrencyConverter.Converter.SetAmount | src/components/calculators/CurrencyConverter.tsx:129 | Typing an amount stores the text and recomputes nothing: the shown conversion, the rate and the table stay |
| CurrencyConverter.Converter.SetFromCurrency | src/components/calculators/CurrencyConverter.tsx:138 | Choosing the source currency stores it and recomputes nothing |
| CurrencyConverter.Converter.SetToCurrency | src/components/calculators/CurrencyConverter.tsx:168 | Choosing the target currency stores it and recomputes nothing |
| PercentageCalculator.Form | src/components/calculators/PercentageCalculator.tsx:26-29 | The result is null exactly when one of the two texts is empty |
| PercentageCalculator.Guards | src/components/calculators/PercentageCalculator.tsx:25-62 | Each form is null exactly on an empty text, and otherwise shows its written expression |
| PercentageCalculator.ZeroIsAccepted | src/components/calculators/PercentageCalculator.tsx:26-29 | The text "0" passes the guard |
| PercentageCalculator.PercentOfNumbers | src/components/calculators/PercentageCalculator.tsx:31-33 | p % of t is p/100·t |
| PercentageCalculator.WhatPercentNumbers | src/components/calculators/PercentageCalculator.tsx:44-46 | part/whole·100, and a whole of 0 gives a value that is not finite, with no guard |
| PercentageCalculator.OfWhatNumbers | src/components/calculators/PercentageCalculator.tsx:57-59 | v / (p/100), and p = 0 gives a value that is not finite |
| PercentageCalculator.NotANumber | src/components/calculators/PercentageCalculator.tsx:31-35 | An unparsable value is written "NaN" |
| PercentageCalculator.OfWhatInvertsPercentOf | src/components/calculators/PercentageCalculator.tsx:33-59 | ofWhat(percentOf(p, t), p) = t for p ≠ 0 |
| PercentageCalculator.WhatPercentInvertsPercentOf | src/components/calculators/PercentageCalculator.tsx:33-46 | whatPercent(percentOf(p, t), t) = p for t ≠ 0 |
| BmiCalculator.Classify | src/components/calculators/BMICalculator.tsx:36-44 | Every bmi gets one of the four categories |
| BmiCalculator.ClassifyBands | src/components/calculators/BMICalculator.tsx:36-44 | Each category is exactly one band: below 18.5, [18.5, 25), [25, 30), 30 and above |
| BmiCalculator.ClassifyMonotone | src/components/calculators/BMICalculator.tsx:36-44 | A larger bmi never gets an earlier category |
| BmiCalculator.NonFiniteCategories | src/components/calculators/BMICalculator.tsx:36-44 | NaN and +Infinity fall through to Obesity; −Infinity is Underweight |
| BmiCalculator.ColourAgreesWithCategory | src/components/calculators/BMICalculator.tsx:54-66 | A bmi's colour is its category's colour, the four colours differ, and a null bmi gives gray |
| BmiCalculator.Formulas | src/components/calculators/BMICalculator.tsx:21-27 | Metric w/(h/100)² and imperial (w/h²)·703, exact for a non-zero height |
| BmiCalculator.ZeroHeight | src/components/calculators/BMICalculator.tsx:23-24 | A height of 0 is not refused: for a positive weight the unrounded metric bmi, before `parseFloat(toFixed(2))`, is +Infinity |
| BmiCalculator.CalculateResult | src/components/calculators/BMICalculator.tsx:16-45 | A missing text changes nothing; otherwise the rounded bmi is shown with its category |
| BmiCalculator.HandlersKeepConsistent | src/components/calculators/BMICalculator.tsx:16-52 | Every handler keeps the category consistent with the bmi |
| BmiCalculator.ResetClears | src/components/calculators/BMICalculator.tsx:47-52 | Reset clears weight, height, bmi and category, keeps the unit, and gives gray |
| BmiCalculator.Calculator.CalculateBmi | src/components/calculators/BMICalculator.tsx:16-31 | The handler, with the effect on bmi, performs the calculate transition |
| BmiCalculator.Calculator.CategoryEffect | src/components/calculators/BMICalculator.tsx:33-45 | The effect sets the category of a non-null bmi and nothing else |
| BmiCalculator.Calculator.HandleReset | src/components/calculators/BMICalculator.tsx:47-52 | The reset transition |
| BmiCalculator.Calculator.constructor | src/components/calculators/BMICalculator.tsx:10-14 | Mount starts metric, with empty texts, no bmi and no category, which is consistent |
| BmiCalculator.Calculator.SetUnit | src/components/calculators/BMICalculator.tsx:78 | Choosing the unit stores it only; no effect depends on it, so the bmi and category stay consistent |
| BmiCalculator.Calculator.SetWeight | src/components/calculators/BMICalculator.tsx:101 | Typing a weight stores it only; nothing is recomputed until Calculate |
| BmiCalculator.Calculator.SetHeight | src/components/calculators/BMICalculator.tsx:114 | Typing a height stores it only; nothing is recomputed until Calculate |
| TipCalculator.OrOne | src/components/calculators/TipCalculator.tsx:32 | The people count is never 0: the parsed count, or 1 when it is NaN or 0 |
| TipCalculator.NoPositiveBill | src/components/calculators/TipCalculator.tsx:31-39 | A bill that is not positive or does not parse zeroes every output |
| TipCalculator.SplitOfPositiveBill | src/components/calculators/TipCalculator.tsx:41-43 | tip = b·p/100, total = b + tip, and each share is the total divided by the people count |
| TipCalculator.SharesAddUp | src/components/calculators/TipCalculator.tsx:32-43 | On a positive bill, the people count times each share is the total |
| TipCalculator.NegativePeoplePassThrough | src/components/calculators/TipCalculator.tsx:32 | A negative count passes through: "-2" people is −2 |
| TipCalculator.QualityBarWidth | src/components/calculators/TipCalculator.tsx:233 | min(pct·3, 100): pct·3 below the cap, exactly 100 from the cap on, never beyond 100 |
| TipCalculator.InputChangeSettles | src/components/calculators/TipCalculator.tsx:26-28 | From a settled screen, any input change followed by the effect is settled |
| TipCalculator.ResetValues | src/components/calculators/TipCalculator.tsx:58-62 | The reset inputs "50", 15 % and "2" give tip 7.5, total 57.5 and 28.75 each |
| TipCalculator.Calculator.CalculateTip | src/components/calculators/TipCalculator.tsx:30-48 | The outputs become the split of the inputs, which are unchanged |
| TipCalculator.Calculator.HandleTipPresetClick | src/components/calculators/TipCalculator.tsx:50-52 | The tip becomes exactly the chosen preset, and the effect runs |
| TipCalculator.Calculator.HandleTipSlider | src/components/calculators/TipCalculator.tsx:54-56 | The tip becomes the slider's first value, and the effect runs |
| TipCalculator.Calculator.ResetCalculator | src/components/calculators/TipCalculator.tsx:58-62 | Reset restores "50", 15 and "2", and the outputs are settled |
| TipCalculator.Calculator.constructor | src/components/calculators/TipCalculator.tsx:13-28 | Mount starts from "50", 15 % and "2", and the effect leaves the outputs equal to their split |
| TipCalculator.Calculator.InputsChanged | src/components/calculators/TipCalculator.tsx:26-28 | The effect on [billAmount, tipPercent, numberOfPeople] recomputes the outputs when an input changed, leaves the inputs alone, and the outputs then agree with them |
| TipCalculator.Calculator.SetBillAmount | src/components/calculators/TipCalculator.tsx:81 | The bill text is stored, then the effect leaves the outputs equal to the new split |
| TipCalculator.Calculator.SetNumberOfPeople | src/components/calculators/TipCalculator.tsx:143 | The people text is stored, then the effect leaves the outputs equal to the new split |
| Amortization.Instalment | src/components/calculators/LoanEMICalculator.tsx:49 | The level payment e satisfies e·(gⁿ − 1) = P·r·gⁿ with g = 1 + r |
| Amortization.PowerAboveOne | src/components/calculators/LoanEMICalculator.tsx:49 | For r > 0 and n ≥ 1, (1 + r)ⁿ > 1, so the denominator is positive |
| Amortization.BalanceClosedForm | src/components/calculators/LoanEMICalculator.tsx:49 | The balance after k payments, in closed form |
| Amortization.InstalmentRepaysLoan | src/components/calculators/LoanEMICalculator.tsx:49 | Paying the level payment n times leaves a balance of exactly 0 |
| Amortization.InstalmentCoversPrincipal | src/components/calculators/LoanEMICalculator.tsx:52-53 | n level payments add up to more than the principal, so the interest is positive |
| MortgageCalculator.Read | src/components/calculators/MortgageCalculator.tsx:40-43 | Price, down payment and rate fall back to 0, and the term to 30, when unparsable or 0 |
| MortgageCalculator.GuardZeroes | src/components/calculators/MortgageCalculator.tsx:46-53 | A loan, rate or term that is not positive gives zero payments |
| MortgageCalculator.MonthlyFormula | src/components/calculators/MortgageCalculator.tsx:62-65 | L·(r·g/(g − 1)) equals L·r·g/(g − 1) |
| MortgageCalculator.PaymentsOnNumbers | src/components/calculators/MortgageCalculator.tsx:46-68 | With a monthly rate of rate/100/12 and n = term·12 months, the payment is the level payment that repays price − down in n months; the total is n payments; the interest, total − loan, is positive |
| MortgageCalculator.PaymentsSteps | src/components/calculators/MortgageCalculator.tsx:46-68 | On numbers past the guard, with Math.pow the natural power, the three payments are the level payment, n of them, and their excess over the loan |
| MortgageCalculator.PercentOfPrice | src/components/calculators/MortgageCalculator.tsx:19-26 | The percent becomes payment/price·100, updated only when price > 0 |
| MortgageCalculator.MountedPercent | src/components/calculators/MortgageCalculator.tsx:10-26 | At mount the percent is recomputed as 20 |
| MortgageCalculator.SliderRoundTrip | src/components/calculators/MortgageCalculator.tsx:32-37 | The slider writes price·pct/100 with no decimals; when that reads back exactly, the effect recomputes exactly pct |
| MortgageCalculator.EffectsSettle | src/components/calculators/MortgageCalculator.tsx:19-30 | From a settled screen, the effects after any input change leave the payments settled |
| MortgageCalculator.Calculator.CalculateMortgage | src/components/calculators/MortgageCalculator.tsx:39-73 | The payments become those of the inputs |
| MortgageCalculator.Calculator.UpdatePercent | src/components/calculators/MortgageCalculator.tsx:19-26 | The percent effect transition |
| MortgageCalculator.Calculator.HandleDownPaymentSlider | src/components/calculators/MortgageCalculator.tsx:32-37 | The slider transition, followed by both effects |
| MortgageCalculator.Calculator.SetDownPayment | src/components/calculators/MortgageCalculator.tsx:102 | The input is stored, then the effects run |
| MortgageCalculator.Calculator.constructor | src/components/calculators/MortgageCalculator.tsx:10-30 | Mount starts from the initial texts, then runs the percent effect and the payments effect, so the payments agree with the inputs |
| MortgageCalculator.Calculator.RunEffects | src/components/calculators/MortgageCalculator.tsx:19-30 | The percent effect runs when the price or down payment changed and the payments effect when any input changed, in that order, and the payments then agree with the inputs |
| MortgageCalculator.Calculator.SetHomePrice | src/components/calculators/MortgageCalculator.tsx:89 | The price text is stored, then both effects run and the payments agree with the inputs |
| MortgageCalculator.Calculator.SetLoanTerm | src/components/calculators/MortgageCalculator.tsx:120 | The term text is stored, then the payments effect runs and the payments agree with the inputs |
| MortgageCalculator.Calculator.SetInterestRate | src/components/calculators/MortgageCalculator.tsx:130 | The rate text is stored, then the payments effect runs and the payments agree with the inputs |
| LoanEmiCalculator.ScheduleAgreesWithChart | src/components/calculators/LoanEMICalculator.tsx:71-84 | The schedule button reports an error exactly when calculateEMI zeroes the results and empties the chart |
| LoanEmiCalculator.ChartAddsUp | src/components/calculators/LoanEMICalculator.tsx:60-63 | The chart has exactly the two slices Principal and Interest, and with a finite principal they add up to the total, whatever Math.pow returns |
| LoanEmiCalculator.EmiOnNumbers | src/components/calculators/LoanEMICalculator.tsx:35-53 | With rate annual/100/12 and n = years·12, the EMI is the level payment that repays P in n months; the total is n EMIs; the interest is positive |
| LoanEmiCalculator.SameAsMortgage | src/components/calculators/LoanEMICalculator.tsx:49 | The EMI formula and the mortgage formula give the same monthly amount, for any finite growth other than 1 |
| LoanEmiCalculator.EmiWritten | src/components/calculators/LoanEMICalculator.tsx:49-53 | Past the guard, with any finite growth g ≠ 1 from Math.pow, the EMI is P·r·g/(g − 1), the total that times the months, the interest the total less P |
| LoanEmiCalculator.MortgageWritten | src/components/calculators/MortgageCalculator.tsx:46-65 | With no down payment and growth g ≠ 1, the mortgage's monthly payment is P·(r·g/(g − 1)) |
| LoanEmiCalculator.InputChangeSettles | src/components/calculators/LoanEMICalculator.tsx:29-31 | Every input change leaves the results settled; "Calculate EMI" on a settled screen changes nothing |
| LoanEmiCalculator.Calculator.CalculateEmi | src/components/calculators/LoanEMICalculator.tsx:33-68 | The results and the chart become those of the inputs |
| LoanEmiCalculator.Calculator.GenerateAmortizationSchedule | src/components/calculators/LoanEMICalculator.tsx:71-84 | Changes nothing; the toast is an error ("Please enter valid loan details") exactly when the chart is empty |
| LoanEmiCalculator.Calculator.HandleRateSlider | src/components/calculators/LoanEMICalculator.tsx:91-93 | The rate becomes the slider's value written with two decimals, and the effect runs |
| LoanEmiCalculator.Calculator.HandleAmountSlider | src/components/calculators/LoanEMICalculator.tsx:87-89 | The amount becomes String(value), and the effect runs |
| LoanEmiCalculator.Calculator.HandleTermSlider | src/components/calculators/LoanEMICalculator.tsx:95-97 | The term becomes String(value), and the effect runs |
| LoanEmiCalculator.Calculator.constructor | src/components/calculators/LoanEMICalculator.tsx:13-31 | Mount starts from "500000", "8.5" and "5", and the effect leaves the results and the chart equal to those of the inputs |
| LoanEmiCalculator.Calculator.InputsChanged | src/components/calculators/LoanEMICalculator.tsx:29-31 | The effect on [loanAmount, interestRate, loanTerm] recalculates when an input changed, and the results then agree with the inputs |
| LoanEmiCalculator.Calculator.SetLoanAmount | src/components/calculators/LoanEMICalculator.tsx:116 | The amount text is stored, then the effect recalculates |
| LoanEmiCalculator.Calculator.SetInterestRate | src/components/calculators/LoanEMICalculator.tsx:138 | The rate text is stored, then the effect recalculates |
| LoanEmiCalculator.Calculator.SetLoanTerm | src/components/calculators/LoanEMICalculator.tsx:161 | The term text is stored, then the effect recalculates |

## Left out

- Rendering: JSX, charts and their colours, slider ranges and the `toLocaleString` labels.
  None of them changes state.
- Toasts: they are modelled only in the Vedic calculator, as the message of a rejection, and in
  the loan EMI schedule button, as its outcome.
- Accumulator.ChainPending: an operand of several keys led by "0" (say "0" then "5") is not
  covered, because the second digit replaces the 0 and the display is not the keys joined up.
- Accumulator.LeftToRight: the same exclusion of operands of several keys led by "0"; a lone
  "0" operand is covered.
- LoanEmiCalculator.Calculator.CalculateEmi: the `try`/`catch` around calculateEMI is not
  modelled. JavaScript arithmetic does not throw, so its error toast cannot be reached.
- The `lastUpdated` text of the currency converter is not modelled. It depends on the clock.
- `parseFloat`, `String`, `toFixed` and the `Math` functions are uninterpreted. Properties that
  need their values take them as hypotheses: a parsed value, or `Math.pow` agreeing with the
  natural power. IEEE-754 rounding, negative zero and overflow are not modelled, because
  finite values are exact reals.
- MortgageCalculator.PaymentsOnNumbers and LoanEmiCalculator.EmiOnNumbers: the formula is proved
  only for a whole number of months. `Math.pow` at a fractional exponent is left uninterpreted.
- MortgageCalculator.SliderRoundTrip: it assumes the rounded amount reads back exactly. With a
  price whose share is not a whole number, toFixed(0) rounds and the percent moves.
- UnitConverter: exponent notation in `toFixed` for very large values is outside the trim's
  "digits.digits" form. That form is the only one proved.
- The currency converter's swap is scheduled with `setTimeout`. It is modelled as running
  before the next input, against the render it was scheduled from.
- React's batching and render scheduling are modelled only as "effects run after the handler
  whose change they depend on".
- The date, finance and exercise calculators, the calculation history, the layout, the index
  page and the navbar are not part of this model. Their logic is library calls, floating-point
  formulas or rendering.

## Findings

| source | as written | input that shows it | evidently intended | confidence | as-written member | corrected member |
|---|---|---|---|---|---|---|
| src/components/calculators/CurrencyConverter.tsx:43,79-83 | `mockExchangeRates` is a plain object rebuilt on every render. Only the mount render's copy is filled by the set-up pass. | After mount, convert JPY to INR with the Convert button: the rate shown is 1 | The derived cross rate (1/151.12)·83.45, from a table filled once and kept | not executed | CurrencyConverter.ConvertAfterMountAsWritten | CurrencyConverter.MountedCrossRate |
| src/components/calculators/CurrencyConverter.tsx:109-114 | `setTimeout(calculateConversion, 0)` calls the closure of the render before the swap, so it converts the old pair | From USD to EUR, press swap: EUR→USD is shown with the rate 0.91 | The swapped pair's rate 1.10 | not executed | CurrencyConverter.SwapShowsOldPairAsWritten | CurrencyConverter.SwapShowsNewPair |
