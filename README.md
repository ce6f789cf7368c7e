# Innowi savings calculator: a verified Dafny model

This project models the core of the Innowi savings calculator, a single-page web
application. A restaurant enters its payment volume (GPV), its third-party delivery
commission, its delivery mix and how much of its delivery business it would move
to its own ordering platform. The application then shows what it would save.

The model covers these parts:

- **Calculations** (`calculations.dfy`) is the calculation engine. It turns the four
  nullable inputs and a timeframe into the migrated third-party commissions, the
  Innowi fees, the savings, the savings percentage and a twelve-month projection.
  Money is an exact rational (`real`). JavaScript's `NaN`/`Infinity` percentage,
  which arises when the denominator is zero, is `None`.
- **Calculator** (`savings_calculator.dfy`) is the calculator form.
  - Pure parts: the range check of each field, the comma-grouped display of a
    number and its reading back, the completeness gate, and the stored timeframe
    preference.
  - State: a class holding the input record, the error map and the three flags
    (results shown, calculating, email prompt armed), with one method per event
    handler and effect.
- **Chart** (`savings_chart.dfy`) is the savings chart. It holds the running
  totals plotted per month, as a function and as a loop proved equal to it, and
  the totals handed to the marketing-plan download.
- **PdfModal** (`pdf_download_modal.dfy`) is the download modal. It has the
  `(XXX) XXX-XXXX` phone mask, the ten-digit check and the submit validation. The
  modal's state is a class.
- **Eligibility** (`eligibility_modal.dfy`) is the eligibility modal. It has the
  thousands-separated sales mask and the validation of the three fields on submit.
- **ContactForm** (`contact_capture_form.dfy`) is the contact form.
  - It has the phone check: punctuation is stripped, then an optional `+`, a
    non-zero digit and at most fifteen more digits.
  - It has the e-mail check, written as a left-to-right matcher. A lemma proves
    the matcher equal to the shape of the regular expression.
  - It has the form-level error collection and the contact record built on submit.
- **Text** (`text.dfy`) holds the string operations the components share, written
  out as ECMAScript defines them:
  - `replace` with a character-class filter;
  - `trim`, with the ECMAScript white-space set;
  - `parseInt` and `parseFloat` (sections 19.2.5 and 19.2.4 of ECMA-262);
  - `String(n)`, and the en-US thousands grouping of `toLocaleString`.
- **Wrappers** (`wrappers.dfy`) holds the `Option` type.

### Notes on the code

**The Innowi fee.** `innowiFees` multiplies by `migrationRate` fees that are
computed on the already-migrated orders and volume
(src/utils/calculations.ts:48-52). The migration fraction therefore enters twice,
and the Innowi fees are quadratic in it (`Calculations.FeesClosedForm`). The model
follows the code.

For the inputs $20,000 monthly, 30%, 85% and 40%, applying the migration fraction
once would give Innowi fees of 449.77 and savings of about 2367.37. The code
applies it twice and gives 31484/175 ≈ 179.91 and 461516/175 ≈ 2637.23
(`Calculations.WorkedExample`). The third-party figure, 19720/7 ≈ 2817.14, is the
same either way.

**The chart's download.** In src/components/SavingsCalculator.tsx:386 the chart is
rendered without its `results` property. Its download handler
(src/components/SavingsChart.tsx:66) therefore returns at once there.
`Chart.HandleModalSubmit` gives `None` for that case.

## Model

| member | source | states |
|---|---|---|
| Calculations.Divisor | src/utils/calculations.ts:86 | the divisor an aggregate is spread over is positive (12 for the annual view, 1 for the monthly one) |
| Calculations.GenerateMonthlyProjections | src/utils/calculations.ts:75-97 | exactly twelve entries, labelled Jan to Dec in order; each entry's fee and savings figures times the divisor give back the aggregate wired to that field |
| Calculations.CalculateSavings | src/utils/calculations.ts:9-73 | whatever the inputs, the result carries exactly twelve projection entries |
| Calculations.IncompleteGivesZero | src/utils/calculations.ts:18-27 | a missing input gives zero fees, zero savings, a zero percentage and all-zero projection entries |
| Calculations.ProjectionMonths | src/utils/calculations.ts:81-96 | the projections of any result are the twelve months Jan to Dec in order |
| Calculations.ProjectionsUniform | src/utils/calculations.ts:86-96 | every entry holds the third-party commissions, the Innowi fees and the savings each divided by the timeframe's divisor |
| Calculations.ProjectionBalances | src/utils/calculations.ts:55-64 | each entry's savings equal its third-party fees less its Innowi fees |
| Calculations.ThirdPartyIsMigratedShare | src/utils/calculations.ts:30-55 | the third-party commissions equal the commission on the migrated volume plus the per-order fee on the migrated orders; savings are commissions less Innowi fees, unclamped |
| Calculations.FeesClosedForm | src/utils/calculations.ts:30-55 | closed forms in the migration fraction m and the delivery volume D: commissions m·D·(c+4/35), Innowi fees m²·D·(1.30/35+0.029), savings their difference |
| Calculations.SavingsPositiveIff | src/utils/calculations.ts:45-55 | with a positive migrated volume the savings are positive exactly when c + 4/35 exceeds m·(1.30/35+0.029) |
| Calculations.FeesNonNegative | src/utils/calculations.ts:45-52 | for a non-negative volume and rates between 0 and 100% both fee totals are non-negative |
| Calculations.SavingsPercentDefinedIff | src/utils/calculations.ts:56 | the percentage is undefined exactly when migrationRate·totalGPV is zero, and otherwise times that base gives the savings times 100 |
| Calculations.NothingMigrated | src/utils/calculations.ts:41-56 | a zero volume or zero migration gives zero fees and savings and an undefined percentage |
| Calculations.WorkedExample | src/utils/calculations.ts:29-73 | for $20,000 monthly, 30%, 85%, 40%: commissions 19720/7, Innowi fees 31484/175, savings 461516/175, percentage 115379/3500 |
| Calculator.ValidateInput | src/components/SavingsCalculator.tsx:123-142 | no message for a missing value or the timeframe; for each numeric field, its message exactly when the value leaves that field's range ([1000, 50,000,000] with a low and a high message, [0,40], [0,100], [0,100]) |
| Calculator.ParseInputValue | src/components/SavingsCalculator.tsx:149-152 | a value is returned only when `parseInt` of the comma-free text gives that non-zero number; otherwise `parseInt` gave NaN or 0 |
| Calculator.FormatInputValue | src/components/SavingsCalculator.tsx:144-147 | the display is empty exactly for a missing value |
| Calculator.FormatParseRoundTrip | src/components/SavingsCalculator.tsx:144-152 | reading back the display of any integer other than 0, or of no value, gives it again; the display of 0 reads as no value |
| Calculator.PositiveRoundTrip | src/components/SavingsCalculator.tsx:144-152 | a positive integer's grouped display reads back as that integer |
| Calculator.NegativeRoundTrip | src/components/SavingsCalculator.tsx:144-152 | a negative integer's display, with its minus sign, reads back as that integer |
| Calculator.ZeroReadsAsNothing | src/components/SavingsCalculator.tsx:151 | the display of 0 reads back as no value |
| Calculator.AllInputsFilledIsEngineGate | src/components/SavingsCalculator.tsx:53-56 | the form's completeness test is exactly the engine's gate, and without it the savings are 0 |
| Calculator.GetInitialTimeframe | src/components/SavingsCalculator.tsx:19-26 | the annual view exactly when the stored preference is the string "annual" |
| Calculator.WithFieldOnlyChangesField | src/components/SavingsCalculator.tsx:87-91 | replacing a field sets it to the value given and leaves every other field as it was |
| Calculator.ErrorsFor | src/components/SavingsCalculator.tsx:102-119 | a field has a message exactly when it is numeric and its range check fails, and the message is the check's |
| Calculator.ErrorsAfterChange | src/components/SavingsCalculator.tsx:102-119 | after an edit, the error map equals the old one with the edited field's entry set to its new message or removed |
| Calculator.ClearThenSet | src/components/SavingsCalculator.tsx:103-118 | clearing a key only when present and then setting it when there is a message amounts to one replacement or removal of that key |
| Calculator.DefaultInputs | src/types/index.ts:51-57 | the default inputs have no errors and do not pass the completeness gate |
| Calculator.SavingsCalculatorState.constructor | src/components/SavingsCalculator.tsx:28-35 | starts from the defaults with the stored timeframe, no errors and every flag off |
| Calculator.SavingsCalculatorState.HandleInputChange | src/components/SavingsCalculator.tsx:81-120 | only the named field changes; its error is set to the new value's message or cleared; a timeframe change hides the results and re-arms the email prompt |
| Calculator.SavingsCalculatorState.HandleCalculate | src/components/SavingsCalculator.tsx:59-61 | the calculation starts exactly when every input is filled |
| Calculator.SavingsCalculatorState.FinishCalculate | src/components/SavingsCalculator.tsx:63-66 | after the delay the results are shown and the calculating flag is off |
| Calculator.SavingsCalculatorState.TrackViewedResults | src/components/SavingsCalculator.tsx:69-79 | arms the prompt, carrying the current results, exactly when it has not been armed since the last reset and the results are shown for complete inputs with positive savings; it is armed at most once per reset, and what it arms is the timer one run of the effect sets |
| Calculator.ArmedPromptCancelled | src/components/SavingsCalculator.tsx:70-79 | as written, a run of the effect arms the timer exactly under the condition above; the re-run its flag change causes clears that timer and arms nothing, and changes the flag no more, so no prompt is left pending |
| Chart.ChartData | src/components/SavingsChart.tsx:91-103 | as many rows as projections, each with its projection's month and, per series, the sum of that figure over the entries up to and including it |
| Chart.RunningSum | src/components/SavingsChart.tsx:93-95 | the first running total is the first figure and each later one is the previous plus this entry's figure |
| Chart.CumulativeIsPrefixSum | src/components/SavingsChart.tsx:93-95 | each plotted total is the sum over the prefix ending at that month |
| Chart.CumulativeSavingsMonotone | src/components/SavingsChart.tsx:93 | with no negative monthly savings the cumulative savings never decrease |
| Chart.UniformSum | src/components/SavingsChart.tsx:71 | summing n equal figures v gives n·v |
| Chart.UniformCumulative | src/components/SavingsChart.tsx:91-103 | on projections with one figure v per entry, the total at month i is (i+1)·v |
| Chart.GeneratedUniform | src/utils/calculations.ts:86-96 | every generated entry holds, per series, the aggregate feeding it over the divisor |
| Chart.GeneratedCumulative | src/components/SavingsChart.tsx:91-103 | on the engine's projections, the total at month i is (i+1) times its aggregate over the divisor |
| Chart.CumulativeChartData | src/components/SavingsChart.tsx:91-103 | a loop with one running total per series builds exactly the chart data |
| Chart.HandleModalSubmit | src/components/SavingsChart.tsx:65-85 | nothing without results; otherwise the total of the plotted savings (the last cumulative point), the savings amount, and twelve times it |
| Chart.EngineTotals | src/components/SavingsChart.tsx:71-73 | on the engine's projections the download's total is the aggregate savings for the annual view and the annual figure for the monthly view |
| PdfModal.FormatDigits | src/components/PDFDownloadModal.tsx:31-38 | the mask is at most fourteen characters and leaves up to three digits bare |
| PdfModal.FormatPhone | src/components/PDFDownloadModal.tsx:27-39 | the masked phone is at most fourteen characters |
| PdfModal.FormatDigitsKeepsDigits | src/components/PDFDownloadModal.tsx:31-38 | the digits of the mask are the digits given, in order, cut to ten |
| PdfModal.FormatPhoneDigits | src/components/PDFDownloadModal.tsx:27-39 | the digits of a masked phone are the first ten digits typed |
| PdfModal.FormatPhoneIdempotent | src/components/PDFDownloadModal.tsx:27-39 | masking a masked phone changes nothing |
| PdfModal.FormatPhoneValidIff | src/components/PDFDownloadModal.tsx:21-39 | a masked phone passes the ten-digit check exactly when at least ten digits were typed |
| PdfModal.FormatTenDigits | src/components/PDFDownloadModal.tsx:36-37 | ten digits are masked as `(XXX) XXX-XXXX`, fourteen characters |
| PdfModal.SubmitErrors | src/components/PDFDownloadModal.tsx:52-62 | a name error exactly when the name is blank; a phone error exactly when it is blank ("required") or does not hold ten digits (the 10-digit message) |
| PdfModal.SubmitAccepted | src/components/PDFDownloadModal.tsx:52-64 | no error exactly when the name has a non-space character and the phone holds ten digits |
| PdfModal.PdfDownloadForm.constructor | src/components/PDFDownloadModal.tsx:17-19 | empty name, phone and errors |
| PdfModal.PdfDownloadForm.HandleNameChange | src/components/PDFDownloadModal.tsx:89-94 | stores the name and clears only the name error |
| PdfModal.PdfDownloadForm.HandlePhoneChange | src/components/PDFDownloadModal.tsx:41-47 | stores the masked phone, keeps the field masked and clears only the phone error |
| PdfModal.PdfDownloadForm.HandleSubmit | src/components/PDFDownloadModal.tsx:49-70 | sends the untrimmed name and the phone exactly when no error is found; on failure the errors found replace those shown; on success they are kept |
| Eligibility.FormatCurrency | src/components/EligibilityModal.tsx:23-32 | empty exactly when no digit was typed |
| Eligibility.FormatCurrencyShape | src/components/EligibilityModal.tsx:25-31 | only digits and commas; a comma exactly at every fourth place from the right, so a first group of one to three digits; without commas, the canonical numeral of the typed value |
| Eligibility.FormatCurrencyIdempotent | src/components/EligibilityModal.tsx:23-32 | masking a masked amount changes nothing |
| Eligibility.SalesRoundTrip | src/components/EligibilityModal.tsx:48 | reading a masked amount without its commas gives the number the typed digits spell |
| Eligibility.SubmitErrors | src/components/EligibilityModal.tsx:45-69 | per field: "required" exactly when empty; otherwise sales fail unless a positive integer, the rating unless a number in [0,5], the years unless a non-negative integer, each with its message |
| Eligibility.MaskedSalesAccepted | src/components/EligibilityModal.tsx:34-53 | through the mask, sales pass exactly when the typed digits spell a positive number |
| Eligibility.YearsPrefix | src/components/EligibilityModal.tsx:64-69 | a whole number followed by a decimal point and anything, such as "2.5", reads as the whole number and passes |
| Eligibility.YearsNegative | src/components/EligibilityModal.tsx:64-69 | a minus sign before a non-zero number, such as "-1", fails; "-0" reads as 0 and passes |
| Eligibility.NoErrors | src/components/EligibilityModal.tsx:71-80 | with no error, the three texts read as numbers inside their ranges |
| Eligibility.EligibilityForm.constructor | src/components/EligibilityModal.tsx:18-21 | empty fields and errors |
| Eligibility.EligibilityForm.HandleMonthlySalesChange | src/components/EligibilityModal.tsx:34-40 | stores the masked amount, keeps the field masked and clears only the sales error |
| Eligibility.EligibilityForm.HandleGoogleRatingChange | src/components/EligibilityModal.tsx:113-118 | stores the rating text and clears only the rating error |
| Eligibility.EligibilityForm.HandleYearsInBusinessChange | src/components/EligibilityModal.tsx:134-139 | stores the years text and clears only the years error |
| Eligibility.EligibilityForm.HandleSubmit | src/components/EligibilityModal.tsx:42-81 | sends the three parsed numbers, each in range, exactly when no error is found; on failure the errors found replace those shown; on success they are kept |
| ContactForm.CleanPhone | src/components/ContactCaptureForm.tsx:43 | the cleaned phone holds no white space, `-`, `(`, `)` or `.` |
| ContactForm.PhoneAcceptedIff | src/components/ContactCaptureForm.tsx:41-45 | accepted exactly when the cleaned phone has 10 to 16 characters (17 with a leading `+`), is all digits apart from that `+`, and its first digit is not 0 |
| ContactForm.CleanPhoneIdempotent | src/components/ContactCaptureForm.tsx:43 | cleaning twice removes nothing more |
| ContactForm.ValidatePhoneIgnoresPunctuation | src/components/ContactCaptureForm.tsx:41-45 | a phone and its cleaned form are accepted alike |
| ContactForm.ValidatePhoneOfTrimmed | src/components/ContactCaptureForm.tsx:69-73 | trimming does not change the cleaned phone or the verdict |
| ContactForm.CleanOfTrimStart | src/components/ContactCaptureForm.tsx:43 | leading white space does not survive cleaning |
| ContactForm.CleanOfTrimEnd | src/components/ContactCaptureForm.tsx:43 | trailing white space does not survive cleaning |
| ContactForm.MaskedNumberAccepted | src/components/ContactCaptureForm.tsx:41-45 | ten digits written `(XXX) XXX-XXXX` clean to those digits and are accepted exactly when the first is not 0 |
| ContactForm.LeadingZeroRejected | src/components/ContactCaptureForm.tsx:42-44 | a run of digits starting with 0 is refused |
| ContactForm.RunDomain | src/components/ContactCaptureForm.tsx:37 | from inside the domain the matcher accepts exactly plain characters with a `.` that is not last |
| ContactForm.RunLocal | src/components/ContactCaptureForm.tsx:37 | from inside the local part the matcher accepts exactly plain characters, `@`, and a domain of the pattern's shape |
| ContactForm.ValidateEmailIff | src/components/ContactCaptureForm.tsx:36-39 | the e-mail check holds exactly when the address is a non-empty part without white space or `@`, then `@`, then such a part with a `.` that is neither its first nor its last character |
| ContactForm.EmailSingleAt | src/components/ContactCaptureForm.tsx:36-39 | an accepted address holds exactly one `@`, not at the start |
| ContactForm.Set | src/components/ContactCaptureForm.tsx:48-51 | the named field takes the value and the others are kept |
| ContactForm.FormErrorsSpec | src/components/ContactCaptureForm.tsx:62-80 | name error exactly when blank; phone and e-mail "required" when blank, else "invalid" exactly when the trimmed text fails its check |
| ContactForm.FormErrorsEmpty | src/components/ContactCaptureForm.tsx:62-83 | no error exactly when each trimmed input is present and passes its check |
| ContactForm.FormAccepted | src/components/ContactCaptureForm.tsx:62-83 | the form passes exactly when the name is not blank, the phone is accepted and the trimmed e-mail has the address shape |
| ContactForm.ContactCaptureForm.constructor | src/components/ContactCaptureForm.tsx:28-34 | empty fields, no errors, not submitting |
| ContactForm.ContactCaptureForm.HandleInputChange | src/components/ContactCaptureForm.tsx:47-60 | only the named field changes and only its error is cleared |
| ContactForm.ContactCaptureForm.ValidateForm | src/components/ContactCaptureForm.tsx:62-83 | the errors found replace those shown, even when there are none, and the answer is whether there are none |
| ContactForm.ContactCaptureForm.HandleSubmit | src/components/ContactCaptureForm.tsx:85-105 | a failed check sends nothing; otherwise the form is marked submitting and the record holds the trimmed name, phone and e-mail, the restaurant's name and city and the savings amount |
| Text.TrimEmptyIff | src/components/PDFDownloadModal.tsx:54 | a string trims to empty exactly when every character is white space |
| Text.Decimal | src/components/EligibilityModal.tsx:30-31 | the numeral of n is canonical and spells n |
| Text.DecimalOfValue | src/components/EligibilityModal.tsx:30-31 | a canonical numeral is the numeral of its own value |
| Text.GroupCommas | src/components/EligibilityModal.tsx:31 | a grouped numeral has commas exactly every fourth place from the right and digits elsewhere |
| Text.GroupUngroup | src/components/SavingsCalculator.tsx:146-150 | removing the commas of a grouped numeral gives the numeral back |
| Text.ParseIntOfDigits | src/components/SavingsCalculator.tsx:150 | `parseInt` of a digit run followed by a non-digit gives the run's value |
| Text.ParseIntOfNegated | src/components/SavingsCalculator.tsx:150 | `parseInt` of a minus sign and a digit run gives the negated value |
| Text.ParseIntNoneIff | src/components/EligibilityModal.tsx:64 | `parseInt` is `NaN` exactly when no digit follows the leading space and sign; otherwise it is the signed value of the leading digit run |
| Text.ParseFloatOfDecimal | src/components/EligibilityModal.tsx:56 | `parseFloat` of digits, a point and digits, with at least one digit and followed by neither a digit nor an exponent mark, is the numeral's exact value |
| Text.ParseFloatOfNegated | src/components/EligibilityModal.tsx:56 | a leading minus sign before such a numeral negates the value |
| Text.ParseFloatNoneIff | src/components/EligibilityModal.tsx:56 | `parseFloat` is `NaN` exactly when, after the leading space and sign, neither a digit nor a point followed by a digit comes first |

## Left out

- Browser storage is left out. That covers `saveToSession`, `loadFromSession` and `clearSession`, and the localStorage read and write of the timeframe. `Calculator.GetInitialTimeframe` takes the stored value as an argument.
- Currency and percent display is left out: `formatCurrency` and `formatPercent` of the engine, and the chart's tick labels. Each depends on `Intl.NumberFormat` rounding or on `toFixed` over IEEE doubles.
- Time is not modelled: the 1.5 s calculation delay and the 3 s e-mail delay. `Calculator.SavingsCalculatorState.HandleCalculate` and `FinishCalculate` are the two halves of the click handler around its `await`.
- Calculator.SavingsCalculatorState.TrackViewedResults: states the intended behaviour, a prompt armed once per reset and then delivered. React's cleanup, which as written clears that timer before it fires, is modelled apart in `Calculator.SettledTimer` and `Calculator.ArmedPromptCancelled` (see "## Findings").
- Calculator.SavingsCalculatorState.HandleInputChange: requires the pairings the form's handlers make: a number or nothing for the numeric fields, "monthly" or "annual" for the timeframe. The handler's type would also accept, say, a string for a numeric field.
- Calculator.FormatInputValue: covers integers only. The text box only ever holds what `Calculator.ParseInputValue` returned, which is an integer. The `Intl` rendering of fractions is not modelled.
- Calculations.CalculateSavings: money is an exact rational. Floating-point rounding is not modelled, and JavaScript's `NaN`/`Infinity` percentage is `None`.
- Text.ParseFloat: Gives the exact rational value of a decimal text. It leaves out the `Infinity` literal and the rounding to a double.
- Text.ParseInt: Gives the exact integer. It leaves out the loss of precision past 2^53. It does not tell a `-0` reading apart from 0, which changes no check here.
- Eligibility.FormatCurrency: Gives the exact number the digits spell. It leaves out the precision loss of `parseInt` and `toLocaleString` on more than fifteen digits.
- Strings are sequences of Unicode characters. JavaScript's UTF-16 code units are not modelled, nor is it modelled that the source's regular expressions match UTF-16 code units. Only characters outside the Basic Multilingual Plane would differ.
- Chart.HandleModalSubmit: returns the three totals it hands to the PDF generator. The PDF generation itself, the `console.log` of the user's name and phone, and the modal's open/close flag are left out.
- ContactForm.ContactCaptureForm.HandleSubmit: leaves out the time stamp of the record (it reads the clock) and the path where `onSubmit` throws and the flag is reset. The callback is outside this code.
- Rendering, tooltips, scroll locking and the portal of the modals have no behaviour to prove and are left out. The `disabled` state of inputs while submitting is left out too.

## Findings

| source | as written | input that shows it | evidently intended | confidence | as-written member | corrected member |
|---|---|---|---|---|---|---|
| src/components/SavingsCalculator.tsx:70-79 | the effect sets `hasViewedResults`, which is in its own dependency list, so React runs the cleanup `clearTimeout` and re-runs the effect before the 3 s timer fires; the re-run arms nothing, so `onShowEmailForm` is never called | any complete inputs with positive savings, such as $20,000 monthly, 30%, 85% and 40%, once Calculate has shown the results | the e-mail form opens 3 s after the results are first shown, once per timeframe reset | high, not executed | Calculator.ArmedPromptCancelled | Calculator.SavingsCalculatorState.TrackViewedResults |
