/**
 * The savings calculator form: the per-field range checks, the text box's
 * comma-grouped number, the completeness gate, the stored timeframe preference,
 * and the form state with its input, error and result-visibility updates.
 */
module Calculator {
  import opened Wrappers
  import opened Text
  import opened Calculations

  /** The keys of the calculator's input record. */
  datatype Field = TotalGPV | CommissionPercent | DeliveryMix | MigrationPercent | TimeframeField

  /** What an input handler passes: a number, a string (the timeframe buttons) or nothing. */
  datatype Value = Number(n: real) | Str(s: string) | Null

  const NumericFields: set<Field> := {TotalGPV, CommissionPercent, DeliveryMix, MigrationPercent}

  const GPVTooLow := "GPV should be at least $1,000"
  const GPVTooHigh := "GPV seems unusually high"
  const CommissionOutOfRange := "Commission rate should be between 0% and 40%"
  const DeliveryMixOutOfRange := "Delivery mix should be between 0% and 100%"
  const MigrationOutOfRange := "Migration percentage should be between 0% and 100%"

  /**
   * The range check of one field: no message for a missing value or for the
   * timeframe, else a message exactly when the value leaves the field's range.
   */
  function ValidateInput(field: Field, value: Option<real>): (r: Option<string>)
    ensures value.None? || field == TimeframeField ==> r.None?
    ensures value.Some? && field == TotalGPV ==>
      r == (if value.value < 1000.0 then Some(GPVTooLow)
            else if value.value > 50000000.0 then Some(GPVTooHigh) else None)
    ensures value.Some? && field == CommissionPercent ==>
      (r.Some? <==> value.value < 0.0 || value.value > 40.0) && (r.Some? ==> r.value == CommissionOutOfRange)
    ensures value.Some? && field == DeliveryMix ==>
      (r.Some? <==> value.value < 0.0 || value.value > 100.0) && (r.Some? ==> r.value == DeliveryMixOutOfRange)
    ensures value.Some? && field == MigrationPercent ==>
      (r.Some? <==> value.value < 0.0 || value.value > 100.0) && (r.Some? ==> r.value == MigrationOutOfRange)
  {
    match value
    case None => None
    case Some(v) =>
      match field
      case TotalGPV =>
        if v < 1000.0 then Some(GPVTooLow) else if v > 50000000.0 then Some(GPVTooHigh) else None
      case CommissionPercent =>
        if v < 0.0 || v > 40.0 then Some(CommissionOutOfRange) else None
      case DeliveryMix =>
        if v < 0.0 || v > 100.0 then Some(DeliveryMixOutOfRange) else None
      case MigrationPercent =>
        if v < 0.0 || v > 100.0 then Some(MigrationOutOfRange) else None
      case TimeframeField => None
  }

  /**
   * The text box's reading of what was typed: drop every comma, read the leading
   * integer as `parseInt` does, and treat `NaN` and 0 as no value. Negative numbers
   * pass.
   */
  function ParseInputValue(s: string): (r: Option<int>)
    ensures r.Some? ==> r.value != 0 && ParseInt(Keep(s, NotComma)) == r
    ensures r.None? ==> ParseInt(Keep(s, NotComma)) in {None, Some(0)}
  {
    var parsed := ParseInt(Keep(s, NotComma));
    if parsed.None? || parsed.value == 0 then None else parsed
  }

  /** The en-US display of an integer input (`Intl.NumberFormat('en-US')`), empty for no value. */
  function FormatInputValue(value: Option<int>): (r: string)
    ensures r == [] <==> value.None?
  {
    match value
    case None => ""
    case Some(n) => if n < 0 then "-" + Group(Decimal(-n)) else Group(Decimal(n))
  }

  /** Displaying an integer and reading the display back gives the integer again; 0 reads as no value. */
  lemma FormatParseRoundTrip(value: Option<int>)
    ensures value != Some(0) ==> ParseInputValue(FormatInputValue(value)) == value
    ensures ParseInputValue(FormatInputValue(Some(0))) == None
  {
    ZeroReadsAsNothing();
    if value.None? {
      assert Keep("", NotComma) == "";
    } else if value.value > 0 {
      PositiveRoundTrip(value.value);
    } else if value.value < 0 {
      NegativeRoundTrip(-value.value);
    }
  }

  lemma ZeroReadsAsNothing()
    ensures ParseInputValue(FormatInputValue(Some(0))) == None
  {
    var ds := Decimal(0);
    assert FormatInputValue(Some(0)) == Group(ds) == ds;
    GroupUngroup(ds);
    ParseIntOfDigits(ds, "");
    assert ds + "" == ds;
  }

  lemma PositiveRoundTrip(n: nat)
    requires n > 0
    ensures ParseInputValue(FormatInputValue(Some(n))) == Some(n)
  {
    var ds := Decimal(n);
    GroupUngroup(ds);
    ParseIntOfDigits(ds, "");
    assert ds + "" == ds;
  }

  lemma NegativeRoundTrip(n: nat)
    requires n > 0
    ensures ParseInputValue(FormatInputValue(Some(-(n as int)))) == Some(-(n as int))
  {
    var ds := Decimal(n);
    var shown := FormatInputValue(Some(-(n as int)));
    assert shown == "-" + Group(ds);
    GroupUngroup(ds);
    KeepConcat("-", Group(ds), NotComma);
    assert Keep("-", NotComma) == "-";
    var kept := Keep(shown, NotComma);
    assert kept == "-" + ds;
    assert kept[1..] == ds + "";
    ParseIntOfNegated(ds, "", kept);
  }

  /** All four numeric inputs are present: the condition that enables the Calculate button. */
  predicate AllInputsFilled(inputs: CalculatorInputs) {
    inputs.totalGPV != None && inputs.commissionPercent != None
    && inputs.deliveryMix != None && inputs.migrationPercent != None
  }

  /** The form's gate and the engine's gate coincide: without all four inputs the engine reports zeros. */
  lemma AllInputsFilledIsEngineGate(inputs: CalculatorInputs)
    ensures AllInputsFilled(inputs) <==> Complete(inputs)
    ensures !AllInputsFilled(inputs) ==> CalculateSavings(inputs).savingsAmount == 0.0
  {
  }

  /** The stored preference chooses the annual view only when it is exactly "annual"; a missing or unreadable one gives monthly. */
  function GetInitialTimeframe(saved: Option<string>): (r: Timeframe)
    ensures r == Annual <==> saved == Some("annual")
  {
    if saved == Some("annual") then Annual else Monthly
  }

  /** The numeric value a field holds; the timeframe has none. */
  function InputValue(inputs: CalculatorInputs, field: Field): Option<real> {
    match field
    case TotalGPV => inputs.totalGPV
    case CommissionPercent => inputs.commissionPercent
    case DeliveryMix => inputs.deliveryMix
    case MigrationPercent => inputs.migrationPercent
    case TimeframeField => None
  }

  /** The pairings the form's handlers make: numbers or nothing for the amounts, "monthly" or "annual" for the timeframe. */
  predicate WellTyped(field: Field, value: Value) {
    if field == TimeframeField then value == Str("monthly") || value == Str("annual")
    else !value.Str?
  }

  /** The input record with one field replaced, as `{...prev, [field]: value}` does. */
  function WithField(inputs: CalculatorInputs, field: Field, value: Value): CalculatorInputs
    requires WellTyped(field, value)
  {
    var amount := if value.Number? then Some(value.n) else None;
    match field
    case TotalGPV => inputs.(totalGPV := amount)
    case CommissionPercent => inputs.(commissionPercent := amount)
    case DeliveryMix => inputs.(deliveryMix := amount)
    case MigrationPercent => inputs.(migrationPercent := amount)
    case TimeframeField => inputs.(timeframe := if value == Str("annual") then Annual else Monthly)
  }

  /** Replacing a field changes that field, to the value given, and no other. */
  lemma WithFieldOnlyChangesField(inputs: CalculatorInputs, field: Field, value: Value)
    requires WellTyped(field, value)
    ensures var updated := WithField(inputs, field, value);
      && (forall g | g != field :: InputValue(updated, g) == InputValue(inputs, g))
      && (field != TimeframeField ==> updated.timeframe == inputs.timeframe)
      && (field != TimeframeField ==> InputValue(updated, field) == (if value.Number? then Some(value.n) else None))
      && (field == TimeframeField ==> (updated.timeframe == Annual <==> value == Str("annual")))
  {
  }

  /** The error messages the form shows for given inputs: one per numeric field whose value fails its range check. */
  function ErrorsFor(inputs: CalculatorInputs): (errors: map<Field, string>)
    ensures forall f :: f in errors <==> f in NumericFields && ValidateInput(f, InputValue(inputs, f)).Some?
    ensures forall f | f in errors :: Some(errors[f]) == ValidateInput(f, InputValue(inputs, f))
  {
    map f | f in NumericFields && ValidateInput(f, InputValue(inputs, f)).Some? :: ValidateInput(f, InputValue(inputs, f)).value
  }

  /**
   * An edit keeps the error map in step with the inputs: the edited field's message
   * is the one its new value earns, and the other fields' messages stay.
   */
  lemma ErrorsAfterChange(inputs: CalculatorInputs, field: Field, value: Value)
    requires WellTyped(field, value)
    ensures var error := if value.Number? then ValidateInput(field, Some(value.n)) else None;
      ErrorsFor(WithField(inputs, field, value))
      == if error.Some? then ErrorsFor(inputs)[field := error.value] else ErrorsFor(inputs) - {field}
  {
    var updated := WithField(inputs, field, value);
    WithFieldOnlyChangesField(inputs, field, value);
    var error := if value.Number? then ValidateInput(field, Some(value.n)) else None;
    var before, after := ErrorsFor(inputs), ErrorsFor(updated);
    forall f | f != field
      ensures (f in after <==> f in before) && (f in after ==> after[f] == before[f])
    {
      ErrorsAgree(updated, inputs, f);
    }
    ErrorsAtEdited(inputs, field, value);
    ReplaceKey(after, before, field, error);
  }

  /** A map that agrees with `before` off `field` and holds `error` at `field` is `before` with that key replaced or removed. */
  lemma ReplaceKey(after: map<Field, string>, before: map<Field, string>, field: Field, error: Option<string>)
    requires forall f | f != field :: (f in after <==> f in before) && (f in after ==> after[f] == before[f])
    requires field in after <==> error.Some?
    requires field in after ==> after[field] == error.value
    ensures after == if error.Some? then before[field := error.value] else before - {field}
  {
    var expected := if error.Some? then before[field := error.value] else before - {field};
    assert forall f :: f in after <==> f in expected;
  }

  /** The edited field shows exactly the message its new value earns. */
  lemma ErrorsAtEdited(inputs: CalculatorInputs, field: Field, value: Value)
    requires WellTyped(field, value)
    ensures var error := if value.Number? then ValidateInput(field, Some(value.n)) else None;
      var after := ErrorsFor(WithField(inputs, field, value));
      && (field in after <==> error.Some?)
      && (field in after ==> after[field] == error.value)
  {
    var updated := WithField(inputs, field, value);
    WithFieldOnlyChangesField(inputs, field, value);
    if field != TimeframeField {
      assert InputValue(updated, field) == (if value.Number? then Some(value.n) else None);
    }
  }

  /** Two input records that hold the same value in a field show the same error for it. */
  lemma ErrorsAgree(a: CalculatorInputs, b: CalculatorInputs, f: Field)
    requires InputValue(a, f) == InputValue(b, f)
    ensures f in ErrorsFor(a) <==> f in ErrorsFor(b)
    ensures f in ErrorsFor(a) ==> ErrorsFor(a)[f] == ErrorsFor(b)[f]
  {
  }

  /** Clearing a key only when present, then setting it when there is a message, is one replacement of that key. */
  lemma ClearThenSet(errors: map<Field, string>, field: Field, error: Option<string>)
    ensures var cleared := if field in errors then errors - {field} else errors;
      (if error.Some? then cleared[field := error.value] else cleared)
      == (if error.Some? then errors[field := error.value] else errors - {field})
  {
    if field !in errors {
      assert errors - {field} == errors;
    } else if error.Some? {
      assert (errors - {field})[field := error.value] == errors[field := error.value];
    }
  }

  /** The defaults of types/index.ts: no volume, 30% commission, 85% delivery, 40% migration. */
  function DefaultInputs(timeframe: Timeframe): (inputs: CalculatorInputs)
    ensures ErrorsFor(inputs) == map[]
    ensures !AllInputsFilled(inputs)
  {
    CalculatorInputs(None, Some(30.0), Some(85.0), Some(40.0), timeframe)
  }

  /** What one run of the viewed-results effect leaves: the new `hasViewedResults` and the timer it armed, if any. */
  datatype EffectRun = EffectRun(viewed: bool, timer: Option<CalculationResults>)

  /**
   * One run of the effect that arms the email prompt, for one render's values: results
   * shown for complete inputs with positive savings and not yet viewed are marked viewed,
   * and a timer carrying them is armed.
   */
  function ViewedEffect(viewed: bool, shown: bool, filled: bool, results: CalculationResults): EffectRun {
    if !viewed && shown && filled && results.savingsAmount > 0.0 then EffectRun(true, Some(results))
    else EffectRun(viewed, None)
  }

  /**
   * The timer still pending once React has settled the effect as written. A run that
   * sets `hasViewedResults` changes one of the effect's dependencies, so React calls
   * that run's cleanup, which clears its timer, and runs the effect again with the new
   * flag. The results are memoized on the inputs and stay the same in between.
   */
  function SettledTimer(viewed: bool, shown: bool, filled: bool, results: CalculationResults): Option<CalculationResults> {
    var first := ViewedEffect(viewed, shown, filled, results);
    if first.viewed == viewed then first.timer
    else ViewedEffect(first.viewed, shown, filled, results).timer
  }

  /**
   * As written, the prompt the effect arms is never delivered: arming it sets the flag,
   * the re-run that follows clears the timer and arms nothing, and after that re-run
   * the flag no longer changes, so the effect is settled with no timer pending.
   */
  lemma ArmedPromptCancelled(viewed: bool, shown: bool, filled: bool, results: CalculationResults)
    ensures ViewedEffect(viewed, shown, filled, results).timer.Some? <==>
      !viewed && shown && filled && results.savingsAmount > 0.0
    ensures var first := ViewedEffect(viewed, shown, filled, results);
      ViewedEffect(first.viewed, shown, filled, results) == EffectRun(first.viewed, None)
    ensures SettledTimer(viewed, shown, filled, results) == None
  {
  }

  /**
   * The calculator's component state. The input record and the error map are
   * replaced field by field; the flags drive the results panel and the one-time
   * email prompt.
   */
  class SavingsCalculatorState {
    var inputs: CalculatorInputs
    var inputErrors: map<Field, string>
    var hasViewedResults: bool
    var showResults: bool
    var isCalculating: bool
    /** How many times the email prompt has been armed since the last timeframe reset. */
    ghost var promptsArmed: nat

    /**
     * The errors shown are always those of the current inputs, and the email
     * prompt is armed at most once per reset, exactly when the results have been
     * marked as viewed.
     */
    ghost predicate Valid()
      reads this
    {
      && inputErrors == ErrorsFor(inputs)
      && promptsArmed <= 1
      && (hasViewedResults <==> promptsArmed == 1)
    }

    /** The results the component renders, recomputed from the inputs. */
    function Results(): CalculationResults
      reads this
    {
      CalculateSavings(inputs)
    }

    /** A fresh calculator, with the timeframe taken from the stored preference. */
    constructor (savedTimeframe: Option<string>)
      ensures Valid()
      ensures inputs == DefaultInputs(GetInitialTimeframe(savedTimeframe))
      ensures inputErrors == map[]
      ensures !hasViewedResults && !showResults && !isCalculating
    {
      inputs := DefaultInputs(GetInitialTimeframe(savedTimeframe));
      inputErrors := map[];
      hasViewedResults, showResults, isCalculating := false, false, false;
      promptsArmed := 0;
    }

    /**
     * One edit of the form: the field takes the value; its error is cleared and, for
     * a number, set again to what the range check says; a change of timeframe hides
     * the results and re-enables the email prompt.
     */
    method HandleInputChange(field: Field, value: Value)
      requires Valid()
      requires WellTyped(field, value)
      modifies this
      ensures Valid()
      ensures inputs == WithField(old(inputs), field, value)
      ensures inputErrors == (
        var error := if value.Number? then ValidateInput(field, Some(value.n)) else None;
        if error.Some? then old(inputErrors)[field := error.value] else old(inputErrors) - {field})
      ensures isCalculating == old(isCalculating)
      ensures if inputs.timeframe != old(inputs.timeframe)
              then !showResults && !hasViewedResults
              else showResults == old(showResults) && hasViewedResults == old(hasViewedResults)
    {
      var previous := inputs.timeframe;
      var error := if value.Number? then ValidateInput(field, Some(value.n)) else None;
      ErrorsAfterChange(inputs, field, value);
      ClearThenSet(inputErrors, field, error);
      inputs := WithField(inputs, field, value);
      if field in inputErrors {
        inputErrors := inputErrors - {field};
      }
      if error.Some? {
        inputErrors := inputErrors[field := error.value];
      }
      if inputs.timeframe != previous {
        hasViewedResults, showResults := false, false;
        promptsArmed := 0;
      }
    }

    /** The Calculate button: it starts the calculation only when every input is filled. */
    method HandleCalculate() returns (started: bool)
      requires Valid()
      modifies this
      ensures Valid()
      ensures started <==> AllInputsFilled(inputs)
      ensures isCalculating == (started || old(isCalculating))
      ensures inputs == old(inputs) && inputErrors == old(inputErrors)
      ensures showResults == old(showResults) && hasViewedResults == old(hasViewedResults)
    {
      started := AllInputsFilled(inputs);
      if started {
        isCalculating := true;
      }
    }

    /** The end of the simulated calculation delay of a started calculation: the results are shown. */
    method FinishCalculate()
      requires Valid()
      requires isCalculating
      modifies this
      ensures Valid()
      ensures showResults && !isCalculating
      ensures inputs == old(inputs) && inputErrors == old(inputErrors)
      ensures hasViewedResults == old(hasViewedResults)
    {
      showResults := true;
      isCalculating := false;
    }

    /**
     * The effect that arms the email prompt, with the behaviour its comment intends:
     * once per reset, when the results are shown for complete inputs with positive
     * savings, it arms a prompt carrying them, to be delivered three seconds later.
     * As written, the re-run the flag change causes clears that timer first
     * (`ArmedPromptCancelled`).
     */
    method TrackViewedResults() returns (armed: Option<CalculationResults>)
      requires Valid()
      modifies this
      ensures Valid()
      ensures armed.Some? <==>
        !old(hasViewedResults) && showResults && AllInputsFilled(inputs) && Results().savingsAmount > 0.0
      ensures armed.Some? ==> armed.value == Results()
      ensures armed == ViewedEffect(old(hasViewedResults), showResults, AllInputsFilled(inputs), Results()).timer
      ensures hasViewedResults == (old(hasViewedResults) || armed.Some?)
      ensures promptsArmed == old(promptsArmed) + (if armed.Some? then 1 else 0)
      ensures inputs == old(inputs) && inputErrors == old(inputErrors)
      ensures showResults == old(showResults) && isCalculating == old(isCalculating)
    {
      if !hasViewedResults && showResults && AllInputsFilled(inputs) && Results().savingsAmount > 0.0 {
        hasViewedResults := true;
        promptsArmed := promptsArmed + 1;
        armed := Some(Results());
      } else {
        armed := None;
      }
    }
  }
}
