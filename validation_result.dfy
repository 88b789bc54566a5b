/** `process_validation_result`: the display value of one validation run,
    chosen by the expectation's `result_type`.

    Python's `round(x, 5)` and the float-to-text conversion of the f-string
    are kept abstract: a value records the number that is handed to `round`,
    and turning it into text takes a caller-supplied `show` function that
    stands for `str(round(x, 5))`. */
module ValidationResult {
  import opened Wrappers

  const ColumnMapExpectation := "column_map_expectation"
  const ColumnAggregateExpectation := "column_aggregate_expectation"
  const PlainExpectation := "expectation"

  /** The three result types the function knows how to display. */
  predicate IsKnownResultType(resultType: string) {
    resultType == ColumnMapExpectation
    || resultType == ColumnAggregateExpectation
    || resultType == PlainExpectation
  }

  /** One entry of the run's `result` object: missing, JSON null, a number,
      a JSON boolean (Python's `bool`, an `int` subclass), or any other JSON
      value (string, list, object). */
  datatype Field = Absent | Null | Num(x: real) | Bool(b: bool) | NonNumeric

  /** The entries that Python arithmetic and `round` accept. */
  predicate IsNumeric(f: Field) {
    f.Num? || f.Bool?
  }

  /** The number such an entry stands for; `True` and `False` act as 1 and 0. */
  function NumberOf(f: Field): real
    requires IsNumeric(f)
  {
    if f.Num? then f.x else if f.b then 1.0 else 0.0
  }

  /** The `result` object of a validation run, reduced to the keys read here;
      for `observed_value_list` only its presence matters. */
  datatype RunResult = RunResult(
    unexpectedPercent: Field,
    observedValue: Field,
    hasObservedValueList: bool)

  /** The display value. `Percent(a)` is the string `f'{round(a, 5)}%'`,
      `Number(a)` is the number `round(a, 5)`, `Dash` is the placeholder `'-'`. */
  datatype Value = Percent(arg: real) | Number(arg: real) | Dash

  /** What the Python code raises instead of returning a value:
      `ValueError` for an unsupported result type, `KeyError` for a missing
      key, `TypeError` when `round` or `-` meets a value that is not a number. */
  datatype Error =
    | NotImplemented(resultType: string)
    | MissingKey(key: string)
    | NotANumber(key: string)

  /** Reading `result["result"][key]` as a number. */
  function ReadNumber(f: Field, key: string): (r: Result<real, Error>)
    ensures r.Ok? <==> IsNumeric(f)
    ensures r.Ok? ==> r.value == NumberOf(f)
    ensures f.Absent? ==> r == Err(MissingKey(key))
    ensures !f.Absent? && !IsNumeric(f) ==> r == Err(NotANumber(key))
  {
    match f
    case Absent => Err(MissingKey(key))
    case Null => Err(NotANumber(key))
    case NonNumeric => Err(NotANumber(key))
    case Num(x) => Ok(x)
    case Bool(b) => Ok(if b then 1.0 else 0.0)
  }

  /** The if/elif chain on `result_type`. */
  function ProcessValidationResult(result: RunResult, resultType: string): (r: Result<Value, Error>)
    ensures !IsKnownResultType(resultType) ==> r == Err(NotImplemented(resultType))
    ensures r.Ok? && r.value.Percent? ==> resultType == ColumnMapExpectation
    ensures r == Ok(Dash) <==>
      resultType == PlainExpectation && result.observedValue.Absent? && result.hasObservedValueList
  {
    if resultType == ColumnMapExpectation then
      match ReadNumber(result.unexpectedPercent, "unexpected_percent")
      case Ok(u) => Ok(Percent(100.0 - u))
      case Err(e) => Err(e)
    else if resultType == ColumnAggregateExpectation then
      match ReadNumber(result.observedValue, "observed_value")
      case Ok(x) => Ok(Number(x))
      case Err(e) => Err(e)
    else if resultType == PlainExpectation then
      if !result.observedValue.Absent? then
        match ReadNumber(result.observedValue, "observed_value")
        case Ok(x) => Ok(Number(x))
        case Err(e) => Err(e)
      else if result.hasObservedValueList then
        Ok(Dash)
      else
        Err(NotImplemented(resultType))
    else
      Err(NotImplemented(resultType))
  }

  /** When the inputs admit a display value, stated independently of the
      if/elif chain: a known result type whose required key holds a number
      (for "expectation": `observed_value` holds a number, or is missing while
      `observed_value_list` is present). */
  predicate Displayable(result: RunResult, resultType: string) {
    (resultType == ColumnMapExpectation && IsNumeric(result.unexpectedPercent))
    || (resultType == ColumnAggregateExpectation && IsNumeric(result.observedValue))
    || (resultType == PlainExpectation
        && (IsNumeric(result.observedValue) || (result.observedValue.Absent? && result.hasObservedValueList)))
  }

  /** The function returns a value exactly for displayable inputs, and raises
      "not implemented" for exactly the unknown result types and the
      "expectation" result that has neither observed key. */
  lemma ProcessSucceedsIffDisplayable(result: RunResult, resultType: string)
    ensures ProcessValidationResult(result, resultType).Ok? <==> Displayable(result, resultType)
    ensures ProcessValidationResult(result, resultType) == Err(NotImplemented(resultType)) <==>
      !IsKnownResultType(resultType)
      || (resultType == PlainExpectation && result.observedValue.Absent? && !result.hasObservedValueList)
  {
  }

  /** For "expectation", `observed_value` wins over `observed_value_list`:
      whether the list is present does not change the outcome once
      `observed_value` is. */
  lemma ObservedValueTakesPrecedence(result: RunResult, hasList: bool)
    requires !result.observedValue.Absent?
    ensures ProcessValidationResult(result, PlainExpectation)
         == ProcessValidationResult(result.(hasObservedValueList := hasList), PlainExpectation)
    ensures IsNumeric(result.observedValue) ==>
      ProcessValidationResult(result, PlainExpectation) == Ok(Number(NumberOf(result.observedValue)))
  {
  }

  /** The value shown for each result type when its key holds a number:
      `100 - unexpected_percent` as a percentage, `observed_value` as a number. */
  lemma ValueByResultType(result: RunResult)
    ensures IsNumeric(result.unexpectedPercent) ==>
      ProcessValidationResult(result, ColumnMapExpectation) == Ok(Percent(100.0 - NumberOf(result.unexpectedPercent)))
    ensures IsNumeric(result.observedValue) ==>
      ProcessValidationResult(result, ColumnAggregateExpectation) == Ok(Number(NumberOf(result.observedValue)))
  {
  }

  /** The text of a value inside a table cell; `show(a)` stands for `str(round(a, 5))`. */
  function ValueText(v: Value, show: real -> string): (s: string)
    ensures v.Dash? ==> s == "-"
    ensures v.Percent? ==> s == show(v.arg) + "%" && s[|s| - 1] == '%'
    ensures v.Number? ==> s == show(v.arg)
  {
    match v
    case Percent(a) => show(a) + "%"
    case Number(a) => show(a)
    case Dash => "-"
  }
}
