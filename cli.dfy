/**
 * `prepareParams`: parse the data series and the base options blob, and
 * build the options object `{...base, <override keys>}` from the parsed
 * command-line values.
 */
module Cli {
  import opened Wrappers
  import opened Js
  import opened Validators

  /** The one exception the merge lets through: a JSON syntax error, fatal to the run. */
  datatype Thrown = SyntaxError

  /** What `prepareParams` returns: the data series and the merged options object. */
  datatype Params = Params(input: JsValue, options: map<string, JsValue>)

  /** Destructuring `name` out of the parsed arguments: undefined when the flag was not given. */
  function Arg(argv: map<string, JsValue>, name: string): JsValue {
    if name in argv then argv[name] else Undefined
  }

  predicate IsStringOrUndefined(v: JsValue) {
    v.Undefined? || v.Str?
  }

  /**
   * The parameter type of `prepareParams` where the code depends on it:
   * `input` is a string, the JSON and code options are strings when given,
   * and `axisCenter` is an array when given.
   */
  predicate WellTypedArgv(argv: map<string, JsValue>) {
    && Arg(argv, "input").Str?
    && IsStringOrUndefined(Arg(argv, "options"))
    && IsStringOrUndefined(Arg(argv, "legend"))
    && IsStringOrUndefined(Arg(argv, "formatter"))
    && IsStringOrUndefined(Arg(argv, "lineFormatter"))
    && IsStringOrUndefined(Arg(argv, "symbols"))
    && (Arg(argv, "axisCenter").Undefined? || Arg(argv, "axisCenter").Arr?)
  }

  /** The flags copied into the options without validation. */
  const VerbatimKeys: set<string> :=
    {"width", "height", "hideYAxis", "hideXAxis", "title", "xLabel", "yLabel",
     "fillArea", "barChart", "horizontalBarChart", "showTickLabel"}

  /** The flags that pass through a validator. */
  const ValidatedKeys: set<string> :=
    {"color", "axisCenter", "yRange", "thresholds", "legend", "formatter", "lineFormatter", "symbols"}

  /** No flag is both copied and validated. */
  lemma KeySetsDisjoint()
    ensures VerbatimKeys !! ValidatedKeys
  {
  }

  /** Every key the merge assigns after spreading the base. */
  const OverrideKeys: set<string> := VerbatimKeys + ValidatedKeys

  /** `options ? JSON.parse(options) : {}`. */
  function BaseOptions(argv: map<string, JsValue>, host: Host): (r: Result<JsValue, Thrown>)
    requires IsStringOrUndefined(Arg(argv, "options"))
    ensures !Truthy(Arg(argv, "options")) ==> r == Success(Obj(map[]))
    ensures Truthy(Arg(argv, "options")) ==>
      (r.Failure? <==> host.jsonParse(Arg(argv, "options").s).None?)
      && (r.Success? ==> Some(r.value) == host.jsonParse(Arg(argv, "options").s))
  {
    var options := Arg(argv, "options");
    if Truthy(options) then
      match host.jsonParse(options.s)
      case None => Failure(SyntaxError)
      case Some(v) => Success(v)
    else Success(Obj(map[]))
  }

  /** The value the merge writes for one override key, as `cli.ts` computes it. */
  function OverrideValue(argv: map<string, JsValue>, host: Host, key: string): JsValue
    requires WellTypedArgv(argv)
  {
    if key in VerbatimKeys then Arg(argv, key)
    else if key == "color" then (var color := Arg(argv, "color"); if Truthy(color) then ValidateColors(color) else Undefined)
    else if key == "axisCenter" then ValidateAxisCenter(Arg(argv, "axisCenter"))
    else if key == "yRange" then ValidateYRange(Arg(argv, "yRange"))
    else if key == "thresholds" then ValidateThresholds(Arg(argv, "thresholds"))
    else if key == "legend" then ValidateLegend(Arg(argv, "legend"), host)
    else if key == "formatter" then ValidateFormatter(Arg(argv, "formatter"), host)
    else if key == "lineFormatter" then ValidateLineFormatter(Arg(argv, "lineFormatter"), host)
    else if key == "symbols" then ValidateSymbols(Arg(argv, "symbols"), host)
    else Undefined
  }

  /** The properties written after `...currentOptions`. */
  function Overrides(argv: map<string, JsValue>, host: Host): (m: map<string, JsValue>)
    requires WellTypedArgv(argv)
    ensures m.Keys == OverrideKeys
  {
    map key | key in OverrideKeys :: OverrideValue(argv, host, key)
  }

  /** `prepareParams`: the base options are parsed before the input series. */
  function PrepareParams(argv: map<string, JsValue>, host: Host): (r: Result<Params, Thrown>)
    requires WellTypedArgv(argv)
    ensures r.Failure? <==>
      || (Truthy(Arg(argv, "options")) && host.jsonParse(Arg(argv, "options").s).None?)
      || host.jsonParse(Arg(argv, "input").s).None?
    ensures r.Success? ==> Some(r.value.input) == host.jsonParse(Arg(argv, "input").s)
    ensures r.Success? ==> r.value.options.Keys == OwnEnumerable(BaseOptions(argv, host).value).Keys + OverrideKeys
  {
    match BaseOptions(argv, host)
    case Failure(e) => Failure(e)
    case Success(currentOptions) =>
      match host.jsonParse(Arg(argv, "input").s)
      case None => Failure(SyntaxError)
      case Some(input) =>
        var overrides := Overrides(argv, host);
        Success(Params(input, OwnEnumerable(currentOptions) + overrides))
  }
}
