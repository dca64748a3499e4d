/**
 * The field validators of the chart CLI. Each takes one raw option value
 * and returns either a well-formed configuration value or `undefined`;
 * none of them lets an exception escape.
 */
module Validators {
  import opened Wrappers
  import opened Js

  // ---------------------------------------------------------------- palette

  /** The eight terminal colour names a colour option may use. */
  const AnsiColors: set<string> :=
    {"ansiRed", "ansiGreen", "ansiBlack", "ansiYellow", "ansiBlue", "ansiMagenta", "ansiCyan", "ansiWhite"}

  /** `ANSI_COLORS.has(v)`: only a string can be a member. */
  predicate IsAnsiColor(v: JsValue) {
    v.Str? && v.s in AnsiColors
  }

  /** `a` is `b` with some elements deleted, the rest kept in order. */
  ghost predicate IsSubsequence<T>(a: seq<T>, b: seq<T>)
    decreases |b|
  {
    a == [] || (b != [] && ((a[0] == b[0] && IsSubsequence(a[1..], b[1..])) || IsSubsequence(a, b[1..])))
  }

  /** `colors.filter(isAnsiColor)`. */
  function FilterAnsi(vs: seq<JsValue>): (r: seq<JsValue>)
    ensures |r| <= |vs|
  {
    if vs == [] then []
    else (if IsAnsiColor(vs[0]) then [vs[0]] else []) + FilterAnsi(vs[1..])
  }

  /** Only palette names survive the filter. */
  lemma {:induction false} FilterAnsiMembers(vs: seq<JsValue>)
    ensures forall v :: v in FilterAnsi(vs) ==> IsAnsiColor(v)
  {
    if vs != [] {
      FilterAnsiMembers(vs[1..]);
    }
  }

  /** Every palette name survives the filter as often as it occurs, duplicates included. */
  lemma {:induction false} FilterAnsiCounts(vs: seq<JsValue>, v: JsValue)
    requires IsAnsiColor(v)
    ensures multiset(FilterAnsi(vs))[v] == multiset(vs)[v]
  {
    if vs != [] {
      assert vs == [vs[0]] + vs[1..];
      FilterAnsiCounts(vs[1..], v);
    }
  }

  /** The survivors keep their relative order. */
  lemma {:induction false} FilterAnsiOrder(vs: seq<JsValue>)
    ensures IsSubsequence(FilterAnsi(vs), vs)
  {
    if vs != [] {
      FilterAnsiOrder(vs[1..]);
      var rest := FilterAnsi(vs[1..]);
      if IsAnsiColor(vs[0]) {
        assert FilterAnsi(vs)[1..] == rest;
      } else {
        assert FilterAnsi(vs) == rest;
      }
    }
  }

  // ------------------------------------------------------------- validators

  /** `validateAxisCenter`: the parameter is an array or undefined. */
  function ValidateAxisCenter(axisCenter: JsValue): (r: JsValue)
    requires axisCenter.Undefined? || axisCenter.Arr?
    ensures r != Undefined <==>
      (axisCenter.Arr? && |axisCenter.elems| == 2
       && TypeOf(axisCenter.elems[0]) == "number" && TypeOf(axisCenter.elems[1]) == "number")
    ensures r != Undefined ==> r == Arr([axisCenter.elems[0], axisCenter.elems[1]])
  {
    if !Truthy(axisCenter) || |axisCenter.elems| != 2 then Undefined
    else
      var x, y := axisCenter.elems[0], axisCenter.elems[1];
      if TypeOf(x) == "number" && TypeOf(y) == "number" then Arr([x, y]) else Undefined
  }

  /** `validateColors`. */
  function ValidateColors(colors: JsValue): (r: JsValue)
    ensures r != Arr([])
    ensures r == Undefined || r.Arr? || r.Str?
    ensures colors.Arr? ==> (r.Arr? || r.Undefined?)
    ensures !colors.Arr? ==> (r != Undefined <==> IsAnsiColor(colors)) && (r != Undefined ==> r == colors)
  {
    if colors.Arr? then
      var filtered := FilterAnsi(colors.elems);
      if |filtered| > 0 then Arr(filtered) else Undefined
    else if TypeOf(colors) == "string" && IsAnsiColor(colors) then colors
    else Undefined
  }

  /** `validateYRange`. */
  function ValidateYRange(yRange: JsValue): (r: JsValue)
    ensures r != Undefined <==>
      (yRange.Arr? && |yRange.elems| == 2 && yRange.elems[0].Num? && yRange.elems[1].Num?)
    ensures r != Undefined ==> r == yRange
  {
    if yRange.Arr? && |yRange.elems| == 2 then
      var min, max := yRange.elems[0], yRange.elems[1];
      if TypeOf(min) == "number" && TypeOf(max) == "number" then
        assert yRange.elems == [min, max];
        Arr([min, max])
      else Undefined
    else Undefined
  }

  /** `v` when `typeof v` is `t`, undefined otherwise. */
  function KeepIfType(v: JsValue, t: string): JsValue {
    if TypeOf(v) == t then v else Undefined
  }

  /** The shape every element of a validated threshold list has. */
  predicate IsThreshold(t: JsValue) {
    && t.Obj?
    && t.fields.Keys == {"x", "y", "color"}
    && (t.fields["x"].Num? || t.fields["x"].Undefined?)
    && (t.fields["y"].Num? || t.fields["y"].Undefined?)
    && (t.fields["color"].Str? || t.fields["color"].Undefined?)
    && (t.fields["x"].Num? || t.fields["y"].Num?)
  }

  /** The callback that `validateThresholds` maps over its input; None stands for `undefined`. */
  function ThresholdOf(item: JsValue): (r: Option<JsValue>)
    ensures r.Some? ==> IsThreshold(r.value)
  {
    if TypeOf(item) == "object" && item != Null then
      var x := KeepIfType(Get(item, "x").value, "number");
      var y := KeepIfType(Get(item, "y").value, "number");
      var color := KeepIfType(Get(item, "color").value, "string");
      if x != Undefined || y != Undefined then Some(Obj(map["x" := x, "y" := y, "color" := color]))
      else None
    else None
  }

  /** What one item contributes to the validated list: its threshold, or nothing. */
  function Kept(item: JsValue): (r: seq<JsValue>)
    ensures |r| <= 1
    ensures forall t :: t in r ==> IsThreshold(t)
  {
    match ThresholdOf(item)
    case Some(t) => [t]
    case None => []
  }

  /** `items.map(ThresholdOf).filter(t => t !== undefined)`. */
  function ThresholdList(items: seq<JsValue>): (r: seq<JsValue>)
    ensures |r| <= |items|
    ensures forall t :: t in r ==> IsThreshold(t)
  {
    if items == [] then []
    else Kept(items[0]) + ThresholdList(items[1..])
  }

  /** `validateThresholds`. */
  function ValidateThresholds(thresholds: JsValue): (r: JsValue)
    ensures r.Undefined? <==> !thresholds.Arr?
    ensures thresholds.Arr? ==> r == Arr(ThresholdList(thresholds.elems))
    ensures r.Arr? ==> |r.elems| <= |thresholds.elems| && forall t :: t in r.elems ==> IsThreshold(t)
  {
    if !thresholds.Arr? then Undefined
    else Arr(ThresholdList(thresholds.elems))
  }

  /** The legend positions the renderer understands. */
  const LegendPositions: seq<string> := ["left", "right", "top", "bottom"]

  /** The legend check applied to a successfully parsed value that is not null. */
  predicate LegendShape(parsed: JsValue)
    requires !parsed.Undefined? && !parsed.Null?
  {
    var position := Get(parsed, "position").value;
    (TypeOf(position) == "string" && position.s in LegendPositions) || Get(parsed, "series").value.Arr?
  }

  /** `validateLegend`: the parameter is a string or undefined. */
  function ValidateLegend(legend: JsValue, host: Host): (r: JsValue)
    requires legend.Undefined? || legend.Str?
    ensures r != Undefined ==> Truthy(legend) && host.jsonParse(legend.s) == Some(r)
  {
    if !Truthy(legend) then Undefined
    else
      match host.jsonParse(legend.s)
      case None => Undefined                    // SyntaxError, caught
      case Some(parsed) =>
        if parsed.Undefined? || parsed.Null? then Undefined   // TypeError reading `.position`, caught
        else if LegendShape(parsed) then parsed
        else Undefined
  }

  /** The text `new Function` is given for a formatter source `f`. */
  function FormatterBody(f: string): string {
    "return (" + f + ")(value, helpers);"
  }

  /** The text `new Function` is given for a line-formatter source `f`. */
  function LineFormatterBody(f: string): string {
    "return (" + f + ")(args);"
  }

  /** `validateFormatter`: the parameter is a string or undefined. */
  function ValidateFormatter(formatter: JsValue, host: Host): (r: JsValue)
    requires formatter.Undefined? || formatter.Str?
    ensures r == Undefined || r.Fn?
    ensures r.Fn? ==> Truthy(formatter) && r.params == ["value", "helpers"] && host.compiles(r.params, r.body)
    ensures r.Fn? ==> r.body == FormatterBody(formatter.s)
  {
    if !Truthy(formatter) then Undefined
    else
      var body := FormatterBody(formatter.s);
      if host.compiles(["value", "helpers"], body) then Fn(["value", "helpers"], body) else Undefined
  }

  /** `validateLineFormatter`: the parameter is a string or undefined. */
  function ValidateLineFormatter(lineFormatter: JsValue, host: Host): (r: JsValue)
    requires lineFormatter.Undefined? || lineFormatter.Str?
    ensures r == Undefined || r.Fn?
    ensures r.Fn? ==> Truthy(lineFormatter) && r.params == ["args"] && host.compiles(r.params, r.body)
    ensures r.Fn? ==> r.body == LineFormatterBody(lineFormatter.s)
  {
    if !Truthy(lineFormatter) then Undefined
    else
      var body := LineFormatterBody(lineFormatter.s);
      if host.compiles(["args"], body) then Fn(["args"], body) else Undefined
  }

  /** The symbol roles of which at least one must be set. */
  predicate SymbolsShape(parsed: JsValue)
    requires !parsed.Undefined? && !parsed.Null?
  {
    || Truthy(Get(parsed, "axis").value)
    || Truthy(Get(parsed, "chart").value)
    || Truthy(Get(parsed, "empty").value)
    || Truthy(Get(parsed, "background").value)
    || Truthy(Get(parsed, "border").value)
  }

  /** `validateSymbols`: the parameter is a string or undefined. */
  function ValidateSymbols(symbols: JsValue, host: Host): (r: JsValue)
    requires symbols.Undefined? || symbols.Str?
    ensures r != Undefined ==> Truthy(symbols) && host.jsonParse(symbols.s) == Some(r) && TypeOf(r) == "object"
  {
    if !Truthy(symbols) then Undefined
    else
      match host.jsonParse(symbols.s)
      case None => Undefined                    // SyntaxError, caught
      case Some(parsed) =>
        if TypeOf(parsed) != "object" then Undefined
        else if parsed.Null? then Undefined     // TypeError reading `.axis`, caught
        else if SymbolsShape(parsed) then parsed
        else Undefined
  }
}
