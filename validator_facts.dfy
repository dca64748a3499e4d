/**
 * What the validators promise their callers, stated against independent
 * descriptions of the accepted shapes, and the cases the tests in
 * src/tests/validators.test.ts exercise.
 */
module ValidatorFacts {
  import opened Wrappers
  import opened Js
  import opened Validators

  // ------------------------------------------------------------ axis centre

  /** On arrays, the axis-centre and y-range validators accept and return the same values. */
  lemma AxisCenterAgreesWithYRange(v: JsValue)
    requires v.Arr?
    ensures ValidateAxisCenter(v) == ValidateYRange(v)
  {
  }

  /** The axis-centre and y-range cases of src/tests/validators.test.ts, and a reversed range that is not swapped. */
  lemma PairExamples()
    ensures ValidateAxisCenter(Arr([Num(1.0), Num(2.0)])) == Arr([Num(1.0), Num(2.0)])
    ensures ValidateAxisCenter(Arr([Num(1.0)])) == Undefined
    ensures ValidateAxisCenter(Arr([Str("a"), Str("b")])) == Undefined
    ensures ValidateAxisCenter(Undefined) == Undefined
    ensures ValidateYRange(Arr([Num(10.0), Num(20.0)])) == Arr([Num(10.0), Num(20.0)])
    ensures ValidateYRange(Arr([Num(20.0), Num(10.0)])) == Arr([Num(20.0), Num(10.0)])
    ensures ValidateYRange(Arr([Num(10.0)])) == Undefined
    ensures ValidateYRange(Arr([Str("a"), Str("b")])) == Undefined
  {
  }

  // ---------------------------------------------------------------- colours

  /**
   * An array of colours is rejected exactly when it holds no palette name;
   * otherwise the result holds precisely its palette names, each as often as
   * in the input, in input order.
   */
  lemma ColorsOfArray(es: seq<JsValue>)
    ensures ValidateColors(Arr(es)) == Undefined <==> forall i :: 0 <= i < |es| ==> !IsAnsiColor(es[i])
    ensures ValidateColors(Arr(es)) != Undefined ==>
      var r := ValidateColors(Arr(es)).elems;
      && (forall v :: v in r ==> IsAnsiColor(v))
      && (forall v :: IsAnsiColor(v) ==> multiset(r)[v] == multiset(es)[v])
      && IsSubsequence(r, es)
  {
    var r := FilterAnsi(es);
    FilterAnsiMembers(es);
    FilterAnsiOrder(es);
    forall v | IsAnsiColor(v)
      ensures multiset(r)[v] == multiset(es)[v]
    {
      FilterAnsiCounts(es, v);
    }
    if r == [] {
      forall i | 0 <= i < |es|
        ensures !IsAnsiColor(es[i])
      {
        assert es[i] in multiset(es);
      }
    } else {
      assert r[0] in multiset(r);
      FilterAnsiCounts(es, r[0]);
      assert r[0] in multiset(es);
      var i :| 0 <= i < |es| && es[i] == r[0];
      assert IsAnsiColor(es[i]);
    }
  }

  /** The `color ? validateColors(color) : undefined` guard in the merge changes nothing. */
  lemma ColorGuardRedundant(c: JsValue)
    ensures (if Truthy(c) then ValidateColors(c) else Undefined) == ValidateColors(c)
  {
  }

  /** The colour cases of src/tests/validators.test.ts. */
  lemma ColorsExamples()
    ensures ValidateColors(Arr([Str("ansiRed"), Str("ansiGreen"), Str("ansiBlue")]))
         == Arr([Str("ansiRed"), Str("ansiGreen"), Str("ansiBlue")])
    ensures ValidateColors(Arr([Str("red"), Str("green")])) == Undefined
    ensures ValidateColors(Str("ansiRed")) == Str("ansiRed")
    ensures ValidateColors(Arr([Str("ansiRed"), Num(1.0), Str("ansiRed")])) == Arr([Str("ansiRed"), Str("ansiRed")])
  {
  }

  // ------------------------------------------------------------- thresholds

  lemma NamedKeys()
    ensures IsNamedKey("x") && IsNamedKey("y") && IsNamedKey("color")
    ensures IsNamedKey("position") && IsNamedKey("series")
    ensures IsNamedKey("axis") && IsNamedKey("chart") && IsNamedKey("empty")
    ensures IsNamedKey("background") && IsNamedKey("border")
  {
    assert !IsDigits("x") by { assert "x"[0] == 'x'; }
    assert !IsDigits("y") by { assert "y"[0] == 'y'; }
    assert !IsDigits("color") by { assert "color"[0] == 'c'; }
    assert !IsDigits("position") by { assert "position"[0] == 'p'; }
    assert !IsDigits("series") by { assert "series"[0] == 's'; }
    assert !IsDigits("axis") by { assert "axis"[0] == 'a'; }
    assert !IsDigits("chart") by { assert "chart"[0] == 'c'; }
    assert !IsDigits("empty") by { assert "empty"[0] == 'e'; }
    assert !IsDigits("background") by { assert "background"[0] == 'b'; }
    assert !IsDigits("border") by { assert "border"[0] == 'b'; }
  }

  /** `v` when it is a number, undefined otherwise. */
  function NumberOrUndefined(v: JsValue): JsValue {
    if v.Num? then v else Undefined
  }

  /** `v` when it is a string, undefined otherwise. */
  function StringOrUndefined(v: JsValue): JsValue {
    if v.Str? then v else Undefined
  }

  /** A non-object item is dropped: arrays have no `x` or `y`, primitives and null fail the `typeof` test. */
  lemma ThresholdOfNonObject(item: JsValue)
    requires !item.Obj?
    ensures ThresholdOf(item) == None
  {
    if item.Arr? {
      NamedKeys();
      GetNamedKey(item, "x");
      GetNamedKey(item, "y");
    }
  }

  /**
   * A raw threshold is kept exactly when it is a plain object with a numeric
   * `x` or a numeric `y`; each of the three fields is then checked on its
   * own, a wrongly typed field becoming undefined without dropping the item.
   */
  lemma ThresholdOfFields(item: JsValue)
    ensures ThresholdOf(item) ==
      if item.Obj? && (Lookup(item.fields, "x").Num? || Lookup(item.fields, "y").Num?) then
        Some(Obj(map[
          "x" := NumberOrUndefined(Lookup(item.fields, "x")),
          "y" := NumberOrUndefined(Lookup(item.fields, "y")),
          "color" := StringOrUndefined(Lookup(item.fields, "color"))]))
      else None
  {
    if item.Obj? {
      assert TypeOf(item) == "object" && item != Null;
      assert Get(item, "x") == Some(Lookup(item.fields, "x"));
      assert Get(item, "y") == Some(Lookup(item.fields, "y"));
      assert Get(item, "color") == Some(Lookup(item.fields, "color"));
    } else {
      ThresholdOfNonObject(item);
    }
  }

  /** A threshold with numeric `x` and `y` and a string colour survives unchanged. */
  lemma ValidThresholdKept(x: real, y: real, color: string)
    ensures var item := Obj(map["x" := Num(x), "y" := Num(y), "color" := Str(color)]);
      ThresholdOf(item) == Some(item)
  {
    var item := Obj(map["x" := Num(x), "y" := Num(y), "color" := Str(color)]);
    ThresholdOfFields(item);
    assert ThresholdOf(item).value.fields == item.fields;
  }

  /** Thresholds are validated item by item: the result of a concatenation is the concatenation of results. */
  lemma {:induction false} ThresholdListConcat(a: seq<JsValue>, b: seq<JsValue>)
    ensures ThresholdList(a + b) == ThresholdList(a) + ThresholdList(b)
  {
    if a == [] {
      assert a + b == b;
    } else {
      assert (a + b)[0] == a[0];
      assert (a + b)[1..] == a[1..] + b;
      ThresholdListConcat(a[1..], b);
    }
  }

  /** A single item contributes its validated form, or nothing. */
  lemma ThresholdListSingle(item: JsValue)
    ensures ThresholdList([item]) == match ThresholdOf(item) case Some(t) => [t] case None => []
  {
    assert [item][1..] == [];
  }

  /** The threshold cases of src/tests/validators.test.ts. */
  lemma ThresholdsExamples()
    ensures var valid := Obj(map["x" := Num(10.0), "y" := Num(20.0), "color" := Str("ansiRed")]);
      var invalid := Obj(map["x" := Str("a"), "y" := Str("b")]);
      && ValidateThresholds(Arr([valid])) == Arr([valid])
      && ValidateThresholds(Arr([valid, invalid])) == Arr([valid])
  {
    var valid := Obj(map["x" := Num(10.0), "y" := Num(20.0), "color" := Str("ansiRed")]);
    var invalid := Obj(map["x" := Str("a"), "y" := Str("b")]);
    ValidThresholdKept(10.0, 20.0, "ansiRed");
    ThresholdOfFields(invalid);
    ThresholdListConcat([valid], [invalid]);
    assert [valid, invalid] == [valid] + [invalid];
  }

  // ----------------------------------------------------------------- legend

  /** The legend shape, read on the parsed value itself. */
  predicate AcceptedLegend(p: JsValue) {
    && p.Obj?
    && (|| (Lookup(p.fields, "position").Str? && Lookup(p.fields, "position").s in LegendPositions)
        || Lookup(p.fields, "series").Arr?)
  }

  /**
   * A legend is accepted exactly when the option is a non-empty string that
   * parses to an object whose position is one of the four names or whose
   * series is an array; it is then returned as parsed, extra keys included.
   */
  lemma LegendAccepted(legend: JsValue, host: Host)
    requires legend.Undefined? || legend.Str?
    ensures ValidateLegend(legend, host) != Undefined <==>
      Truthy(legend) && host.jsonParse(legend.s).Some? && AcceptedLegend(host.jsonParse(legend.s).value)
    ensures ValidateLegend(legend, host) != Undefined ==> ValidateLegend(legend, host) == host.jsonParse(legend.s).value
  {
    if Truthy(legend) && host.jsonParse(legend.s).Some? {
      var p := host.jsonParse(legend.s).value;
      NamedKeys();
      GetNamedKey(p, "position");
      GetNamedKey(p, "series");
    }
  }

  /** The legend cases of src/tests/validators.test.ts. */
  lemma LegendExamples(host: Host)
    requires host.jsonParse("{\"position\": \"middle\"}") == Some(Obj(map["position" := Str("middle")]))
    requires host.jsonParse("{\"position\":\"top\",\"series\":[\"series1\"]}")
          == Some(Obj(map["position" := Str("top"), "series" := Arr([Str("series1")])]))
    ensures ValidateLegend(Str("{\"position\": \"middle\"}"), host) == Undefined
    ensures ValidateLegend(Str("{\"position\":\"top\",\"series\":[\"series1\"]}"), host)
         == Obj(map["position" := Str("top"), "series" := Arr([Str("series1")])])
  {
    LegendAccepted(Str("{\"position\": \"middle\"}"), host);
    LegendAccepted(Str("{\"position\":\"top\",\"series\":[\"series1\"]}"), host);
  }

  // ---------------------------------------------------------------- symbols

  /** The symbols shape, read on the parsed value itself. */
  predicate AcceptedSymbols(p: JsValue) {
    && p.Obj?
    && (|| Truthy(Lookup(p.fields, "axis"))
        || Truthy(Lookup(p.fields, "chart"))
        || Truthy(Lookup(p.fields, "empty"))
        || Truthy(Lookup(p.fields, "background"))
        || Truthy(Lookup(p.fields, "border")))
  }

  /**
   * A symbol table is accepted exactly when the option is a non-empty string
   * that parses to an object with at least one truthy role; it is then
   * returned as parsed.
   */
  lemma SymbolsAccepted(symbols: JsValue, host: Host)
    requires symbols.Undefined? || symbols.Str?
    ensures ValidateSymbols(symbols, host) != Undefined <==>
      Truthy(symbols) && host.jsonParse(symbols.s).Some? && AcceptedSymbols(host.jsonParse(symbols.s).value)
    ensures ValidateSymbols(symbols, host) != Undefined ==> ValidateSymbols(symbols, host) == host.jsonParse(symbols.s).value
  {
    if Truthy(symbols) && host.jsonParse(symbols.s).Some? {
      var p := host.jsonParse(symbols.s).value;
      NamedKeys();
      GetNamedKey(p, "axis");
      GetNamedKey(p, "chart");
      GetNamedKey(p, "empty");
      GetNamedKey(p, "background");
      GetNamedKey(p, "border");
    }
  }

  /** The symbols cases of src/tests/validators.test.ts. */
  lemma SymbolsExamples(host: Host)
    requires host.jsonParse("{\"invalidKey\": \"-\"}") == Some(Obj(map["invalidKey" := Str("-")]))
    requires host.jsonParse("{\"axis\":{\"x\":\"-\",\"y\":\"|\"},\"empty\":\" \"}")
          == Some(Obj(map["axis" := Obj(map["x" := Str("-"), "y" := Str("|")]), "empty" := Str(" ")]))
    ensures ValidateSymbols(Str("{\"invalidKey\": \"-\"}"), host) == Undefined
    ensures ValidateSymbols(Str("{\"axis\":{\"x\":\"-\",\"y\":\"|\"},\"empty\":\" \"}"), host)
         == Obj(map["axis" := Obj(map["x" := Str("-"), "y" := Str("|")]), "empty" := Str(" ")])
  {
    SymbolsAccepted(Str("{\"invalidKey\": \"-\"}"), host);
    SymbolsAccepted(Str("{\"axis\":{\"x\":\"-\",\"y\":\"|\"},\"empty\":\" \"}"), host);
  }

  /** A role that is present but falsy does not count, and a parsed `null` is rejected. */
  lemma SymbolsFalsyExamples(host: Host)
    requires host.jsonParse("{\"axis\":\"\"}") == Some(Obj(map["axis" := Str("")]))
    requires host.jsonParse("null") == Some(Null)
    ensures ValidateSymbols(Str("{\"axis\":\"\"}"), host) == Undefined
    ensures ValidateSymbols(Str("null"), host) == Undefined
  {
    SymbolsAccepted(Str("{\"axis\":\"\"}"), host);
  }

  // ------------------------------------------------------------- formatters

  /**
   * An empty or absent formatter gives undefined without consulting the
   * compiler; a non-empty one gives a two-parameter function exactly when
   * its wrapped text compiles.
   */
  lemma FormatterCompiled(formatter: JsValue, host: Host)
    requires formatter.Undefined? || formatter.Str?
    ensures !Truthy(formatter) ==> ValidateFormatter(formatter, host) == Undefined
    ensures Truthy(formatter) ==>
      (ValidateFormatter(formatter, host).Fn? <==> host.compiles(["value", "helpers"], FormatterBody(formatter.s)))
  {
  }

  /** As FormatterCompiled, for the one-parameter line formatter. */
  lemma LineFormatterCompiled(lineFormatter: JsValue, host: Host)
    requires lineFormatter.Undefined? || lineFormatter.Str?
    ensures !Truthy(lineFormatter) ==> ValidateLineFormatter(lineFormatter, host) == Undefined
    ensures Truthy(lineFormatter) ==>
      (ValidateLineFormatter(lineFormatter, host).Fn? <==> host.compiles(["args"], LineFormatterBody(lineFormatter.s)))
  {
  }

  /** The wrapping loses nothing: the compiled body determines the formatter's source text. */
  lemma FormatterBodyInjective(a: string, b: string)
    ensures FormatterBody(a) == FormatterBody(b) ==> a == b
  {
    if FormatterBody(a) == FormatterBody(b) {
      assert |a| == |b|;
      assert a == FormatterBody(a)[8..8 + |a|];
      assert b == FormatterBody(b)[8..8 + |b|];
    }
  }

  /** The wrapping loses nothing: the compiled body determines the line formatter's source text. */
  lemma LineFormatterBodyInjective(a: string, b: string)
    ensures LineFormatterBody(a) == LineFormatterBody(b) ==> a == b
  {
    if LineFormatterBody(a) == LineFormatterBody(b) {
      assert |a| == |b|;
      assert a == LineFormatterBody(a)[8..8 + |a|];
      assert b == LineFormatterBody(b)[8..8 + |b|];
    }
  }
}
