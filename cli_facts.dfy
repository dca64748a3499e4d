/**
 * What the options merge of `prepareParams` guarantees: which keys come
 * from the base blob, which from the command line, and that an absent
 * flag overwrites the base value with undefined.
 */
module CliFacts {
  import opened Wrappers
  import opened Js
  import opened Validators
  import opened ValidatorFacts
  import opened Cli

  /** The own enumerable properties of the parsed base options (empty when `options` is absent or empty). */
  function BaseProps(argv: map<string, JsValue>, host: Host): map<string, JsValue>
    requires WellTypedArgv(argv)
    requires BaseOptions(argv, host).Success?
  {
    OwnEnumerable(BaseOptions(argv, host).value)
  }

  /** A key outside the override set keeps its base value, and no such key appears from anywhere else. */
  lemma BaseKeysPreserved(argv: map<string, JsValue>, host: Host)
    requires WellTypedArgv(argv)
    ensures PrepareParams(argv, host).Success? ==>
      var opts := PrepareParams(argv, host).value.options;
      forall k :: k !in OverrideKeys ==>
        (k in opts <==> k in BaseProps(argv, host)) && (k in opts ==> opts[k] == BaseProps(argv, host)[k])
  {
  }

  /** Every override key is present, whatever the base holds, with the value computed from the flags. */
  lemma OverridesWin(argv: map<string, JsValue>, host: Host)
    requires WellTypedArgv(argv)
    ensures PrepareParams(argv, host).Success? ==>
      var opts := PrepareParams(argv, host).value.options;
      forall k :: k in OverrideKeys ==> k in opts && opts[k] == OverrideValue(argv, host, k)
  {
  }

  /** The display flags reach the options exactly as given, without validation. */
  lemma VerbatimFlagsCopied(argv: map<string, JsValue>, host: Host)
    requires WellTypedArgv(argv)
    ensures PrepareParams(argv, host).Success? ==>
      var opts := PrepareParams(argv, host).value.options;
      forall k :: k in VerbatimKeys ==> k in opts && opts[k] == Arg(argv, k)
  {
    OverridesWin(argv, host);
  }

  /** Each validated option holds its validator's verdict on the raw flag. */
  lemma ValidatedFieldsMerged(argv: map<string, JsValue>, host: Host)
    requires WellTypedArgv(argv)
    ensures PrepareParams(argv, host).Success? ==>
      var opts := PrepareParams(argv, host).value.options;
      && opts["color"] == ValidateColors(Arg(argv, "color"))
      && opts["axisCenter"] == ValidateAxisCenter(Arg(argv, "axisCenter"))
      && opts["yRange"] == ValidateYRange(Arg(argv, "yRange"))
      && opts["thresholds"] == ValidateThresholds(Arg(argv, "thresholds"))
      && opts["legend"] == ValidateLegend(Arg(argv, "legend"), host)
      && opts["formatter"] == ValidateFormatter(Arg(argv, "formatter"), host)
      && opts["lineFormatter"] == ValidateLineFormatter(Arg(argv, "lineFormatter"), host)
      && opts["symbols"] == ValidateSymbols(Arg(argv, "symbols"), host)
  {
    OverridesWin(argv, host);
    KeySetsDisjoint();
    assert {"color", "axisCenter", "yRange", "thresholds", "legend", "formatter", "lineFormatter", "symbols"} <= OverrideKeys;
    ColorGuardRedundant(Arg(argv, "color"));
  }

  /**
   * A flag that is undefined (in particular one left off the command line)
   * does not fall through to the base options: the spread assigns it, so the
   * merged value is undefined even when the base blob sets that key.
   */
  lemma AbsentFlagErasesBase(argv: map<string, JsValue>, host: Host, k: string)
    requires WellTypedArgv(argv)
    requires k in OverrideKeys && Arg(argv, k) == Undefined
    ensures PrepareParams(argv, host).Success? ==>
      k in PrepareParams(argv, host).value.options && PrepareParams(argv, host).value.options[k] == Undefined
  {
    OverridesWin(argv, host);
    if k !in VerbatimKeys {
      assert k in ValidatedKeys;
      if k == "color" {
      } else if k == "axisCenter" {
        assert ValidateAxisCenter(Undefined) == Undefined;
      } else if k == "yRange" {
        assert ValidateYRange(Undefined) == Undefined;
      } else if k == "thresholds" {
        assert ValidateThresholds(Undefined) == Undefined;
      } else if k == "legend" {
        assert ValidateLegend(Undefined, host) == Undefined;
      } else if k == "formatter" {
        assert ValidateFormatter(Undefined, host) == Undefined;
      } else if k == "lineFormatter" {
        assert ValidateLineFormatter(Undefined, host) == Undefined;
      } else {
        assert ValidateSymbols(Undefined, host) == Undefined;
      }
    }
  }

  /** With no options blob, or an empty one, the merged keys are exactly the override keys. */
  lemma NoBaseOptions(argv: map<string, JsValue>, host: Host)
    requires WellTypedArgv(argv)
    requires !Truthy(Arg(argv, "options"))
    ensures PrepareParams(argv, host).Success? ==> PrepareParams(argv, host).value.options.Keys == OverrideKeys
  {
    assert BaseOptions(argv, host) == Success(Obj(map[]));
    assert OwnEnumerable(Obj(map[])).Keys == {};
  }
}
