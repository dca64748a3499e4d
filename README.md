# simple-ascii-chart CLI: input validation and options merge

A model of the part of the `simple-ascii-chart` command-line front end that
decides things: the field validators of `src/validators.ts` and the options
merge of `prepareParams` in `src/cli.ts`. The CLI takes loosely typed values,
such as strings, arrays, JSON text and code text. Each validator turns one raw
value into a well-formed configuration value, or into `undefined`.
`prepareParams` parses the base options blob and the data series. It then
builds the options object `{...base, width, height, ..., symbols}`.

Files:

- `wrappers.dfy`: `Option` and `Result`.
- `js.dfy`: the JavaScript values the code observes (`JsValue`). It also
  holds `typeof`, truthiness, property reads (`Get`, which is None when JS
  would throw a TypeError) and the own enumerable properties that object
  spread copies (`OwnEnumerable`). `Host` bundles the two engine built-ins
  the code calls but whose algorithms are not modelled. One is `JSON.parse`,
  which gives None on a SyntaxError. The other says whether `new Function`
  accepts a text.
- `validators.dfy`: the palette and the eight validators.
- `validator_facts.dfy`: what the validators guarantee. Each guarantee is
  stated against a description of the accepted shape that does not depend
  on how the validator computes it. The file also holds the cases the
  tests in `src/tests/validators.test.ts` exercise.
- `cli.dfy`: `prepareParams` and the base-options parse.
- `cli_facts.dfy`: what the merge guarantees about base keys, override keys
  and absent flags.

Two behaviours of the code are worth stating on their own:

- The colour palette is the eight `ansi*` names of `src/validators.ts:15-24`.
  `src/tests/validators.test.ts:35` rejects `['red','green']`.
- A flag left off the command line erases the base value for its key
  (`AbsentFlagErasesBase`). The merge spreads the base first and then
  assigns every override key, even when its value is `undefined`.

Helpers that carry no contract of their own model these source elements:

- `Validators.AnsiColors` and `Validators.IsAnsiColor` model `ANSI_COLORS`
  and `isAnsiColor` (`src/validators.ts:15-27`).
- `Cli.Arg` models the parameter destructuring of `prepareParams`
  (`src/cli.ts:134-156`). A flag that was not given reads as `undefined`.
- `Cli.OverrideValue` models the value written for each key after the
  spread (`src/cli.ts:185-203`). Its behaviour is stated by
  `CliFacts.OverridesWin`, `CliFacts.VerbatimFlagsCopied` and
  `CliFacts.ValidatedFieldsMerged`.
- `Js.OwnEnumerable` models what `...currentOptions` copies
  (`src/cli.ts:184`): an object's own fields, the index properties of an
  array or a string, and nothing for other values.
- `Cli.KeySetsDisjoint` is a proof helper about the two key sets.

## Model

| member | source | states |
|---|---|---|
| `Validators.FilterAnsi` | src/validators.ts:41 | the filtered colour list is never longer than the input |
| `Validators.FilterAnsiMembers` | src/validators.ts:41 | every element kept by the colour filter is one of the eight palette names |
| `Validators.FilterAnsiCounts` | src/validators.ts:41 | each palette name occurs in the filtered list exactly as often as in the input, so duplicates are kept |
| `Validators.FilterAnsiOrder` | src/validators.ts:41 | the filtered list is an order-preserving subsequence of the input |
| `Validators.ValidateAxisCenter` | src/validators.ts:30-34 | the result is defined exactly when the input is a two-element array of two numbers, and it is then `[x, y]` in input order; absent input, other lengths and non-numbers give undefined |
| `Validators.ValidateColors` | src/validators.ts:37-47 | never an empty array; an array input gives an array or undefined; any other input is returned unchanged exactly when it is a palette string, and gives undefined otherwise |
| `Validators.ValidateYRange` | src/validators.ts:51-62 | defined exactly for a two-element array of numbers, which is then returned with the same elements in the same order (no swap, no min ≤ max check) |
| `Validators.ThresholdOf` | src/validators.ts:70-80 | a kept item always has exactly the keys `x`, `y`, `color`; `x` and `y` are each a number or undefined, and at least one is a number; `color` is a string or undefined |
| `Validators.Kept` | src/validators.ts:70-81 | one raw item contributes at most one element to the validated list, and that element has the threshold shape |
| `Validators.ThresholdList` | src/validators.ts:69-81 | the result is no longer than the input, and every element has the threshold shape |
| `Validators.ValidateThresholds` | src/validators.ts:64-82 | undefined exactly for a non-array; for an array, the list `ThresholdList` gives for its items, possibly empty, no longer than the input, whose elements all have the threshold shape |
| `Validators.ValidateLegend` | src/validators.ts:85-103 | a defined result means the option was a non-empty string and the result is exactly what JSON.parse returned for it |
| `Validators.ValidateFormatter` | src/validators.ts:106-117 | the result is undefined or a function; a function means the option was non-empty, its parameters are `value, helpers`, its body is the option's text wrapped as `return (<text>)(value, helpers);`, and the engine accepted that body |
| `Validators.ValidateLineFormatter` | src/validators.ts:120-134 | the result is undefined or a function; a function means the option was non-empty, its one parameter is `args`, its body is the option's text wrapped as `return (<text>)(args);`, and the engine accepted that body |
| `Validators.ValidateSymbols` | src/validators.ts:137-159 | a defined result means the option was a non-empty string, the result is exactly what JSON.parse returned, and its `typeof` is `object` |
| `ValidatorFacts.AxisCenterAgreesWithYRange` | src/validators.ts:30-62 | on every array, the axis-centre validator and the y-range validator give the same result |
| `ValidatorFacts.PairExamples` | src/tests/validators.test.ts:15-50 | `[1,2]` and `[10,20]` are accepted; `[1]`, `[10]` and `['a','b']` give undefined; `[20,10]` is returned unswapped |
| `ValidatorFacts.ColorsOfArray` | src/validators.ts:40-42 | an array is rejected if and only if it holds no palette name; otherwise the result holds exactly its palette names, with the same counts and in input order |
| `ValidatorFacts.ColorGuardRedundant` | src/cli.ts:195 | the merge's `color ? validateColors(color) : undefined` equals `validateColors(color)` for every value |
| `ValidatorFacts.ColorsExamples` | src/tests/validators.test.ts:26-40 | three `ansi*` names pass in order; `['red','green']` gives undefined; `'ansiRed'` passes unchanged; numbers are dropped and duplicates kept |
| `ValidatorFacts.ThresholdOfNonObject` | src/validators.ts:71-79 | null, primitives and arrays are dropped, because arrays have no `x` or `y` |
| `ValidatorFacts.ThresholdOfFields` | src/validators.ts:71-79 | an item is kept if and only if it is a plain object with a numeric `x` or a numeric `y`; it then becomes `{x, y, color}`, each field checked on its own, so a wrongly typed field becomes undefined without dropping the item, and all other keys are dropped |
| `ValidatorFacts.ValidThresholdKept` | src/validators.ts:71-77 | an item `{x: number, y: number, color: string}` survives unchanged |
| `ValidatorFacts.ThresholdListConcat` | src/validators.ts:69-81 | the validated list of a concatenation is the concatenation of the validated lists, so survivors keep their order |
| `ValidatorFacts.ThresholdListSingle` | src/validators.ts:69-81 | one item contributes its validated form, or nothing |
| `ValidatorFacts.ThresholdsExamples` | src/tests/validators.test.ts:55-68 | a valid threshold is kept; `{x:'a', y:'b'}` is dropped from the list beside it |
| `ValidatorFacts.LegendAccepted` | src/validators.ts:85-103 | accepted if and only if the option is non-empty, parses, and the parsed value is an object whose `position` is left/right/top/bottom or whose `series` is an array; the parsed value is then returned unchanged, extra keys included |
| `ValidatorFacts.LegendExamples` | src/tests/validators.test.ts:72-79 | `{"position":"middle"}` gives undefined; a top legend with one series is returned as parsed |
| `ValidatorFacts.SymbolsAccepted` | src/validators.ts:137-159 | accepted if and only if the option is non-empty, parses, and the parsed value is an object with a truthy `axis`, `chart`, `empty`, `background` or `border`; the parsed value is then returned unchanged |
| `ValidatorFacts.SymbolsExamples` | src/tests/validators.test.ts:111-118 | `{"invalidKey":"-"}` gives undefined; the table with an `axis` object and an `empty` role is returned as parsed |
| `ValidatorFacts.SymbolsFalsyExamples` | src/validators.ts:144-156 | `{"axis":""}` gives undefined because the role is falsy; a parsed `null` gives undefined because reading its `axis` throws and the exception is caught |
| `ValidatorFacts.FormatterCompiled` | src/validators.ts:106-117 | an empty or absent formatter gives undefined whatever the engine would say; a non-empty one gives a function exactly when its wrapped text compiles |
| `ValidatorFacts.LineFormatterCompiled` | src/validators.ts:120-134 | the same for the line formatter |
| `ValidatorFacts.FormatterBodyInjective` | src/validators.ts:112 | wrapping a formatter's text into the function body loses nothing: equal bodies come from equal texts |
| `ValidatorFacts.LineFormatterBodyInjective` | src/validators.ts:127 | the same for the line formatter's wrapping |
| `Cli.BaseOptions` | src/cli.ts:179 | an absent or empty `options` gives `{}`; otherwise the parse fails exactly when JSON.parse fails, and otherwise gives the parsed value |
| `Cli.Overrides` | src/cli.ts:184-203 | the keys written after the spread are exactly the nineteen override keys |
| `Cli.PrepareParams` | src/cli.ts:134-206 | fatal exactly when a non-empty `options` or the `input` fails to parse; otherwise the input is the parsed series, and the option keys are the base object's own enumerable keys plus the override keys |
| `CliFacts.BaseKeysPreserved` | src/cli.ts:183-184 | a key outside the override set is in the merged options exactly when it is in the base, and then has its base value |
| `CliFacts.OverridesWin` | src/cli.ts:184-203 | every override key is present, with the value computed from the flags, whatever the base holds |
| `CliFacts.VerbatimFlagsCopied` | src/cli.ts:185-198 | width, height, hideYAxis, hideXAxis, title, xLabel, yLabel, fillArea, barChart, horizontalBarChart and showTickLabel are copied exactly as given |
| `CliFacts.ValidatedFieldsMerged` | src/cli.ts:195-203 | color, axisCenter, yRange, thresholds, legend, formatter, lineFormatter and symbols each hold their validator's result on the raw flag |
| `CliFacts.AbsentFlagErasesBase` | src/cli.ts:184-203 | an override flag that is undefined, in particular one missing from the command line, is undefined in the merged options, even when the base sets it |
| `CliFacts.NoBaseOptions` | src/cli.ts:179-184 | with no options blob, or an empty one, the merged keys are exactly the override keys |

## Left out

- Option declaration and parsing by yargs (`src/cli.ts:19-110`), including the asynchronous `argv` branch (`src/cli.ts:209-221`). The parsed arguments are a parameter of `PrepareParams`, a map from option name to value. `WellTypedArgv` states the parameter types of `prepareParams` that the code relies on: `input` is a string; `options`, `legend`, `formatter`, `lineFormatter` and `symbols` are strings when given; `axisCenter` is an array when given.
- `withError` and `execute` (`src/cli.ts:113-132`): writing to stdout and stderr and exiting the process are I/O. A fatal parse error is modelled as a `Failure(SyntaxError)` result.
- The renderer `plot` of the `simple-ascii-chart` library: its source is not part of this model.
- The `JSON.parse` algorithm and the JavaScript parser behind `new Function`. Both are fields of `Host`. The model captures the text that is handed to `new Function`, but not what the compiled formatter does when it is called.
- IEEE-754 details: a number is a `real`, so NaN and ±Infinity are not modelled. JSON.parse never yields NaN. It does yield ±Infinity for out-of-range literals such as `1e400`. Under `typeof` and truthiness ±Infinity behaves like any non-zero `Num`, so the validators observe nothing the model loses.
- Strings are sequences of Unicode scalar values, while JavaScript indexes UTF-16 code units. So the spread of a string base blob with characters outside the Basic Multilingual Plane has fewer index keys in `Js.OwnEnumerable` than in JavaScript (`{..."😀"}` has two keys there).
- Properties inherited from a prototype: `Get` reads own properties only. None of the keys the validators read is a prototype member.
- The key order of the merged object: a `map` has no order.
