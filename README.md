# Inconvo response normaliser and chart pivots, in Dafny

This project models the non-UI core of an assistant chat front end that shows
replies from the Inconvo data-analyst service.

- **Response normaliser** (`src/lib/inconvo/types.ts`). `parseInconvoResponse` takes
  a JSON string or a value that is already parsed, and returns a well-formed
  `InconvoResponse` or `null`. It runs in three steps:
  1. parse the string, if the input is one;
  2. repair the legacy "flattened chart" shape in place, by inserting a nested
     `chart` object built from the top-level `spec`, `data`, `chartType`,
     `title`, `xLabel` and `yLabel`;
  3. run the tree of shape predicates `isStringArray` … `isInconvoResponse`.
- **Chart components** (`inconvo-bar-chart.tsx`, `inconvo-line-chart.tsx`). Both
  turn column-oriented chart data (`labels` and `datasets[{name, values}]`)
  into one row record per label, using the same code. They also pick series
  colours, the bottom margin and the x-axis tick interval.

Modules, one per concern:

- `Wrappers` (`wrappers.dfy`): `Option`.
- `JsValues` (`js_values.dfy`): the JavaScript values the validator sees, as the
  datatype `Json`. It has `undefined` for missing keys, and explicit predicates
  for `typeof v === "object" && v !== null` (`IsObject`), truthiness (`Truthy`)
  and property reads (`Get`).
- `InconvoTypes` (`inconvo_types.dfy`): everything in `types.ts`. It has:
  - the shape predicates;
  - `LegacyChart` and `Repair` for the legacy repair;
  - `ParseInconvoResponse`;
  - a typed view (`Response`, `Chart`, `ChartData`, `Table`), with decoders
    from `Json` and encoders back into `Json`. A decoder succeeds exactly when
    its predicate accepts. Encoding and then decoding gives back the typed value.
- `ChartCommon` (`chart_common.dfy`): the code the two chart components share.
  This is the `chartData` pivot (a method with loops, proved against the
  function `Row`), the bottom margin and the tick interval.
- `BarChart` (`bar_chart.dfy`) and `LineChart` (`line_chart.dfy`): the series
  colours and the layout of each component.

`JSON.parse` is the parameter `parse: string -> Option<Json>`, where `None`
means that it throws. `ParseInconvoResponse` returns an `Outcome`. Its
`response` is the function's result. Its `argument` is the caller's argument
after the call. A non-string argument is the very object that is repaired in
place, so it is `Repair(value)` afterwards. This holds whether or not the
result is `null`. A non-null result is that same object. Object identity is
thus stated as a value equation.

Three behaviours of `parseInconvoResponse` are easy to miss, and the model keeps them:

- The repair runs when `chart` is *falsy*, not only when it is missing. A
  `chart` of `false`, `0`, `""` or `null` is replaced.
- A non-string argument is changed in place, even when the result is `null`.
- A `"text"` response is accepted whatever its `chart` and `table` fields hold.
  `chart` being present only for `"chart"` responses is not enforced.

## Model

| member | source | states |
|---|---|---|
| `InconvoTypes.IsStringArray` | src/lib/inconvo/types.ts:40-42 | `isStringArray`: an array whose every element is a string |
| `InconvoTypes.IsNumberArray` | src/lib/inconvo/types.ts:44-46 | `isNumberArray`: an array whose every element is a number |
| `InconvoTypes.IsDataset` | src/lib/inconvo/types.ts:48-55 | `isDataset`: a non-null object with a string `name` and a number-array `values` |
| `InconvoTypes.IsChartData` | src/lib/inconvo/types.ts:57-65 | `isChartData`: a non-null object with string-array `labels` and an array `datasets` whose every element is a dataset |
| `InconvoTypes.IsSpec` | src/lib/inconvo/types.ts:67-69 | `isSpec`: any non-null object, arrays included |
| `InconvoTypes.IsChart` | src/lib/inconvo/types.ts:71-81 | `isChart`: a non-null object whose `type` is `"bar"`, `"line"` or undefined, with valid chart `data` or an object `spec` |
| `InconvoTypes.IsTable` | src/lib/inconvo/types.ts:83-91 | `isTable`: a non-null object with string-array `head` and an array `body` whose every row is a string array |
| `InconvoTypes.IsInconvoResponse` | src/lib/inconvo/types.ts:93-116 | `isInconvoResponse`: false for a non-object, a non-string `message`, an unknown `type`, a chart response with an invalid `chart`, a table response with an invalid `table`; true otherwise |
| `InconvoTypes.NeedsLegacyRepair` | src/lib/inconvo/types.ts:126-132 | The repair guard: an object whose `type` is `"chart"`, whose `chart` is falsy and whose `spec` or `data` is truthy |
| `InconvoTypes.Parsed` | src/lib/inconvo/types.ts:122-123 | A string argument is parsed (`None` when `JSON.parse` throws); any other argument is used as it is |
| `InconvoTypes.DecodeText` | src/lib/inconvo/types.ts:141-143 | An optional field is read as a string exactly when it is a string |
| `InconvoTypes.DecodeStrings` | src/lib/inconvo/types.ts:40-42 | Succeeds exactly when the value is an array of strings (the empty array included); the value is then the encoding of the decoded list |
| `InconvoTypes.DecodeNumbers` | src/lib/inconvo/types.ts:44-46 | Succeeds exactly when the value is an array of numbers; the value is then the encoding of the decoded list |
| `InconvoTypes.DecodeDataset` | src/lib/inconvo/types.ts:48-55 | Succeeds exactly when the value is an object with a string `name` and a number-array `values`, and agrees with both fields |
| `InconvoTypes.DecodeChartData` | src/lib/inconvo/types.ts:57-65 | Succeeds exactly when `labels` is a string array and every element of the array `datasets` is a dataset; the typed labels and datasets agree with the value element by element |
| `InconvoTypes.DecodeKind` | src/lib/inconvo/types.ts:75-77 | For an allowed chart `type`: absent exactly when `type` is undefined, otherwise the kind whose encoding is `type` |
| `InconvoTypes.DecodeChart` | src/lib/inconvo/types.ts:71-81 | Succeeds exactly when the chart predicate accepts; the typed chart then has valid data or a spec; its kind is read from `type` (absent exactly when `type` is undefined), its data is the decoded `data` (present exactly when that is valid chart data), its spec is `spec` exactly when that is a non-null object, and `title`, `xLabel`, `yLabel` are kept exactly when they are strings |
| `InconvoTypes.DecodeTable` | src/lib/inconvo/types.ts:83-91 | Succeeds exactly when `head` is a string array and every row of the array `body` is a string array; head and rows agree with the value |
| `InconvoTypes.DecodeResponse` | src/lib/inconvo/types.ts:93-116 | The refinement into the typed sum type: succeeds exactly when the validator accepts; the typed response carries the string `message`, a `type` that names its variant, and the decoded `chart` or `table` for chart and table responses |
| `InconvoTypes.LegacyChart` | src/lib/inconvo/types.ts:133-144 | The built chart is a truthy object with exactly six keys; `spec`, `data`, `title`, `xLabel`, `yLabel` are kept only when they pass their checks (undefined otherwise), and `type` is `chartType` only when that is `"bar"` or `"line"` |
| `InconvoTypes.Repair` | src/lib/inconvo/types.ts:126-146 | Without the guard (`type` is `"chart"`, `chart` falsy, `spec` or `data` truthy) the value is unchanged; with it, exactly `chart` is set to the built chart and every other field is kept |
| `InconvoTypes.ParseInconvoResponse` | src/lib/inconvo/types.ts:118-152 | Malformed JSON gives null; a non-null result is accepted by the validator (it refines to a typed response) and is the repaired parsed value; a string argument is untouched, any other argument is repaired in place and is itself the non-null result |
| `InconvoTypes.DecodeEncodeStrings` | src/lib/inconvo/types.ts:40-42 | Decoding the encoding of any string list gives the list back |
| `InconvoTypes.DecodeEncodeNumbers` | src/lib/inconvo/types.ts:44-46 | Decoding the encoding of any number list gives the list back |
| `InconvoTypes.DecodeEncodeDataset` | src/lib/inconvo/types.ts:48-55 | Decoding the encoding of any dataset gives it back |
| `InconvoTypes.DecodeEncodeChartData` | src/lib/inconvo/types.ts:57-65 | Decoding the encoding of any chart data gives it back, whatever the lengths of its values |
| `InconvoTypes.DecodeEncodeChart` | src/lib/inconvo/types.ts:71-81 | Every typed chart with data or a spec is accepted by the chart predicate and decodes back to itself |
| `InconvoTypes.DecodeEncodeTable` | src/lib/inconvo/types.ts:83-91 | Every typed table, with rows of any widths, is accepted and decodes back to itself |
| `InconvoTypes.DecodeEncodeResponse` | src/lib/inconvo/types.ts:29-38 | Every well-formed typed response is accepted by the validator and decodes back to itself |
| `InconvoTypes.BadDatasetRejectsChartData` | src/lib/inconvo/types.ts:62-63 | A single dataset without a string `name` or with non-number `values` rejects the whole chart data, whatever `labels` holds |
| `InconvoTypes.ChartDataIgnoresLengths` | src/lib/inconvo/types.ts:57-65 | Chart data whose dataset has fewer values than there are labels is accepted |
| `InconvoTypes.TableRowsMayDiffer` | src/lib/inconvo/types.ts:83-91 | A table whose rows differ in width from each other and from the head is accepted |
| `InconvoTypes.ArraySpecAccepted` | src/lib/inconvo/types.ts:67-69 | An array is accepted as a chart spec |
| `InconvoTypes.TextIgnoresPayload` | src/lib/inconvo/types.ts:103-115 | A `"text"` response with a string `message` is accepted whatever its `chart` and `table` fields hold |
| `InconvoTypes.LegacyChartValidity` | src/lib/inconvo/types.ts:132-135 | The chart built by the repair passes the chart predicate exactly when the top-level `spec` or `data` passes its own check |
| `InconvoTypes.LegacyAcceptance` | src/lib/inconvo/types.ts:132-148 | A payload that is repaired is accepted exactly when its `message` is a string and its `spec` or `data` is valid; when both fail the result is null |
| `InconvoTypes.NoRepairValidatesAsIs` | src/lib/inconvo/types.ts:126-148 | When the repair guard fails, the result is the parsed value itself if the validator accepts it and null otherwise |
| `InconvoTypes.TruthyChartKept` | src/lib/inconvo/types.ts:132 | An existing truthy `chart` is never replaced |
| `InconvoTypes.Idempotent` | src/lib/inconvo/types.ts:121-151 | Applying the function again to a non-null result returns that result, and leaves it unchanged |
| `InconvoTypes.StringInputAsParsed` | src/lib/inconvo/types.ts:122-123 | A string argument gives the same result as the value it parses to, except that a JSON string literal is not parsed twice and gives null |
| `InconvoTypes.TextExample` | src/lib/inconvo/types.ts:93-116 | `{message: "hi", type: "text"}` is returned as it is |
| `InconvoTypes.UnknownTypeExample` | src/lib/inconvo/types.ts:103-105 | A response with `type: "bogus"` gives null |
| `InconvoTypes.BareChartExample` | src/lib/inconvo/types.ts:107-109 | A `"chart"` response without `chart`, `spec` or `data` gives null |
| `InconvoTypes.LegacySpecExample` | src/lib/inconvo/types.ts:132-144 | A flattened payload with only `spec` is accepted with `chart` set to `{spec, data: undefined, type: undefined, …}` |
| `ChartCommon.Row` | src/components/assistant-ui/tools/inconvo-bar-chart.tsx:33-38 | A row starts as `{name: label}`; each dataset in order then writes `values[index]` (undefined past the end) at its name, and a write to `__proto__` is ignored |
| `ChartCommon.Present` | src/components/assistant-ui/tools/inconvo-bar-chart.tsx:59 | An optional string prop is truthy exactly when it is given and not empty |
| `ChartCommon.Pivot` | src/components/assistant-ui/tools/inconvo-bar-chart.tsx:31-41 | Exactly one row per label, in label order; row `i` is the row for `labels[i]` after every dataset, in order, wrote its value at index `i` |
| `ChartCommon.RowKeys` | src/components/assistant-ui/tools/inconvo-bar-chart.tsx:33-38 | A row's keys are `name` and the name of every dataset, except `__proto__`; writing to `__proto__` creates no key |
| `ChartCommon.RowLastWins` | src/components/assistant-ui/tools/inconvo-line-chart.tsx:38-40 | At a dataset's name a row holds that dataset's value at the row's index, or undefined when `values` is too short, unless a later dataset has the same name: the last one wins |
| `ChartCommon.RowNameIsLabel` | src/components/assistant-ui/tools/inconvo-line-chart.tsx:35-39 | A row's `name` is its label unless some dataset is itself called `"name"` |
| `ChartCommon.BottomMargin` | src/components/assistant-ui/tools/inconvo-bar-chart.tsx:68 | The bottom margin is 80 exactly when `xLabel` is truthy, and 40 otherwise |
| `ChartCommon.Interval` | src/components/assistant-ui/tools/inconvo-bar-chart.tsx:77 | Every tick is drawn (interval 0) exactly when there are at most 12 labels |
| `BarChart.Fill` | src/components/assistant-ui/tools/inconvo-bar-chart.tsx:132 | The fill is always an entry of the palette (the index is in bounds), and the first five series take the palette in order |
| `BarChart.FillCycles` | src/components/assistant-ui/tools/inconvo-bar-chart.tsx:43-52 | Colours repeat with period 5 |
| `BarChart.NearbyFillsDiffer` | src/components/assistant-ui/tools/inconvo-bar-chart.tsx:128-132 | Any five consecutive series get five different colours |
| `BarChart.Bars` | src/components/assistant-ui/tools/inconvo-bar-chart.tsx:128-136 | One bar series per dataset, in order, keyed by the dataset's name and filled with `palette[i mod 5]` |
| `BarChart.Layout` | src/components/assistant-ui/tools/inconvo-bar-chart.tsx:57-107 | The title heading and the axis labels appear only for truthy props; the bottom margin is 80 exactly when the x-axis label is drawn and 40 otherwise; ticks are thinned only past 12 labels |
| `LineChart.Stroke` | src/components/assistant-ui/tools/inconvo-line-chart.tsx:119 | Line `i` uses `palette[i]` when that entry exists and `"var(--chart-series-primary)"` otherwise |
| `LineChart.Lines` | src/components/assistant-ui/tools/inconvo-line-chart.tsx:118-131 | One line series per dataset, in order, keyed by the dataset's name, stroked from a palette requested with a count of `datasets.length` |
| `LineChart.FullPaletteNoFallback` | src/components/assistant-ui/tools/inconvo-line-chart.tsx:45-48 | A palette builder that returns the count it is asked for leaves no line on the fallback stroke |
| `LineChart.ShortPaletteFallsBack` | src/components/assistant-ui/tools/inconvo-line-chart.tsx:119 | Every line past the end of a short palette uses the fallback stroke |
| `LineChart.Layout` | src/components/assistant-ui/tools/inconvo-line-chart.tsx:56-97 | The axis labels appear only for truthy props; the bottom margin is 80 exactly when the x-axis label is drawn and 40 otherwise; ticks are thinned only past 12 labels; there is no title heading |

## Left out

- `JSON.parse` is a parameter of `ParseInconvoResponse`; its grammar is not modelled.
- `JSON.stringify` is not modelled. The round trip "normalise, stringify, normalise again" is stated instead on the value itself (`InconvoTypes.Idempotent`). Stringify drops `undefined` fields, so the round trip would not give back an equal value anyway.
- Numbers are reals, so NaN, the infinities and `-0` are not values of the model. The core applies only `typeof` and truthiness to numbers. Under those, `-0` behaves like `0.0` and an infinity like any other nonzero number, so nothing is lost for them. NaN is falsy, unlike any nonzero real; `JSON.parse` never produces it, and only a direct object argument could hold it.
- Only plain data is modelled: null, booleans, numbers, strings, arrays and plain objects. Getters, functions, class instances and the prototype chain are not. A frozen object argument is also not modelled: assigning `chart` to it throws in strict mode, and the catch branch then returns null.
- Property reads on arrays give `undefined`. The core never reads an index or `length` through them.
- `id` and `conversationId` are never validated, so the typed `Response` does not carry them. Likewise a chart's `title`, `xLabel` and `yLabel` are not validated by the chart predicate, and the typed `Chart` keeps each one only when it is a string.
- `inconvo-chart-colors.ts` is not part of this model. Its floating-point greyscale interpolation, rounding and hex formatting are replaced by the palette-builder parameter of `LineChart.Lines`.
- The pivot works on value maps. The JavaScript row objects, `useMemo` caching and the order of object keys are not modelled.
- React rendering, JSX markup, Recharts behaviour, the `useTheme` hook and React's warning on duplicate `key`s (datasets that share a name) are framework behaviour and are left out.
- Not part of this model (framework glue, network or display only): `inconvo-chart.tsx`, `thread-list.tsx`, `tool-fallback.tsx`, `route.ts`, `app-shell.tsx`, `page.tsx`, `assistant-sidebar.tsx`, `popover.tsx`, `theme-provider.tsx`.
