# Span expression and pie-chart data shaping, modelled in Dafny

This project models two self-contained pieces of the observability dashboard plugin.

- **`Span`**, the node of the PPL (Piped Processing Language) query AST that stands for a
  time-bucketing group-by expression, as in `stats count() by span(timestamp, 1h) as hourly`.
  A Span owns an inner expression node and an optional custom label (the alias). It has
  two operations:
  - `getTokens()` extracts a two-entry token record for the visualization-configuration UI;
  - `toString()` writes the node back as query text.

  Module `PplSpan` (`span.dfy`) models both as pure functions. Lemmas state what they
  promise: the round trips that read the alias back from the text and the label back from
  the tokens, that an empty label and an absent label write the same text, and that
  neither operation reads the node's name or children.
- **The data shaping inside the `Pie` chart component**, taken out of React and Plotly.
  Module `PieChart` (`pie.dfy`) covers:
  - the group-by and aggregation entries kept because they have a label;
  - the early "empty placeholder" decision;
  - the comma-joined legend labels built from several group-by columns;
  - each pie's cell in a three-column grid, and the grid's size;
  - the tooltip and chart-type defaults.

  The `labelsOfXAxis` loop is a method with a loop invariant, proved equal to a
  specification function (`XAxisLegend`, the fold `LegendAfter` over all group-by
  columns). Lemmas then state that function's exact
  outcomes: which inputs give labels, which give `undefined`, which throw, how long the
  label list is, and what each label contains. `Render` puts the pieces together and says
  what the component draws.

Module `JsValues` (`js_values.dfy`) holds the `Option` type. In both models `None` stands
for JavaScript's `undefined`.

Modelling decisions:
- **The Span label is an `Option<string>`.** JavaScript truthiness makes `undefined` and
  `""` alike in `toString()`: neither adds an ` as` suffix. `getTokens()` still passes the
  stored value through verbatim, so the tokens keep `undefined` and `""` apart.
- **The label key is assumed to be `"customLabel"`.** The source reads both the label key
  and the label through a shared constant, `CUSTOM_LABEL`, whose value is defined
  elsewhere. The read `this[CUSTOM_LABEL]` reaches the constructor field `customLabel`
  only if the constant names that field. The model assumes it does and fixes the key as
  `PplSpan.CustomLabelKey`.
- **JavaScript behaviour the pie pipeline depends on is written out:**
  - an empty array is truthy, and a missing config list gives no entries;
  - `[undefined, x].join(',')` writes `undefined` as `""`, so a shorter column contributes
    empty text;
  - `labelsOfXAxis` throws a `TypeError` from `undefined.map`, or from indexing a missing
    column once `map` calls its callback;
  - a present but empty `mode` list makes the chart type `undefined`, which draws a donut.
- **The grid layout's as-written behaviour is stated, not corrected.** The grid has
  `floor(n / 3) + 1` rows. When `n` is a multiple of three, its last row stays empty
  (lemma `PieChart.LastRowEmpty`).
- **The Span constructor does no validation.** A Span built without an inner expression
  throws a `TypeError` from `getTokens()` and `toString()`. The model's inner node is always
  present, so that error is not modelled. The label's token key is the shared constant
  `CUSTOM_LABEL` (see above).

## Model

| member | source | states |
|---|---|---|
| `PplSpan.LabelValue` | dashboards-observability/common/query_manager/ast/expression/span.ts:22 | the label's token value is the stored string verbatim, and `undefined` exactly when the label is absent |
| `PplSpan.GetTokens` | dashboards-observability/common/query_manager/ast/expression/span.ts:19-24 | the tokens are a record with exactly the two keys `span_expression` and the custom-label key; the first holds the inner node's own tokens unchanged, the second the label, present even when the label is absent or empty |
| `PplSpan.ToString` | dashboards-observability/common/query_manager/ast/expression/span.ts:26-30 | the text always starts with the inner expression's text; its length is the inner length, or the inner length + 4 + the label's length; it equals the inner text exactly when the label is falsy |
| `PplSpan.AliasOf` | dashboards-observability/common/query_manager/ast/expression/span.ts:27-29 | reading an alias back from a text succeeds only on a text that is the inner text, then ` as `, then a non-empty alias; when it fails, no such alias exists |
| `PplSpan.ShownAlias` | dashboards-observability/common/query_manager/ast/expression/span.ts:28 | the alias shown in the text is the label exactly when the label is truthy (defined and non-empty) |
| `PplSpan.AliasRoundTrip` | dashboards-observability/common/query_manager/ast/expression/span.ts:26-30 | reading the alias back from `toString()`'s text gives exactly the truthy label, or none |
| `PplSpan.EmptyAndAbsentLabelsAgree` | dashboards-observability/common/query_manager/ast/expression/span.ts:28 | a Span with label `""` and one with no label write the same text, the inner expression's, with no ` as` suffix |
| `PplSpan.ToStringWithAlias` | dashboards-observability/common/query_manager/ast/expression/span.ts:27-29 | with a non-empty label the text is the inner text followed by ` as ` and the label |
| `PplSpan.ToStringDeterminesAlias` | dashboards-observability/common/query_manager/ast/expression/span.ts:26-30 | two Spans over inner expressions with the same text write the same text exactly when they show the same alias |
| `PplSpan.LabelFromTokens` | dashboards-observability/common/query_manager/ast/expression/span.ts:22 | reading the label entry of a token record gives no label exactly when the entry is `undefined`, and a string entry gives that string as the label |
| `PplSpan.TokensRoundTrip` | dashboards-observability/common/query_manager/ast/expression/span.ts:20-23 | the tokens give back the inner node's tokens and the stored label, not trimmed or normalised, with an empty label kept apart from an absent one |
| `PplSpan.TokensDetermineContent` | dashboards-observability/common/query_manager/ast/expression/span.ts:19-24 | two Spans extract equal tokens exactly when their inner tokens and their labels are equal |
| `PplSpan.IndependentOfNameAndChildren` | dashboards-observability/common/query_manager/ast/expression/span.ts:10-30 | Spans with the same inner expression and label give identical tokens and text, whatever their name and children |
| `PieChart.WithLabel` | dashboards-observability/public/components/visualizations/charts/pie/pie.tsx:31-34 | the filter keeps exactly the entries with a non-empty label and is never longer than its input |
| `PieChart.WithLabelAppend` | dashboards-observability/public/components/visualizations/charts/pie/pie.tsx:31-34 | filtering a concatenation is the concatenation of the filtered parts, so the original order is kept |
| `PieChart.WithLabelKeepsLabelled` | dashboards-observability/public/components/visualizations/charts/pie/pie.tsx:31-34 | a list whose entries all have labels passes through the filter unchanged |
| `PieChart.AxisItems` | dashboards-observability/public/components/visualizations/charts/pie/pie.tsx:31-34 | a missing config list gives no axis entries; a present list gives exactly its labelled entries |
| `PieChart.XAxis` | dashboards-observability/public/components/visualizations/charts/pie/pie.tsx:31 | the group-by axis is empty when the config has no group-by list, and otherwise holds exactly the listed entries with a label |
| `PieChart.YAxis` | dashboards-observability/public/components/visualizations/charts/pie/pie.tsx:32-34 | the value axis is empty when the config has no aggregation list, and otherwise holds exactly the listed entries with a label |
| `PieChart.ValueSeries` | dashboards-observability/public/components/visualizations/charts/pie/pie.tsx:53-60 | the placeholder is chosen exactly when either axis is empty; otherwise the value series is `yaxis` itself, in its order |
| `PieChart.ChartType` | dashboards-observability/public/components/visualizations/charts/pie/pie.tsx:35 | with no chart style or no mode the type is `'pie'`; a non-empty mode list gives the first entry's `modeId`; an empty mode list gives an undefined type |
| `PieChart.HoleFor` | dashboards-observability/public/components/visualizations/charts/pie/pie.tsx:106 | the trace has no hole exactly when the chart type is `'pie'`, and the donut hole otherwise |
| `PieChart.DefaultIsPlainPie` | dashboards-observability/public/components/visualizations/charts/pie/pie.tsx:35 | with no mode configured the pies have no hole |
| `PieChart.EmptyModeListIsDonut` | dashboards-observability/public/components/visualizations/charts/pie/pie.tsx:35 | a present but empty mode list makes every pie a donut |
| `PieChart.TooltipMode` | dashboards-observability/public/components/visualizations/charts/pie/pie.tsx:44-47 | the mode is `'show'` when options or mode are undefined, and the configured mode otherwise |
| `PieChart.TooltipText` | dashboards-observability/public/components/visualizations/charts/pie/pie.tsx:48-51 | the text is `'all'` when options or text are undefined, and the configured text otherwise |
| `PieChart.HoverInfo` | dashboards-observability/public/components/visualizations/charts/pie/pie.tsx:109 | `hoverinfo` is `'none'` exactly when the mode is `'hidden'` or the text itself is `'none'`; for any other mode it is the tooltip text |
| `PieChart.HoverInfoDefault` | dashboards-observability/public/components/visualizations/charts/pie/pie.tsx:44-51 | with no tooltip options every trace's `hoverinfo` is `'all'` |
| `PieChart.CreateLegendLabels` | dashboards-observability/public/components/visualizations/charts/pie/pie.tsx:65-69 | the result has the length of `dimLabels`, and entry `j` is `xaxisLables[j] + "," + dimLabels[j]`, with an index past the end of `xaxisLables` written as empty text |
| `PieChart.ThrownPropagates` | dashboards-observability/public/components/visualizations/charts/pie/pie.tsx:75-77 | once a loop step throws, the whole legend computation throws |
| `PieChart.LabelsOfXAxis` | dashboards-observability/public/components/visualizations/charts/pie/pie.tsx:71-83 | the loop yields the legend got by combining the group-by columns one after another (`XAxisLegend`), including the early exit on a thrown error; when every group-by column is present in the data, the legend is an array with the first column's length |
| `PieChart.JoinComma` | dashboards-observability/public/components/visualizations/charts/pie/pie.tsx:67 | the joined text starts with the first part and is as long as all parts together plus one comma between each two |
| `PieChart.Column` | dashboards-observability/public/components/visualizations/charts/pie/pie.tsx:74-76 | a data column lookup gives a column exactly when the key is in the data, and then that key's column |
| `PieChart.Step` | dashboards-observability/public/components/visualizations/charts/pie/pie.tsx:65-77 | one loop step never gives `undefined`; it throws exactly when the running legend is not an array, or the next column is missing while the legend is non-empty; otherwise entry `j` is `next[j] + "," + legend[j]`, with the running legend's length |
| `PieChart.LegendAfter` | dashboards-observability/public/components/visualizations/charts/pie/pie.tsx:72-78 | after `k` columns the legend is `undefined` exactly when `k` is 1 and the first column is missing; an array legend has the first column's length |
| `PieChart.XAxisLegend` | dashboards-observability/public/components/visualizations/charts/pie/pie.tsx:71-83 | the legend is `undefined` exactly when the single group-by column is missing; it throws exactly when there are two or more entries and the first column is missing, or it is non-empty and a later one is missing; an array legend has the first column's length |
| `PieChart.MakeTrace` | dashboards-observability/public/components/visualizations/charts/pie/pie.tsx:101-115 | a trace carries the shared labels, its own data column as values, its field name as text, type `'pie'`, text info `'percent'`, automatic margins, outside text, the configured hole and hover info, and its grid cell |
| `PieChart.MissingDataConfig` | dashboards-observability/public/components/visualizations/charts/pie/pie.tsx:30-53 | with no data configuration both axes are empty, so the placeholder is drawn; the type defaults to `'pie'` and the hover info to `'all'` |
| `PieChart.LegendThrows` | dashboards-observability/public/components/visualizations/charts/pie/pie.tsx:74-77 | the legend throws exactly when there are two or more group-by entries and either the first column is missing, or the first column is non-empty and a later one is missing |
| `PieChart.LegendEntry` | dashboards-observability/public/components/visualizations/charts/pie/pie.tsx:73-78 | legend label `j` is entry `j` of every group-by column joined by commas, later columns first |
| `PieChart.LegendOfEqualColumns` | dashboards-observability/public/components/visualizations/charts/pie/pie.tsx:73-78 | with every column present and all of length `n`, the legend has `n` labels, and label `j` is `ck[j],...,c1[j],c0[j]` |
| `PieChart.Domain` | dashboards-observability/public/components/visualizations/charts/pie/pie.tsx:112-115 | pie `i` is at row `r` and column `c` with `3r + c = i` and `c < 3` |
| `PieChart.Grid` | dashboards-observability/public/components/visualizations/charts/pie/pie.tsx:125-132 | for `n` pies the row count `R` satisfies `3(R-1) <= n < 3R`; the column count is 3 when `n >= 3` and `n` otherwise |
| `PieChart.PieInsideGrid` | dashboards-observability/public/components/visualizations/charts/pie/pie.tsx:112-132 | every pie `i < n` lands in a cell whose row and column lie inside the grid |
| `PieChart.LastRowEmpty` | dashboards-observability/public/components/visualizations/charts/pie/pie.tsx:125-132 | the grid's last row holds no pie exactly when the number of pies is a multiple of three |
| `PieChart.Render` | dashboards-observability/public/components/visualizations/charts/pie/pie.tsx:30-132 | for well-formed props (`userConfigs`, `rawVizData.data`, `metadata.fields`, `vis` and `layout` all present), the placeholder is drawn exactly when either axis is empty, and with the default colour palette an error is thrown exactly when building the legend throws; otherwise there is one trace per `yaxis` entry, in order, each with the shared legend labels, its own data column as values, its field name as text, type `'pie'`, text info `'percent'`, automatic margins, outside text, the configured hole and hover info, and its grid cell, and every cell is inside the grid the component computes |

## Left out

- React and Plotly rendering: the `useMemo` hooks, the `<Plt>` and `<EmptyPlaceholder>` elements (the placeholder icon included), and the merging of the opaque `layout` and `config` objects by spread. `Render` returns a plain value saying what would be drawn.
- The legend and title settings (`showLegend`, `legendPosition`, `legendSize`, `labelSize`, the panel title) and each trace's `outsidetextfont`. These pick between the user's setting and the visualization's default and copy the result into the Plotly layout: `showLegend` is `false` for `'hidden'` and the default otherwise (pie.tsx:40); `legendPosition`, `legendSize` and `labelSize` fall back to the default with `||` (pie.tsx:41-43); the title is a three-way `||` chain (pie.tsx:135). They are not modelled.
- PieChart.Render: the colour theme is not modelled, so every modelled configuration uses the default palette. With a non-default `colorTheme` the `marker` block (pie.tsx:89-93) reads `queriedVizData[field.name].length`, which throws when an aggregation entry's `name` is not a data key; that throw is not modelled.
- PieChart.Render: the props are assumed well formed, carrying `userConfigs`, `rawVizData.data`, `metadata.fields`, `vis` and `layout`. The throws on a missing prop are not modelled: `fields.length` (pie.tsx:36) and the `visMetaData` defaults (pie.tsx:40-43) run before the early return, so they throw even when an axis is empty; `queriedVizData[...]` (pie.tsx:74) throws without `rawVizData.data`; `layout.legend` (pie.tsx:137) throws without `layout`.
- PieChart.Render: its `grid` is the component's own value. A `grid` key in `layout` or `layoutConfig.layout` overrides it (pie.tsx:133-134), and the model ignores that override, so the drawn grid can differ from `Grid(|yaxis|)`.
- `invertHex` and the colour `marker` block. They XOR a parsed hex string with an external constant, and are called with the colour-theme object rather than a string.
- The trace `name`, which comes from the external helper `getPropName`.
- The `hole` amount 0.5. It is a float, so the model gives it the opaque tag `Donut`.
- The unreachable `defaultAxes` / `take(fields, …)` fallback and the `fields[lastIndex]` legend branch. The early return rules both out. `PieChart.ValueSeries` returns a series only when both axes are non-empty, and `PieChart.LabelsOfXAxis` requires a non-empty `xaxis`, which is the only case in which it is reached.
- JavaScript `null` as an option value (it passes a `!== undefined` test), and non-string truthy labels. Labels and option values are strings here, and a missing entry label is `""`.
- How numbers are formatted as text. Data values are modelled as the text that `join(',')` gives them.
- A Span built without an inner expression: it throws a `TypeError` from `this.spanExpression.getTokens()` (span.ts:21) and `this.spanExpression.toString()` (span.ts:27). The model's inner node is always present, so that error path is not modelled.
- The `PPLNode` base class, the other AST nodes, the query parser and the query manager. They are not part of this model, so the inner expression is an abstract node that carries its own tokens and text.
- The value of the `CUSTOM_LABEL` constant, which is defined elsewhere. It is assumed to be `"customLabel"`, the field the source reads through it.
