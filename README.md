# Construction-progress dashboard: a verified model

This project is a Dafny model of the data core of the construction-progress dashboard (`app.jsx`). The dashboard is a single React component. It downloads a published Google Sheets CSV, normalises each row into a canonical task record, and shows four summary cards and a status table. When the sheet cannot be loaded or has no rows, it shows a built-in sample list instead.

The model has these modules:

- `Text`: JavaScript `toLowerCase` and `String.prototype.includes`.
- `Numbers`: JavaScript `parseFloat` on plain decimal notation.
- `Normalize`: `parseRow` and its `get` key search, and `results.data.map(parseRow)`.
- `Status`: `getStatusStyle` and the choice between spinner, empty state and table.
- `Metrics`: the four summary cards.
- `Fallback`: `FALLBACK_DATA`.
- `Dashboard`: the `fetchData` refresh cycle. It appears both as pure transition functions and as a `class` whose fields are the five state cells.
- `Scenarios`: concrete rows and statuses, each worked through the model.

A CSV row is modelled as the sequence of its (header, cell) pairs in the row object's key order. The download is outside the model. Its outcome is an input: either the parsed rows or a failure. The clock is also an input, a `Timestamp` parameter.

Two consequences of the code are worth stating:

- The position of an alias within its field's list plays no part. `keys.find` walks the keys in order, and the first key that contains *any* of the aliases wins (app.jsx:30). `Normalize.AliasOrderIrrelevant` and `Scenarios.KeyOrderBeatsAliasRank` state this.
- The empty-state branch of the table area (app.jsx:220-221) can never be shown. Every settled refresh leaves at least one record (`Dashboard.ShownPreserved`).

## Model

| member | source | states |
|---|---|---|
| Text.LowerChar | app.jsx:30 | `toLowerCase` on one character. An upper-case letter (ASCII or Latin-1) moves 32 code points up, to its lower-case letter. Every other character is unchanged. The result is never upper case. |
| Text.Lower | app.jsx:30 | `toLowerCase` keeps the length and lower-cases each character in place. |
| Text.ContainsInfix | app.jsx:30 | `includes`: text found in the middle part is found in the whole string. |
| Text.LowerContainsInfix | app.jsx:30 | A key that contains an alias, in any letter case, still contains it after both are lower-cased. |
| Text.NotContainsAbsentChar | app.jsx:55-56 | `includes` is false when one character of the pattern never occurs in the text. |
| Numbers.WholeValue | app.jsx:38 | An n-digit run denotes a whole number below 10^n. |
| Numbers.FractionValue | app.jsx:38 | The digits after a decimal point denote a value in [0, 1). |
| Numbers.DigitRun | app.jsx:38 | The digit run read by `parseFloat` is the longest all-digit prefix. |
| Numbers.LeadingWhitespace | app.jsx:38 | `parseFloat` skips exactly the maximal run of leading white space. |
| Numbers.ScanNumeral | app.jsx:38 | Whatever `parseFloat` reads has at least one digit, before or after the point. |
| Numbers.ParseFloatSpelled | app.jsx:38 | Round trip, for any numeral: printing it after white space and before text that cannot extend it, then applying `parseFloat`, gives back its value. |
| Numbers.ParseDecimal | app.jsx:38 | `parseFloat("w.f")` is the decimal w.f. |
| Numbers.ParseFloatNone | app.jsx:38 | NaN exactly when no digit, and no point followed by a digit, comes after the white space and an optional sign. |
| Normalize.FindFrom | app.jsx:30 | `keys.find` returns the first matching key from a position on, or nothing when no later key matches. |
| Normalize.FindKey | app.jsx:30 | The key search returns the first matching key. It finds none exactly when no key matches. |
| Normalize.Get | app.jsx:29-32 | `get` returns the cell under the first matching key, or `''` when no key matches or the matching key is the empty string. |
| Normalize.MatchOrNot | app.jsx:30 | Every row either has a first matching key or has none. |
| Normalize.GetFirstMatch | app.jsx:29-32 | With non-empty aliases, `get` returns exactly the first matching key's cell. |
| Normalize.ReplaceFirst | app.jsx:38 | `replace(',', '.')` keeps the length. A string without a comma is unchanged. |
| Normalize.ReplaceFirstAt | app.jsx:38 | Only the first comma is replaced. Everything after it is left alone, later commas included. |
| Normalize.ProgressDecimalComma | app.jsx:33-38 | A decimal comma and a decimal point coerce to the same progress: the decimal's value. |
| Normalize.ProgressNonNumeric | app.jsx:38 | An empty cell, or a cell whose first character is none of white space, a digit, `+`, `-`, `.` or `,`, coerces to progress 0. |
| Normalize.ParseRow | app.jsx:27-44 | The record's id is index + 1. Its status is never empty. |
| Normalize.NormalizeRows | app.jsx:80 | `map(parseRow)`: one record per row, in row order, each parsed with its own index. |
| Normalize.NormalizedIds | app.jsx:35 | N rows give ids exactly 1..N in row order, strictly increasing and so distinct. |
| Normalize.ParseRowText | app.jsx:36-41 | Each text field takes the cell of the first key, in key order, that matches one of its aliases. One key may feed several fields. |
| Normalize.ParseRowCoerced | app.jsx:33-42 | Progress is the coerced cell of the first progress key. The status is the first status key's cell, or "baixo risco" when that cell is empty. |
| Normalize.ParseRowDefaults | app.jsx:36-42 | `parseRow` is total. A field with no matching key is `''`, progress is 0 and the status is "baixo risco". |
| Normalize.AliasOrderIrrelevant | app.jsx:30 | The key search gives the same result for any reordering of the alias list. |
| Normalize.GetAliasOrderIrrelevant | app.jsx:29-32 | `get` returns the same cell for any reordering of its aliases. |
| Status.StatusStyle | app.jsx:53-58 | "alto" gives high, whatever else the status says. Otherwise "médio"/"medio" gives mid, and anything else gives low. Each outcome holds if and only if its condition does. |
| Status.SelectView | app.jsx:215-222 | Spinner iff loading. Empty state iff loaded with no records. Table iff loaded with records. |
| Status.StyleIgnoresCase | app.jsx:54 | The badge depends only on the lower-cased status. |
| Metrics.Average | app.jsx:102-104 | 0 for no records. Otherwise mean × count = sum of progress. |
| Metrics.CountWhere | app.jsx:105-106 | A filter count is at most the total. It is 0 iff no record passes and the total iff all records pass. |
| Metrics.CountIsIndexCount | app.jsx:105-106 | A filter count is the number of positions whose record passes. |
| Metrics.Summarize | app.jsx:102-106 | The high-risk and completed counts never exceed the total, and the total is the number of records. |
| Metrics.CountSnoc | app.jsx:105-106 | One more record adds one to a count exactly when it passes the filter. |
| Metrics.SumSnoc | app.jsx:103 | One more record adds its progress to the sum. |
| Metrics.HighRiskIsHighBadge | app.jsx:105 | The high-risk card counts exactly the table rows drawn with the high-risk badge. |
| Metrics.AverageBetween | app.jsx:102-104 | For a non-empty list, the mean lies within any bounds that hold for every progress value, so it is 0..100 when every value is. |
| Metrics.AllCompletedAverage | app.jsx:102-106 | For a non-empty list whose every record is complete, the mean is at least 100. |
| Fallback.FallbackShape | app.jsx:18-25 | The sample list has six records with ids 1..6 in order, each with a status. |
| Fallback.FallbackStatuses | app.jsx:19-24 | "Alto risco" is high. "médio risco" is mid only. "baixo risco" is neither. |
| Fallback.FallbackMetrics | app.jsx:18-25 | On the sample list: high-risk 2, completed 0, progress sum 158.75, mean 158.75/6, which lies in [26.45, 26.55) and so displays as 26.5. |
| Fallback.FallbackEdgeCases | app.jsx:22-24 | The sample list holds a zero-progress record, a "Definir" supplier and a high-risk status. |
| Dashboard.Begin | app.jsx:68-70 | Starting a refresh sets loading and clears the error and the fallback flag. The records and the timestamp are kept. |
| Dashboard.Settle | app.jsx:78-97 | Settling always stamps the time, clears loading and leaves at least one record. At least one row means normalised rows. No rows, or any failure, means the sample list, the message and the fallback flag. |
| Dashboard.RefreshFlags | app.jsx:67-98 | After a refresh the error is present iff the fallback flag is set. The flag is set iff the download did not deliver rows. The records are the sample list or the normalised rows accordingly. |
| Dashboard.RefreshForgetsPast | app.jsx:67-98 | A refresh's result does not depend on the state it started from. |
| Dashboard.RepeatedFailure | app.jsx:90-94 | Repeated failures always show the same sample list and message. |
| Dashboard.FailedRefreshCards | app.jsx:90-94 | After a failed refresh the cards read mean 158.75/6, 2 high-risk, 0 completed, 6 in total. |
| Dashboard.EmptySheetFallsBack | app.jsx:79-85 | A sheet with zero data rows is handled exactly like a failure. |
| Dashboard.ShownPreserved | app.jsx:67-98 | The invariant "loading or at least one record" holds initially and is kept by both steps, so the empty state is never displayed. |
| Dashboard.Dashboard.constructor | app.jsx:61-65 | The five cells start at their `useState` values, and the mount refresh's start leaves them unchanged. |
| Dashboard.Dashboard.View | app.jsx:215-222 | On a valid state the table area is never the empty state. It shows the spinner iff loading. |
| Dashboard.Dashboard.Start | app.jsx:68-70 | The cells become `Begin` of the old cells. |
| Dashboard.Dashboard.Finish | app.jsx:78-97 | The cells become `Settle` of the old cells. |
| Dashboard.Dashboard.FetchData | app.jsx:67-98 | The cells become `Refresh` of the old cells. Afterwards nothing is loading and there is at least one record. |
| Dashboard.Dashboard.Click | app.jsx:182 | `disabled={loading}`: a click starts a refresh iff nothing is loading. A click during loading changes nothing. |
| Scenarios.DecimalCommaExample | app.jsx:38 | "45,5" and "45.5" both give progress 45.5. |
| Scenarios.NonNumericExample | app.jsx:38 | "abc" and "" give progress 0. |
| Scenarios.DataInicioColumn | app.jsx:39 | A "Data Início" column feeds the start date when no earlier column matches. |
| Scenarios.KeyOrderBeatsAliasRank | app.jsx:30-36 | A "Fase" key before an "Etapa" key wins, although "etapa" is ranked first among the aliases. |
| Scenarios.SharedColumn | app.jsx:30-37 | A "Fase do serviço" column feeds both etapa and servico. |
| Scenarios.RiskLevelColumn | app.jsx:42 | A "RISK LEVEL" column with "Alto" gives the status "Alto", drawn as high risk. |
| Scenarios.StatusPriority | app.jsx:54-57 | "alto/médio" is high. "MÉDIO" and "Medio" are mid. "ok" is low. |

## Left out

- `loadPapaParse` and `Papa.parse` (app.jsx:7-16, 72-89) are left out: script injection, the network download and CSV tokenising. Only their outcome is modelled, as rows or a failure. Three things reject: a script that fails to load, Papa's `error` callback (app.jsx:87), and a result with no rows (app.jsx:84). They are handled identically. One `Failed` outcome stands for the first two, and `Rows([])` for the third. The `complete` handler never looks at `results.errors`, so a malformed CSV that still yields rows is stored as live data, which is the `Rows` case.
- Asynchrony, React hooks and re-rendering are left out. A refresh is modelled as a start step and a settle step. Only the `disabled={loading}` guard (app.jsx:182) orders concurrent clicks, and `Click` models that guard.
- `new Date()` is left out. The clock is the `now` parameter.
- `formatDate`, the `toLocaleString` display of the last update, JSX markup and CSS are presentation only and are left out.
- The fallback badge and the loading skeletons of the cards are left out.
- Metrics.Average: the mean is an exact real. IEEE-754 rounding of the sum and `toFixed(1)` are not modelled. `FallbackMetrics` bounds the mean to the interval that `toFixed(1)` shows as 26.5.
- Normalize.Progress: parseFloat's exponents (`1e3`), `Infinity` and IEEE-754 rounding are not modelled. `-0 || 0` is modelled as 0.
- Text.LowerChar: lower-cases ASCII and Latin-1 upper-case letters only. Other scripts' case mappings, and multi-character mappings, are left out. Every alias and status keyword of the dashboard lies in that range.
- Normalize.Get: assumes the key order that Papa's header row gives. JavaScript's reordering of integer-like keys (`"1"`, `"2"`) ahead of the other keys is not modelled. Papa's `__parsed_extra` key is not modelled either.
- Every row is taken to have distinct header names, as a JavaScript row object has distinct keys. A `Row` sequence that repeats a header is outside what the source can produce. On such a sequence `Get` returns the first cell.
- Metrics.Sum: folds the records in order. Over exact reals the fold direction does not matter.
