# Spreadsheet charts: a Dafny model

This project models the web application that turns uploaded spreadsheets into charts. Users upload a CSV, Excel or JSON file, pick columns, and get bar, line, pie, doughnut or scatter charts. An Express server stores saved, generated and downloaded chart records and the upload history. Admins get a user list, a file list, a chart overview and a dashboard of recent activity.

The heart of the model is the chart engine (`chartUtils.js`). It covers:

- classifying a column as numeric, boolean, categorical or string by a vote of its cells;
- normalising and counting categories and booleans;
- binning a numeric column into at most five equal-width ranges;
- building the series of bar, line and scatter charts;
- choosing a chart shape automatically.

The rest of the model covers:

- the CSV line splitter and parser, and the JSON record picker;
- the uploaded-file list kept in local storage;
- the visualisation page's list of chart configurations and its editors;
- the server's chart and history endpoints and its upload filter;
- the access rules of the chart endpoints;
- the client pages' filters, guards and list updates.

Each source file is one module; the file names follow the source files. Values are datatypes and pure functions. Source code that changes state step by step is a class whose methods change fields and state the new state in full; this covers React state held by a page and the server's chart collection. Every explicit loop in the source is a `while` or `for` loop with invariants (the counters, the binner, the grouping, the CSV character loop, the chart generation loop, the day buckets, the upload endpoint loop), proved equal to a specification function. Lemmas then prove what the source promises of that function.

A few conventions run through the model:

- Numbers are exact reals, and `NaN` is `None`.
- A row is a map from column names to cells; a missing key reads as `null`.
- A JavaScript exception is an explicit outcome (`Crash`, a failure value or a status code).
- The network, the clock, local storage reads, tokens and server answers are parameters of the operations that use them.

## Model

| member | source | states |
|---|---|---|
| JsCoercion.TrimStartShape | frontend/src/hooks/useLocalStorage.js:212 | `trimStart` leaves a suffix, drops only white space, and what it leaves does not start with white space |
| JsCoercion.TrimEndShape | frontend/src/hooks/useLocalStorage.js:212 | `trimEnd` leaves a prefix, drops only white space, and what it leaves does not end with white space |
| JsCoercion.TrimShape | frontend/src/hooks/useLocalStorage.js:219 | a trimmed field neither starts nor ends with white space |
| JsCoercion.TrimIdempotent | frontend/src/hooks/useLocalStorage.js:212 | trimming a trimmed field changes nothing |
| JsCoercion.TrimEmptyIffAllSpace | frontend/src/hooks/useLocalStorage.js:192 | `line.trim()` is falsy exactly when the line is all white space (both directions) |
| JsCoercion.DecimalPrefixDigits | frontend/src/hooks/useLocalStorage.js:237 | the numeral `parseFloat` reads has only digits before and after its point |
| JsCoercion.DecimalPrefixExtend | frontend/src/hooks/useLocalStorage.js:237 | white space after a complete numeral does not change what `parseFloat` reads |
| JsCoercion.LetterIsNaN | frontend/src/components/utils/chartUtils.js:3 | a string starting with a letter is NaN to both `Number` (via `isNaN`) and `parseFloat` |
| JsCoercion.ParseFloatAgreesWithNumber | frontend/src/hooks/useLocalStorage.js:237-238 | a non-blank string that `Number` accepts is read to the same value by `parseFloat` |
| JsCoercion.ParseFloatRejectsThenNaN | frontend/src/hooks/useLocalStorage.js:237-238 | a trimmed, non-empty CSV field that `parseFloat` rejects is NaN to `Number` as well, so it stays text and is not numeric later |
| JsCoercion.NatText | frontend/src/components/utils/chartUtils.js:41 | the text of a natural number is a non-empty run of digits |
| JsCoercion.NatTextValue | frontend/src/components/utils/chartUtils.js:41 | the digits of a natural number read back as that number |
| JsCoercion.NumText | frontend/src/components/utils/chartUtils.js:41 | `toString` of a number is never the empty string, so the `|| 'Unknown'` fallback never fires for a number |
| JsCoercion.IntTextRoundTrip | frontend/src/components/utils/chartUtils.js:41 | round trip: `Number` reads the text of a whole number back as that number |
| JsCoercion.WholeNumText | frontend/src/components/utils/chartUtils.js:41 | a whole number prints as its digits, after a minus sign when negative |
| JsCoercion.SignedNumeralValue | frontend/src/components/utils/chartUtils.js:3 | an optional minus followed by digits only is a number of the value those digits denote |
| JsCoercion.IsSpace | frontend/src/hooks/useLocalStorage.js:192 | the white space and line terminators `trim` removes: tab, vertical tab, form feed, the BOM, every space separator (including U+1680, U+2000 to U+200A, U+202F, U+205F and U+3000) and the four line terminators |
| JsCoercion.Trim | frontend/src/hooks/useLocalStorage.js:212 | `trim` is `trimStart` followed by `trimEnd` |
| JsCoercion.ToNumber | frontend/src/components/utils/chartUtils.js:3 | `Number(s)`: the trimmed string is a numeral in full, a blank string is 0, anything else is NaN |
| JsCoercion.ParseFloat | frontend/src/hooks/useLocalStorage.js:237 | `parseFloat(s)`: skips leading white space and reads the longest numeral prefix; NaN when there is none |
| JsCoercion.ParseInt | backend/controllers/historyController.js:5-6 | `parseInt(s)` in radix 10: leading white space, an optional sign and a run of digits; NaN without a digit |
| Cells.Get | frontend/src/components/utils/chartUtils.js:126 | a column a row lacks reads as null (`item[key]` is undefined) |
| Cells.Column | frontend/src/components/utils/chartUtils.js:126 | `fileData.map(item => item[key])`: one cell per row, row by row |
| Cells.NonNull | frontend/src/components/utils/chartUtils.js:126 | `.filter(v => v !== null && v !== undefined)` keeps exactly the present cells |
| Cells.Coerce | frontend/src/components/utils/chartUtils.js:3 | `Number(v)`: a number is itself, a boolean is 1 or 0 |
| Cells.NormalizeBoolean | frontend/src/components/utils/chartUtils.js:15-22 | a value normalises to true only if it is a boolean in the sense of `isBoolean`; a native boolean is itself; numbers and null are false |
| Cells.CellText | frontend/src/components/utils/chartUtils.js:41 | `v?.toString()` is undefined exactly for null and undefined; a string is its own text |
| Cells.LetterWordIsText | frontend/src/components/utils/chartUtils.js:2-13 | a word starting with a letter that is not one of the six boolean words is neither numeric nor boolean |
| Cells.NumberOneIsNotTrue | frontend/src/components/utils/chartUtils.js:2-22 | the number 1 is numeric but not boolean, so it normalises to false |
| Cells.DigitWordsAreBoth | frontend/src/components/utils/chartUtils.js:2-13 | the strings "0" and "1" are numeric and boolean at once |
| Cells.NativeBooleansAreBoth | frontend/src/components/utils/chartUtils.js:2-13 | `true` and `false` are numeric (since `isNaN(true)` is false) and boolean |
| Cells.IsNumeric | frontend/src/components/utils/chartUtils.js:2-4 | `isNumeric`: not null or undefined, not `''`, and not NaN under `Number` |
| Cells.IsBoolean | frontend/src/components/utils/chartUtils.js:6-13 | `isBoolean`: a native boolean, or a string that lowercases to true, false, yes, no, 1 or 0 |
| Classifier.PresentCells | frontend/src/components/utils/chartUtils.js:25 | keeps exactly the cells that are not null, undefined or `''` |
| Classifier.StringIffNothingPresent | frontend/src/components/utils/chartUtils.js:24-35 | `getDataType` answers `'string'` if and only if no cell is present |
| Classifier.AbsentCellsIgnored | frontend/src/components/utils/chartUtils.js:25 | filtering out null cells before the vote, as the callers do, does not change the type |
| Classifier.NonNullPresent | frontend/src/components/utils/chartUtils.js:25 | the present cells of the non-null cells are the present cells |
| Classifier.NumbersAreNumeric | frontend/src/components/utils/chartUtils.js:28-32 | a column whose present cells are all numbers is `'numeric'` |
| Classifier.NativeBooleansAreBoolean | frontend/src/components/utils/chartUtils.js:28-33 | a column of native booleans is `'boolean'`, although each such cell is counted as numeric too |
| Classifier.TextIsCategorical | frontend/src/components/utils/chartUtils.js:28-34 | a column with a present cell and no numeric or boolean cell is `'categorical'` |
| Classifier.StringCountCanBeNegative | frontend/src/components/utils/chartUtils.js:30-33 | cells that are numeric and boolean are subtracted twice: for `["1"]` the string count is -1 and the type is `'boolean'` |
| Classifier.GetDataType | frontend/src/components/utils/chartUtils.js:24-35 | the vote over the present cells: `'string'` when none is present; `'numeric'` when numeric cells outnumber both the string count and the boolean cells; else `'boolean'` when boolean cells outnumber the string count; else `'categorical'` |
| ChartTypes.GoldenHue | frontend/src/components/utils/chartUtils.js:234 | the hue `(i * 137.5) % 360` lies in [0, 360) |
| ChartTypes.IndexColors | frontend/src/components/utils/chartUtils.js:234 | one colour per label, label `i` getting hue `(i * 137.5) % 360` |
| ChartTypes.FieldColor | frontend/src/components/utils/chartUtils.js:323 | `valueField.color || hsl(...)`: the field's colour when it is a non-empty string, otherwise the hue of the field's position |
| ChartTypes.GoldenHueIsReduced | frontend/src/components/utils/chartUtils.js:234 | the hue is `i * 137.5` less a whole number of turns |
| ChartTypes.GoldenHuePeriod | frontend/src/components/utils/chartUtils.js:234 | the palette repeats after 144 colours |
| Aggregators.FoldGenderCases | frontend/src/components/utils/chartUtils.js:43-50 | "m"/"male", "f"/"female" and "o"/"other" in any case fold to Male, Female and Other; every other key is left as it is |
| Aggregators.CategoryKeyShape | frontend/src/components/utils/chartUtils.js:41 | a missing or empty value is counted under "Unknown", and no key is ever empty |
| Aggregators.CategoryKeys | frontend/src/components/utils/chartUtils.js:39-50 | one folded key per value |
| Aggregators.AggregateCategoricalData | frontend/src/components/utils/chartUtils.js:37-55 | the `forEach` counting loop computes the categorical counts |
| Aggregators.FoldGenderIdempotent | frontend/src/components/utils/chartUtils.js:43-50 | folding a folded key changes nothing |
| Aggregators.MaleStays | frontend/src/components/utils/chartUtils.js:44-45 | "Male" folds to itself |
| Aggregators.FemaleStays | frontend/src/components/utils/chartUtils.js:46-47 | "Female" folds to itself |
| Aggregators.OtherStays | frontend/src/components/utils/chartUtils.js:48-49 | "Other" folds to itself |
| Aggregators.UnknownStays | frontend/src/components/utils/chartUtils.js:41-50 | the "Unknown" fallback is not folded |
| Aggregators.CategoricalTotal | frontend/src/components/utils/chartUtils.js:37-55 | the categorical counts add up to the number of values |
| Aggregators.CategoricalLabels | frontend/src/components/utils/chartUtils.js:37-55 | a key is a label exactly when some value has it (both directions); each label's count is the number of values with that key, so at least 1 |
| Aggregators.CategoricalOrder | frontend/src/components/utils/chartUtils.js:52 | labels appear in the order their keys first occur |
| Aggregators.BooleanSeed | frontend/src/components/utils/chartUtils.js:58 | `{ 'True': 0, 'False': 0 }` is a well-formed count object |
| Aggregators.BooleanKeys | frontend/src/components/utils/chartUtils.js:59-62 | one key per value |
| Aggregators.AggregateBooleanData | frontend/src/components/utils/chartUtils.js:57-64 | the `forEach` loop from the seed computes the boolean counts |
| Aggregators.BooleanShape | frontend/src/components/utils/chartUtils.js:57-64 | the labels are always ["True", "False"] in that order, counting the values that normalise to true and the rest |
| Aggregators.BooleanLookups | frontend/src/components/utils/chartUtils.js:60-61 | `counts.True` is the number of values that normalise to true and `counts.False` the number of the others |
| Aggregators.BooleanKeysIn | frontend/src/components/utils/chartUtils.js:61 | every value is counted under True or under False |
| Aggregators.TrueCount | frontend/src/components/utils/chartUtils.js:60-61 | the True and False keys occur as often as values normalise to true and to false |
| Aggregators.BooleanTotal | frontend/src/components/utils/chartUtils.js:57-64 | the two counts add up to the number of values |
| Aggregators.FoldGender | frontend/src/components/utils/chartUtils.js:44-50 | m/male, f/female and other/o in any case become Male, Female and Other; any other key is kept |
| Aggregators.CategoryKey | frontend/src/components/utils/chartUtils.js:41-50 | a value's key: its text, or "Unknown" when it has none or it is empty, then gender folding |
| Aggregators.CategoricalCounts | frontend/src/components/utils/chartUtils.js:37-55 | the counter `aggregateCategoricalData` returns: every value's key counted from an empty object |
| Aggregators.BooleanCounts | frontend/src/components/utils/chartUtils.js:57-64 | the counter `aggregateBooleanData` returns: every value counted under True or False from the seed `{True: 0, False: 0}` |
| Tally.Empty | frontend/src/components/utils/chartUtils.js:38 | `{}` has no keys |
| Tally.Bump | frontend/src/components/utils/chartUtils.js:52 | `counts[key] = (counts[key] \|\| 0) + 1` adds one to that key's count and leaves every other count alone |
| Tally.Put | frontend/src/components/utils/chartUtils.js:205 | `d[k] = v` sets that key, leaves the others, and appends a new key after the existing ones |
| Tally.PutIncrement | frontend/src/components/utils/chartUtils.js:214 | `aggregatedData[binLabel]++` on a seeded key is the same update as `(d[k] \|\| 0) + 1` |
| Tally.CountInto | frontend/src/components/utils/chartUtils.js:39-53 | the counting loop over any key function computes the tally of the mapped keys |
| Tally.Values | frontend/src/components/utils/chartUtils.js:225 | `Object.values(d)` has one count per key |
| Tally.TallyLookup | frontend/src/components/utils/chartUtils.js:52 | after counting, each key's count has grown by the number of times it occurs |
| Tally.TallyKeys | frontend/src/components/utils/chartUtils.js:224 | the keys after counting are the old keys and the counted elements, no others |
| Tally.TallyKeepsKeys | frontend/src/components/utils/chartUtils.js:224 | counting keeps the keys already present, in their order, at the front |
| Tally.TallySeededKeys | frontend/src/components/utils/chartUtils.js:205-214 | when every counted element already has a key, the keys do not change |
| Tally.TallyTotal | frontend/src/components/utils/chartUtils.js:226 | the counts add up to the old total plus the number of counted elements |
| Tally.TallyKeyOrder | frontend/src/components/utils/chartUtils.js:224 | keys are listed in the order of their first occurrence, after the keys the seed had |
| Binning.CeilSqrtShape | frontend/src/components/utils/chartUtils.js:197 | `Math.ceil(Math.sqrt(n))` is the least `r` with `r * r >= n` |
| Binning.CeilSqrt | frontend/src/components/utils/chartUtils.js:197 | the ceiling of the square root of a positive count is at least 1 |
| Binning.BinCount | frontend/src/components/utils/chartUtils.js:197 | a non-empty list gets between 1 and 5 bins |
| Binning.BinCountIsCeilSqrt | frontend/src/components/utils/chartUtils.js:197 | the bin count is `Math.min(5, Math.ceil(Math.sqrt(n)))` |
| Binning.BinCountFive | frontend/src/components/utils/chartUtils.js:197 | five bins are used exactly when there are more than 16 values |
| Binning.FirstBinFromShape | frontend/src/components/utils/chartUtils.js:209-216 | the inner loop's scan stops at the first bin holding the value, and finds none exactly when no bin holds it |
| Binning.BinLabels | frontend/src/components/utils/chartUtils.js:201-205 | one label per bin, bin `i` labelled by its start and end |
| Binning.SeqBounds | frontend/src/components/utils/chartUtils.js:194-195 | `Math.min(...values)` and `Math.max(...values)` are values of the list and bound all of them |
| Binning.BinSizeSpan | frontend/src/components/utils/chartUtils.js:196-198 | the bins together span the values: `binCount * binSize == max - min`, with a width that is never negative |
| Binning.BinTally | frontend/src/components/utils/chartUtils.js:193-218 | the filled bins form a well-formed count object |
| Binning.BinNumericValues | frontend/src/components/utils/chartUtils.js:194-218 | the two binning loops compute the bin tally of the values |
| Binning.CountValues | frontend/src/components/utils/chartUtils.js:208-218 | the outer loop counts every value's landing bin into the seeded bins |
| Binning.SeedBinLabels | frontend/src/components/utils/chartUtils.js:200-206 | the first loop creates every bin's label at 0, in bin order |
| Binning.CountInFirstBin | frontend/src/components/utils/chartUtils.js:209-217 | the inner loop counts the value in the first bin that holds it and stops |
| Binning.InSomeBin | frontend/src/components/utils/chartUtils.js:210-212 | bins of positive width tile `[min, min + count * size)`: a value there lies in bin `floor((v - min) / size)` |
| Binning.BinsDisjoint | frontend/src/components/utils/chartUtils.js:212 | no value lies in two bins, so the `break` loses nothing |
| Binning.MaxInNoBin | frontend/src/components/utils/chartUtils.js:212 | as written, the largest value lies in no bin |
| Binning.EqualValuesInNoHalfOpenBin | frontend/src/components/utils/chartUtils.js:196-212 | as written, when all values are equal the bins are empty ranges |
| Binning.ClosedBinsCover | frontend/src/components/utils/chartUtils.js:212 | with the last bin closed, every value between the bounds lies in a bin |
| Binning.HalfOpenBinIffBelowMax | frontend/src/components/utils/chartUtils.js:212 | as written, with values not all equal, a value lies in a bin if and only if it is not the largest |
| Binning.LandedHalfOpen | frontend/src/components/utils/chartUtils.js:208-218 | as written, exactly the values equal to the maximum land nowhere |
| Binning.LandedClosed | frontend/src/components/utils/chartUtils.js:208-218 | with the last bin closed, every value lands |
| Binning.LandedZeroWidth | frontend/src/components/utils/chartUtils.js:198-212 | as written, with zero-width bins no value lands |
| Binning.LandedInLabels | frontend/src/components/utils/chartUtils.js:213 | a value only ever lands in one of the seeded bins |
| Binning.BinLabelsDistinct | frontend/src/components/utils/chartUtils.js:204 | bins of positive width have distinct labels |
| Binning.BinTallyTotal | frontend/src/components/utils/chartUtils.js:224-226 | the total of the filled bins is the number of values that landed |
| Binning.BinTallyLabels | frontend/src/components/utils/chartUtils.js:224 | when the values are not all equal, the labels are the bins' ranges in bin order |
| Binning.HalfOpenTotal | frontend/src/components/utils/chartUtils.js:208-226 | as written, with values not all equal, the total misses exactly the values equal to the maximum |
| Binning.ClosedTotal | frontend/src/components/utils/chartUtils.js:208-226 | with the last bin closed, the total is the number of values |
| Binning.HalfOpenCounted | frontend/src/components/utils/chartUtils.js:208-226 | as written, the bins count every value below the maximum when the values are not all equal, and nothing when they are |
| Binning.EqualValuesTotal | frontend/src/components/utils/chartUtils.js:196-231 | as written, when all values are equal the total is 0, so the pie chart is null |
| Binning.OneTwoAsWritten | frontend/src/components/utils/chartUtils.js:193-226 | for the values 1 and 2 the bins count [1, 0] as written and [1, 1] with the last bin closed |
| Binning.BinParams | frontend/src/components/utils/chartUtils.js:194-198 | the bounds, bin count and bin size: at least one bin, zero width exactly when all values are equal, and every value between the bounds |
| SeriesValues.NumericValues | frontend/src/components/utils/chartUtils.js:329 | `values.filter(isNumeric).map(Number)` has one number per numeric cell |
| SeriesValues.NumericValuesFrom | frontend/src/components/utils/chartUtils.js:329 | a number is in the series exactly when some numeric cell has that value (both directions) |
| SeriesValues.NumbersKept | frontend/src/components/utils/chartUtils.js:363 | a column of plain numbers keeps every number, in place |
| SeriesValues.MeanBounds | frontend/src/components/utils/chartUtils.js:317 | a mean lies between any bounds of its numbers |
| SeriesValues.GroupKey | frontend/src/components/utils/chartUtils.js:305 | `label?.toString() \|\| 'Unknown'`: never empty, a non-empty string is its own key, a missing or empty label is "Unknown", and there is no gender folding |
| SeriesValues.GroupKeys | frontend/src/components/utils/chartUtils.js:304-305 | one key per label |
| SeriesValues.ValueAt | frontend/src/components/utils/chartUtils.js:309 | `values[idx]` past the end is undefined |
| SeriesValues.NumericValue | frontend/src/components/utils/chartUtils.js:309-310 | a number is pushed exactly when the cell is numeric, and it is `Number(cell)` |
| SeriesValues.Paired | frontend/src/components/utils/chartUtils.js:309-310 | label `i` pushes `Number(values[i])` exactly when that value exists and is numeric |
| SeriesValues.GroupedMeans | frontend/src/components/utils/chartUtils.js:314-318 | one mean per group key |
| SeriesValues.GroupNumbers | frontend/src/components/utils/chartUtils.js:303-312 | the grouping loop computes the groups after every label |
| SeriesValues.GroupBy | frontend/src/components/utils/chartUtils.js:304-312 | the loop, for any key function and any reading of the paired value |
| SeriesValues.AddLabel | frontend/src/components/utils/chartUtils.js:306-311 | the loop body: a new key gets an empty list, then the value's number when there is one |
| SeriesValues.GroupsAfterGrouped | frontend/src/components/utils/chartUtils.js:304-312 | after `n` labels the groups hold the keys met so far, in order, each with the numbers pushed for it |
| SeriesValues.GroupsComplete | frontend/src/components/utils/chartUtils.js:304-314 | after every label the keys are in first-occurrence order, and each list holds all numbers its labels pushed |
| SeriesValues.GroupStepKeeps | frontend/src/components/utils/chartUtils.js:305-311 | the loop body keeps the grouping invariant |
| SeriesValues.GroupedMeansData | frontend/src/components/utils/chartUtils.js:315-318 | the `map` over the grouped labels computes the grouped means |
| SeriesValues.GroupOrderKeys | frontend/src/components/utils/chartUtils.js:314 | the grouped labels are the labels' keys (both directions), each listed once |
| SeriesValues.PushedFrom | frontend/src/components/utils/chartUtils.js:309-310 | every number in a key's list is the numeric value paired with a label of that key |
| SeriesValues.GroupMeanBounds | frontend/src/components/utils/chartUtils.js:317 | each group's bar lies between the bounds of the numbers, and a group with no numbers shows 0 |
| SeriesValues.PointsOf | frontend/src/components/utils/chartUtils.js:403-406 | `min(labels, values)` points, point `i` at `x = i` with the `i`-th number as `y` |
| SeriesValues.ScatterPoints | frontend/src/components/utils/chartUtils.js:403-406 | the point loop computes those points |
| SeriesValues.Ys | frontend/src/components/utils/chartUtils.js:405 | the `y` of each point, in order |
| Binning.Landed | frontend/src/components/utils/chartUtils.js:208-218 | each value lands in at most one bin, so no more labels than values |
| Binning.HalfOpenLanded | frontend/src/components/utils/chartUtils.js:208-218 | as written, with values not all equal, the landed values are all but the copies of the maximum |
| Binning.ClosedLanded | frontend/src/components/utils/chartUtils.js:208-218 | with the last bin closed every value lands |
| Binning.OneTwoLanded | frontend/src/components/utils/chartUtils.js:208-218 | for the values 1 and 2, as written only 1 lands, in [1, 1.5); with the last bin closed 2 lands in [1.5, 2) |
| ChartEngine.KeyLabels | frontend/src/components/utils/chartUtils.js:224 | one chart label per counted key, in order |
| ChartEngine.RawLabels | frontend/src/components/utils/chartUtils.js:294 | one chart label per cell of the label column, in order |
| ChartEngine.CategoricalAggregate | frontend/src/components/utils/chartUtils.js:191 | the categorical counter has one count per label and counts every value |
| ChartEngine.BooleanAggregate | frontend/src/components/utils/chartUtils.js:189 | the boolean counter's labels are True and False and it counts every value |
| ChartEngine.CoerceAll | frontend/src/components/utils/chartUtils.js:194-195 | `Math.min(...values)` sees `Number(v)` of every value; it is NaN exactly when some value is NaN |
| ChartEngine.NumericAggregate | frontend/src/components/utils/chartUtils.js:192-218 | one count per bin; with no NaN value the bins count every value below the maximum, and nothing when all values are equal; with a NaN value nothing is counted (all bins are then `NaN-NaN`) |
| ChartEngine.NumericAggregateClosed | frontend/src/components/utils/chartUtils.js:212 | repaired: with the last bin closed, every value is counted when none is NaN |
| ChartEngine.NumericCounted | frontend/src/components/utils/chartUtils.js:192-218 | the bins count something exactly when no value is NaN and the values are not all equal, and then count all but the copies of the maximum |
| ChartEngine.CircularChart | frontend/src/components/utils/chartUtils.js:167-257 | throws exactly when there is no field; a drawn chart has the requested type, one dataset of counts with one colour per label, and a total that is the sum of the counts and never 0 (null when nothing was counted, as for a numeric column of equal values) |
| ChartEngine.CircularOfColumn | frontend/src/components/utils/chartUtils.js:176-256 | the chart of one column never throws; when drawn its dataset is named after the column and the total is the positive sum of the counts |
| ChartEngine.CircularOfType | frontend/src/components/utils/chartUtils.js:179-231 | for a column of type `t`: null exactly for `'string'` or when the counter counts nothing, and otherwise a total equal to the counter's sum |
| ChartEngine.TypedOutcome | frontend/src/components/utils/chartUtils.js:179-231 | for a column of type `t`: null exactly for `'string'`, or for `'numeric'` with a NaN value or all values equal; a drawn chart's total is the number of values, less the copies of the maximum for `'numeric'` |
| ChartEngine.CircularAggregate | frontend/src/components/utils/chartUtils.js:187-222 | the boolean and categorical counters count every value; the bins count the values below the maximum, none when all values are equal, and none when one is NaN |
| ChartEngine.CircularOf | frontend/src/components/utils/chartUtils.js:224-256 | the chart object carries the requested type, the counter's labels, its counts with one colour per label, and their total |
| ChartEngine.SingleFieldBar | frontend/src/components/utils/chartUtils.js:261-288 | one dataset named "Count of" the field, one count per label, counting every non-null value, one colour per label |
| ChartEngine.LabelsAsWritten | frontend/src/components/utils/chartUtils.js:343 | the label column cut to the first dataset's length |
| ChartEngine.CircularOutcome | frontend/src/components/utils/chartUtils.js:179-231 | no chart exactly when the column is empty, holds only empty cells, or is numeric with a NaN value or with all values equal (both directions); a drawn chart's total is the number of non-null values, less the copies of the maximum in a numeric column |
| ChartEngine.NumbersMakeCircularChart | frontend/src/components/utils/chartUtils.js:192-256 | a non-empty column of plain numbers gives a chart exactly when the numbers are not all equal (so `[5]` and `[3, 3]` give null), and its total leaves out the copies of the maximum |
| ChartEngine.BarChart | frontend/src/components/utils/chartUtils.js:260-351 | never null; throws exactly when there are rows and no field; one dataset per value field |
| ChartEngine.MultiBarShape | frontend/src/components/utils/chartUtils.js:290-349 | each value field's dataset is named after it and has its colour; for a categorical label column it holds one mean per group key, otherwise the column's numbers; in both cases the labels are the raw label column cut to the first dataset's length, bar `i` under raw label `i` |
| ChartEngine.GroupLabelsMatchMeans | frontend/src/components/utils/chartUtils.js:300-318 | repaired: the group-key labels are one per mean, each key once, and label `i` is the key of the rows whose numbers mean `i` averages |
| ChartEngine.GroupedBarLabelsAsWritten | frontend/src/components/utils/chartUtils.js:343 | for labels A, A, B with values 10, 20, 5 the means are [15, 5]; as written the labels are A, A, while the repaired labels are A, B |
| ChartEngine.LineChart | frontend/src/components/utils/chartUtils.js:354-386 | never null; throws exactly when there are rows and no field; one dataset per value field; the labels are the label column cut to the first dataset's length |
| ChartEngine.ValueNames | frontend/src/components/utils/chartUtils.js:424 | the value field names, in order |
| ChartEngine.ScatterChart | frontend/src/components/utils/chartUtils.js:391-426 | never throws; null exactly when there are fewer than two fields; one dataset per value field, with its name and colour, with points numbered from 0 and no more points than labels; the axes are the label field and the value names joined by ", " |
| ChartEngine.AutoChart | frontend/src/components/utils/chartUtils.js:119-164 | throws exactly when there are rows and no field; one field gives a pie for a categorical or boolean column and a bar chart otherwise; two fields give a bar chart for a categorical label column with numeric values, a line chart for other numeric values, and a bar chart otherwise, both types read from the unfiltered columns; any other field count gives a bar chart; only the pie can be null |
| ChartEngine.GenerateChartData | frontend/src/components/utils/chartUtils.js:80-116 | null for no rows, an unknown type, or a pie or doughnut without exactly one field; throws exactly when a bar, line or automatic chart has rows and no field; a drawn chart has the requested type, and never the type "auto"; the pie, bar and automatic branches are the as-written builders above |
| ChartEngine.ExampleGroupLabels | frontend/src/components/utils/chartUtils.js:304-314 | repaired, for labels A, A, B: the group keys are A and B, and so are the labels |
| ChartEngine.ExampleMeans | frontend/src/components/utils/chartUtils.js:304-318 | for labels A, A, B with values 10, 20, 5 the group means are 15 and 5 |
| ChartEngine.GroupLabels | frontend/src/components/utils/chartUtils.js:300-318 | repaired: the labels of a grouped bar chart are the group keys in order of first occurrence |
| ChartEngine.BarDataset | frontend/src/components/utils/chartUtils.js:297-340 | value field `index`: the group means under a categorical label column, else the numeric cells as numbers; named after the field, in its colour |
| ChartEngine.LineDataset | frontend/src/components/utils/chartUtils.js:361-374 | one value field's numeric cells as numbers, named after the field, in its colour |
| ChartEngine.ScatterDataset | frontend/src/components/utils/chartUtils.js:400-415 | one value field's points `{x: i, y}` for the numeric cells, as many as there are labels at most, in the field's colour |
| Csv.Split | frontend/src/hooks/useLocalStorage.js:192 | `split` gives at least one piece and no piece holds the separator |
| Csv.SplitJoin | frontend/src/hooks/useLocalStorage.js:192 | round trip: joining the pieces with the separator gives back the text |
| Csv.SplitNone | frontend/src/hooks/useLocalStorage.js:192 | a text without the separator is one piece |
| Csv.Lines | frontend/src/hooks/useLocalStorage.js:192 | every kept line has a non-space character and no line break |
| Csv.Fields | frontend/src/hooks/useLocalStorage.js:201-221 | the splitter always produces at least one field |
| Csv.FieldCount | frontend/src/hooks/useLocalStorage.js:206-219 | one field more than the commas outside quotes |
| Csv.FieldsClean | frontend/src/hooks/useLocalStorage.js:209-219 | no field holds a double quote and every field is trimmed |
| Csv.StripOuterQuotes | frontend/src/hooks/useLocalStorage.js:220 | the quote removal leaves a quote-free field alone and never lengthens a field |
| Csv.CsvFields | frontend/src/hooks/useLocalStorage.js:201-221 | `parseCSVLine` gives as many fields as the splitter |
| Csv.CsvFieldsAreFields | frontend/src/hooks/useLocalStorage.js:220 | the outer-quote removal never changes a field, since the splitter already dropped every quote |
| Csv.CsvFieldsShape | frontend/src/hooks/useLocalStorage.js:201-221 | one field more than the commas outside quotes, each trimmed and free of double quotes |
| Csv.InsideQuotes | frontend/src/hooks/useLocalStorage.js:209-215 | inside quotes every character but a quote is kept, commas included, until the closing quote |
| Csv.DoubledQuoteVanishes | frontend/src/hooks/useLocalStorage.js:209-210 | a doubled quote toggles the state twice and so vanishes: it does not stand for one quote |
| Csv.FieldsStep | frontend/src/hooks/useLocalStorage.js:207-216 | one character of the loop: a quote flips the state, a comma outside quotes ends a trimmed field, any other character is appended |
| Csv.ParseCsvLine | frontend/src/hooks/useLocalStorage.js:201-221 | the character loop computes the fields of the line |
| Csv.CsvValue | frontend/src/hooks/useLocalStorage.js:236-238 | a field becomes a number exactly when it is non-empty and `parseFloat` reads a number, that number; otherwise it stays the string |
| Csv.CsvValues | frontend/src/hooks/useLocalStorage.js:234-239 | one converted value per field |
| Csv.RowKeys | frontend/src/hooks/useLocalStorage.js:233-239 | a row has exactly the header names as keys (both directions) |
| Csv.RowValue | frontend/src/hooks/useLocalStorage.js:234-239 | each key holds the value of the last column with that name |
| Csv.BuildRowValue | frontend/src/hooks/useLocalStorage.js:234-239 | a column's converted value sits under its header unless a later column has the same header |
| Csv.BuildRowLoop | frontend/src/hooks/useLocalStorage.js:233-239 | the `forEach` over the headers builds that row |
| Csv.FieldLists | frontend/src/hooks/useLocalStorage.js:229 | the fields of each data line |
| Csv.DataRows | frontend/src/hooks/useLocalStorage.js:228-244 | never more rows than data lines |
| Csv.DataRowsAppend | frontend/src/hooks/useLocalStorage.js:232-243 | lines with the wrong field count are dropped and the others keep their order |
| Csv.DataRowKeys | frontend/src/hooks/useLocalStorage.js:232-240 | every emitted row has exactly the header names as keys |
| Csv.ParsedCsv | frontend/src/hooks/useLocalStorage.js:189-248 | fewer than two non-blank lines give no rows; otherwise there are fewer rows than lines, because the first is the header |
| Csv.OneLineNoRows | frontend/src/hooks/useLocalStorage.js:195-198 | a text with no line break gives no rows |
| Csv.ParseCsv | frontend/src/hooks/useLocalStorage.js:189-248 | the line loop computes the parsed rows |
| Csv.DataRowsLoop | frontend/src/hooks/useLocalStorage.js:228-244 | the rows loop computes the rows of the data lines |
| Csv.RowOf | frontend/src/hooks/useLocalStorage.js:234-239 | `headers.forEach(... row[header] = value)`: each header maps to its column's value, a later duplicate header overwriting an earlier one |
| Csv.BuildRow | frontend/src/hooks/useLocalStorage.js:233-239 | the row of a data line: the converted values under the headers |
| LocalStore.ParseJson | frontend/src/hooks/useLocalStorage.js:251-265 | throws exactly for `null`; an array as it is, else an array under `data`, else an array under `records`, else the value alone in a list |
| LocalStore.DataBeforeRecords | frontend/src/hooks/useLocalStorage.js:257-260 | an object with arrays under both `data` and `records` gives the `data` one |
| LocalStore.Serialise | frontend/src/hooks/useLocalStorage.js:286-299 | an entry without a `File` is written as it is; one with a `File` loses it and gains `hasFile: true` and the file's name, size and type, keeping every other property; the result never holds a `File` |
| LocalStore.SerialiseAll | frontend/src/hooks/useLocalStorage.js:286 | one serialised entry per entry, in order |
| LocalStore.SerialiseIdempotent | frontend/src/hooks/useLocalStorage.js:286-301 | what is written holds no `File`, so serialising it again changes nothing |
| LocalStore.Without | frontend/src/hooks/useLocalStorage.js:338-340 | exactly the entries without that id are kept (both directions), in order; with no such entry the list is unchanged |
| LocalStore.Updated | frontend/src/hooks/useLocalStorage.js:342-346 | every entry with that id gets the updates merged in, the others stay as they are |
| LocalStore.MergeKeeps | frontend/src/hooks/useLocalStorage.js:344 | `{...file, ...updates}` takes every updated property and keeps the rest |
| LocalStore.NewEntry | frontend/src/hooks/useLocalStorage.js:323-333 | the new entry has exactly the nine properties, status "success" and "uploaded", the `File`, the id, and the parsed rows or `null` |
| LocalStore.UploadedFiles.constructor | frontend/src/hooks/useLocalStorage.js:269-277 | the state starts from what local storage holds, else from `[]` |
| LocalStore.UploadedFiles.SetValue | frontend/src/hooks/useLocalStorage.js:279-305 | the state is set; a list is written to storage serialised; anything else is not written |
| LocalStore.UploadedFiles.Add | frontend/src/hooks/useLocalStorage.js:314-336 | the new entry is appended to the state of the render that created `setValue` (useLocalStorage.js:282), not to the latest state, and that list is written serialised |
| LocalStore.UploadedFiles.Remove | frontend/src/hooks/useLocalStorage.js:338-340 | the entries with that id are dropped from the render's state and the list is written serialised |
| LocalStore.UploadedFiles.Update | frontend/src/hooks/useLocalStorage.js:342-346 | the updates are merged into the entries with that id of the render's state and the list is written serialised |
| LocalStore.RemoveDuringUpload | frontend/src/hooks/useLocalStorage.js:282-340 | a file removed while an upload from the same render is in flight comes back, because the add applies to the state that render saw |
| LocalStore.AddedEntrySaved | frontend/src/hooks/useLocalStorage.js:286-296 | an added entry is written without its `File` but with its name, size and type |
| ChartBoard.Merge | frontend/src/components/DataVisualization/DataVisualization.jsx:151 | `{...c, ...updates}` keeps the id and takes the chart type, the title and the fields from the update when it carries them |
| ChartBoard.DefaultChart | frontend/src/components/DataVisualization/DataVisualization.jsx:46-73 | a file with columns starts with one automatic chart "Chart 1" of id 1 over its first two columns, or its only column twice; a file without columns gets none |
| ChartBoard.SampleRows | frontend/src/components/DataVisualization/DataVisualization.jsx:79-86 | the fallback sample has six rows |
| ChartBoard.MaxId | frontend/src/components/DataVisualization/DataVisualization.jsx:109 | `Math.max(...ids, 0)` bounds every id, is never negative, and is 0 or an id in use |
| ChartBoard.NewChart | frontend/src/components/DataVisualization/DataVisualization.jsx:133-138 | the appended chart has the new id, type "auto", the title "Chart " and the id, one field, and the hue `(id * 60) % 360` |
| ChartBoard.WithoutId | frontend/src/components/DataVisualization/DataVisualization.jsx:144 | never lengthens the list |
| ChartBoard.WithoutIdMembers | frontend/src/components/DataVisualization/DataVisualization.jsx:144 | the charts kept are exactly those with another id (both directions) |
| ChartBoard.WithoutIdDistinct | frontend/src/components/DataVisualization/DataVisualization.jsx:144 | removing an id keeps the ids distinct and, since they are distinct, drops at most one chart |
| ChartBoard.WithoutIdAbsent | frontend/src/components/DataVisualization/DataVisualization.jsx:144 | removing an id nobody has changes nothing |
| ChartBoard.WithoutGenerated | frontend/src/components/DataVisualization/DataVisualization.jsx:145 | the generated charts kept are exactly those with another id |
| ChartBoard.UpdatedCharts | frontend/src/components/DataVisualization/DataVisualization.jsx:151 | the chart with that id gets the update merged in, every other chart stays as it is |
| ChartBoard.UpdatedKeepsIds | frontend/src/components/DataVisualization/DataVisualization.jsx:151 | an update leaves every id in place, so distinct ids stay distinct |
| ChartBoard.DrawnConfigs | frontend/src/components/DataVisualization/DataVisualization.jsx:177-180 | never more drawn configurations than configurations |
| ChartBoard.DrawnBy | frontend/src/components/DataVisualization/DataVisualization.jsx:177-180 | never more drawn configurations than configurations, for any engine |
| ChartBoard.DrawnConfigsMembers | frontend/src/components/DataVisualization/DataVisualization.jsx:177-180 | a configuration is drawn exactly when the engine builds a chart for it (both directions) |
| ChartBoard.DrawnByMembers | frontend/src/components/DataVisualization/DataVisualization.jsx:177-180 | the same, for any engine |
| ChartBoard.ConfigsOf | frontend/src/components/DataVisualization/DataVisualization.jsx:205 | the configuration of each generated chart, in order |
| ChartBoard.GenerateFromDrawn | frontend/src/components/DataVisualization/DataVisualization.jsx:174-227 | the generated list holds exactly the drawn configurations, in order, whether or not tracking succeeded |
| ChartBoard.GenerateByDrawn | frontend/src/components/DataVisualization/DataVisualization.jsx:174-227 | the same, for any engine |
| ChartBoard.GenerateFromCharts | frontend/src/components/DataVisualization/DataVisualization.jsx:200-220 | each generated entry carries the chart the engine built for its configuration, under that configuration's id |
| ChartBoard.GenerateByCharts | frontend/src/components/DataVisualization/DataVisualization.jsx:200-220 | the same, for any engine |
| ChartBoard.GenerateNeverThrows | frontend/src/components/DataVisualization/DataVisualization.jsx:174-232 | when every configuration has a field, the engine never throws and the loop runs to the end |
| ChartBoard.GenerateByNeverCrashes | frontend/src/components/DataVisualization/DataVisualization.jsx:174-232 | the same, for any engine that never throws |
| ChartBoard.ChartBoard.constructor | frontend/src/components/DataVisualization/DataVisualization.jsx:14-17 | no file, no charts, nothing generated |
| ChartBoard.ChartBoard.LoadFileData | frontend/src/components/DataVisualization/DataVisualization.jsx:22-103 | a read file sets its rows and, if it has rows and columns, the single default chart; a failed read sets the sample and its chart; the generated charts are untouched and ids stay distinct |
| ChartBoard.ChartBoard.AddNewChart | frontend/src/components/DataVisualization/DataVisualization.jsx:108-139 | appends the new chart, with an id above every id in use, over the file's columns or `field1`/`field2` with no file; with an empty file reading the first row throws and nothing changes |
| ChartBoard.ChartBoard.RemoveChart | frontend/src/components/DataVisualization/DataVisualization.jsx:142-147 | with more than one chart, that id leaves both lists; the last chart is never removed |
| ChartBoard.ChartBoard.UpdateChart | frontend/src/components/DataVisualization/DataVisualization.jsx:150-152 | the update is merged into the chart with that id and nothing else changes |
| ChartBoard.ChartBoard.GenerateAllCharts | frontend/src/components/DataVisualization/DataVisualization.jsx:155-238 | without a file, charts or token nothing changes; otherwise the loop sets the generated list to the drawn charts in order, or leaves it when the engine throws |
| ChartBoard.NewIdIsFresh | frontend/src/components/DataVisualization/DataVisualization.jsx:109 | the new id is above every id in use, so the ids stay distinct |
| ChartBoard.GenerateStep | frontend/src/components/DataVisualization/DataVisualization.jsx:177-224 | one pass of the loop: a throw abandons it, no chart skips the configuration, and a chart is pushed with its tracking id |
| ChartBoard.GenerateFrom | frontend/src/components/DataVisualization/DataVisualization.jsx:177-227 | the list the generation loop builds, or none when the engine throws |
| ChartBoard.GenerateBy | frontend/src/components/DataVisualization/DataVisualization.jsx:177-227 | the same for any engine: a throw abandons the list, a null skips the configuration, and a chart is kept under its configuration's id with the tracked record's id |
| ChartConfiguration.Find | frontend/src/components/DataVisualization/ChartConfiguration.jsx:6 | `charts.find`: none exactly when no chart has that id (both directions); otherwise the first chart with that id |
| ChartConfiguration.AddField | frontend/src/components/DataVisualization/ChartConfiguration.jsx:5-19 | an update exactly for a found chart that is not a pie or doughnut, when a file is loaded; it appends a field over the first two columns (else `field1`/`field2`) with hue `(fields * 60) % 360` |
| ChartConfiguration.RemoveIndex | frontend/src/components/DataVisualization/ChartConfiguration.jsx:24 | `filter((_, index) => index !== i)` drops exactly field `i` and shifts the later ones; an index outside the list drops nothing |
| ChartConfiguration.RemoveField | frontend/src/components/DataVisualization/ChartConfiguration.jsx:21-27 | an update exactly for a found chart with more than one field, and never one that leaves no field |
| ChartConfiguration.ChangeType | frontend/src/components/DataVisualization/ChartConfiguration.jsx:65-87 | the update sets the type; switching to pie or doughnut with fields keeps only the first field, with both keys set to its `value \|\| label`; any other type leaves the fields |
| ChartConfiguration.Retitle | frontend/src/components/DataVisualization/ChartConfiguration.jsx:110 | the update carries the typed text as the title and no other property |
| ChartConfiguration.RetitleOnlyTitle | frontend/src/components/DataVisualization/ChartConfiguration.jsx:110 | merging a retitle changes only the chart's title, and of two retitles the later one wins |
| ChartConfiguration.CircularSwitchLeavesOneField | frontend/src/components/DataVisualization/ChartConfiguration.jsx:69-84 | after switching to pie or doughnut a chart has exactly one field whose keys agree, the single field the engine requires |
| ChartConfiguration.UpdateFieldAt | frontend/src/components/DataVisualization/ChartConfiguration.jsx:187-191 | field `i` is replaced and every other field kept |
| ChartConfiguration.EditsKeepAField | frontend/src/components/DataVisualization/ChartConfiguration.jsx:5-27 | when every chart has a field, no edit leaves a chart without one, so the engine's no-field throw is never reached |
| FieldSelector.Shown | frontend/src/components/DataVisualization/FieldSelector.jsx:16 | the picker shows `value \|\| label` for pie and doughnut charts, the label key for field 0 and the value key otherwise |
| FieldSelector.OnSelect | frontend/src/components/DataVisualization/FieldSelector.jsx:17-28 | choosing a column sets both keys on pie and doughnut charts, the label key for field 0 and the value key otherwise, and keeps the colour |
| FieldSelector.OnColor | frontend/src/components/DataVisualization/FieldSelector.jsx:50 | a colour change changes only the colour |
| FieldSelector.SelectThenShown | frontend/src/components/DataVisualization/FieldSelector.jsx:16-28 | round trip: the picker then shows the column just chosen |
| FieldSelector.SelectShownIsStable | frontend/src/components/DataVisualization/FieldSelector.jsx:16-28 | choosing the column already shown changes nothing outside pie and doughnut charts, and on those makes both keys that column |
| FieldSelector.ColorKeepsShown | frontend/src/components/DataVisualization/FieldSelector.jsx:16-50 | a colour change is invisible to the column picker |
| DataPreview.XmlMarkerRedundant | frontend/src/components/DataVisualization/DataPreview.jsx:38-45 | a value containing `<?xml` contains `<`, so that test adds nothing |
| DataPreview.IsNumberColumn | frontend/src/components/DataVisualization/DataPreview.jsx:195-197 | a column is Number exactly when one of its first five rows holds a number there |
| DataPreview.Preview | frontend/src/components/DataVisualization/DataPreview.jsx:3-213 | nothing without data or a selection; the format error exactly for a non-array or empty list; the XML error exactly when the first row has a suspicious string; otherwise the first ten rows, the number left over, and one type per column |
| DataPreview.OnlyFirstRowInspected | frontend/src/components/DataVisualization/DataPreview.jsx:35-47 | only the first row is inspected for XML |
| DataPreview.TypeIgnoresLaterRows | frontend/src/components/DataVisualization/DataPreview.jsx:195 | rows past the fifth never change a column's type |
| DataPreview.ShownPlusMore | frontend/src/components/DataVisualization/DataPreview.jsx:149-178 | the shown and left-over rows account for every row, and at most ten are shown |
| DataPreview.HasXmlContent | frontend/src/components/DataVisualization/DataPreview.jsx:38-45 | some string value of the row contains `<?xml`, `<`, `PK` or `Content_Types` |
| ChartController.DataPoints | backend/controllers/chartController.js:30 | `chartData?.datasets?.[0]?.data?.length \|\| 0`: the first dataset's length when there is one, else 0 |
| ChartController.Capitalised | backend/controllers/chartController.js:76 | first character upper-cased, the rest kept, length unchanged |
| ChartController.SavedDoc | backend/controllers/chartController.js:17-36 | the saved record: caller as owner, the request's title, type and data, description `Saved <type> chart` and tags `[type, "saved"]` by default, public only when asked, source `saved`, no source file, no downloads |
| ChartController.GeneratedDoc | backend/controllers/chartController.js:72-97 | the generated record: title `Generated <Type> Chart - <date>`, description naming the file or `data`, tags `["generated", type]`, private, source `generated`, no source file |
| ChartController.DownloadedDoc | backend/controllers/chartController.js:172-195 | the downloaded record: the request's title or `Downloaded <Type> Chart`, tags `["downloaded", type]`, private, source `downloaded`, counted once |
| ChartController.IndexOf | backend/controllers/chartController.js:126 | `findById`: none exactly when no record has that id, otherwise the first record with it |
| ChartController.AdminDownloadRefusedAsWritten | backend/controllers/chartController.js:476-478 | as written an admin is refused another user's chart, although the corrected rule lets the admin through |
| ChartController.DownloadMatchesTrackDownload | backend/controllers/chartController.js:132-134 | the corrected download rule is the owner-or-admin rule of `trackChartDownload`, and it admits everyone the written rule admits |
| ChartController.GetChart | backend/controllers/chartController.js:252-273 | 404 exactly for a missing id, 403 exactly when the caller neither owns the chart nor it is public, otherwise 200 with that chart |
| ChartController.UserCharts | backend/controllers/chartController.js:219-249 | an admin gets every record; anyone else exactly their own saved records; the order is kept |
| ChartController.PublicCharts | backend/controllers/chartController.js:451-462 | exactly the public records, in order |
| ChartController.DownloadAllAsWritten | backend/controllers/chartController.js:497-512 | as written every caller gets exactly their own records, and 404 exactly when they own none |
| ChartController.DownloadAll | backend/controllers/chartController.js:497-512 | corrected: an admin gets every record, 404 only when there are none; anyone else as written |
| ChartController.AdminDownloadAllAsWritten | backend/controllers/chartController.js:502 | as written an admin who owns no chart gets 404 while charts exist |
| ChartController.Owners | backend/controllers/chartController.js:422 | the set of owners is exactly the owners of some record |
| ChartController.OwnersBound | backend/controllers/chartController.js:422 | there are never more distinct owners than records |
| ChartController.Statistics | backend/controllers/chartController.js:416-438 | the total, the per-source counts, the public and private counts, the distinct owners and the records created after the cut-off |
| ChartController.StatisticsBounds | backend/controllers/chartController.js:416-427 | public plus private is the total, the three sources add up to at most the total, and neither owners nor recent records exceed it |
| ChartController.ChartStore.constructor | backend/models/Chart.js:3-69 | the chart collection starts as the given records |
| ChartController.ChartStore.Save | backend/controllers/chartController.js:6-57 | 400 exactly without a title, a type or data; 500 exactly for a type the schema refuses; otherwise 201 with the saved record appended and nothing else changed |
| ChartController.ChartStore.TrackGeneration | backend/controllers/chartController.js:60-118 | 400 exactly without a type or data; 500 exactly for a refused type; otherwise 201 with the generated record appended |
| ChartController.ChartStore.RecordDownloaded | backend/controllers/chartController.js:160-216 | 400 exactly without a type or data; 500 exactly for a refused type; otherwise 201 with the downloaded record appended |
| ChartController.ChartStore.CountDownload | backend/controllers/chartController.js:137-138 | only that record changes, and only its download count, which goes up by one |
| ChartController.ChartStore.TrackDownload | backend/controllers/chartController.js:121-157 | 404 exactly for a missing id, 403 exactly when the caller neither owns it nor is an admin, otherwise 200 with the count one higher and nothing else changed |
| ChartController.ChartStore.Download | backend/controllers/chartController.js:465-494 | 404 for a missing id, 403 exactly when the written rule refuses, so for anyone but the owner, admins included; otherwise 200: that record's download count goes up by one, nothing else in the collection changes, and the updated record is returned |
| ChartController.ChartStore.DownloadAsIntended | backend/controllers/chartController.js:465-494 | repaired: the same full new state and returned record, with the owner or an admin let through |
| ChartController.ChartStore.Delete | backend/controllers/chartController.js:311-344 | 404 for a missing id, 403 exactly when the caller neither is an admin nor owns it; otherwise exactly that record is removed and the reply says `admin` or `owner` |
| ChartController.ChartStore.Update | backend/controllers/chartController.js:276-308 | 404 for a missing id, 403 exactly for a non-owner; otherwise that record is replaced, keeping its id |
| ChartController.AdminMayDeleteNotUpdate | backend/controllers/chartController.js:288-326 | an admin who does not own a chart may delete it but not update it, and may read it only when it is public |
| ChartController.IsAdmin | backend/controllers/chartController.js:222 | a caller is an admin exactly when its role is `admin` |
| ChartController.ValidType | backend/models/Chart.js:13-17 | the chart types the schema's enum accepts: bar, line, pie, doughnut, radar and scatter |
| ChartController.MayRead | backend/controllers/chartController.js:264 | `getChart` lets the owner read any chart and anyone read a public one |
| ChartController.MayUpdate | backend/controllers/chartController.js:288 | `updateChart` lets only the owner through, admins included in the refusal |
| ChartController.MayDelete | backend/controllers/chartController.js:324 | `deleteChart` and `trackChartDownload` let an admin or the owner through |
| ChartController.MayDownload | backend/controllers/chartController.js:132 | repaired `downloadChart` rule: the owner or an admin, as in `trackChartDownload` |
| ChartController.MayDownloadAsWritten | backend/controllers/chartController.js:476 | `downloadChart` as written: the owner only, since no user record has `isAdmin` |
| HistoryController.OrDefault | backend/controllers/historyController.js:5-6 | `parseInt(q) \|\| fallback`: the fallback exactly for `NaN` or 0, otherwise the parsed number |
| HistoryController.CeilDiv | backend/controllers/historyController.js:17 | `Math.ceil(a / b)`: the least integer at or above the exact quotient, for either sign of the divisor |
| HistoryController.Pagination | backend/controllers/historyController.js:5-18 | page and limit default to 1 and 5 and are never 0; `skip` is `(page - 1) * limit`; for a positive limit the page count is the least number of pages that holds every upload |
| HistoryController.NoQueryDefaults | backend/controllers/historyController.js:5-7 | with no query: page 1 of size 5, nothing skipped |
| HistoryController.NegativePageKept | backend/controllers/historyController.js:5-7 | a negative page number is not corrected and gives a negative skip |
| HistoryController.HistoryPage | backend/controllers/historyController.js:9-12 | at most `limit` of the caller's own uploads, exactly the slice from `skip` of their uploads in sort order |
| HistoryController.PagesAdjacent | backend/controllers/historyController.js:9-12 | a page followed by the next one is the double-sized page: no upload is lost or shown twice between pages |
| FileRoutes.FileFilter | backend/routes/fileRoutes.js:10-20 | no error exactly for an Excel MIME type or a `.xls`/`.xlsx` name; otherwise the Excel-only refusal |
| FileRoutes.ErrorReply | backend/routes/fileRoutes.js:23-30 | passes on exactly when there is no error; a multer error answers 400 `File upload error`, any other error 400 with its message |
| FileRoutes.ExtensionSuffices | backend/routes/fileRoutes.js:14-15 | a `.xls` or `.xlsx` name passes whatever its MIME type |
| FileRoutes.RefusedIs400 | backend/routes/fileRoutes.js:18-27 | every refused file is answered 400 with the Excel-only message |
| FileRoutes.UpperCaseExtensionRefused | backend/routes/fileRoutes.js:12-15 | the suffix test is case-sensitive: `DATA.XLSX` with another MIME type is refused |
| FileRoutes.Accepts | backend/routes/fileRoutes.js:12-15 | the filter accepts either Excel MIME type, or a name ending in `.xls` or `.xlsx` (case-sensitive) |
| FileUploadForm.Validate | frontend/src/components/FileUploadForm.jsx:17-29 | a file is taken exactly when its MIME type is an Excel type and it is at most 5 MiB; the type is checked first, so a wrong type is reported as such whatever the size |
| FileUploadForm.FormChoiceServerAccepted | frontend/src/components/FileUploadForm.jsx:17-21 | every file the form takes also passes the server's upload filter |
| FileUploadForm.UploadForm.constructor | frontend/src/components/FileUploadForm.jsx:8-12 | no file, no error text, no status, progress 0 |
| FileUploadForm.UploadForm.HandleFileChange | frontend/src/components/FileUploadForm.jsx:14-35 | no selection changes nothing; a refused file sets only the error text; a taken file becomes the choice and clears the error and the status |
| FileUploadForm.UploadForm.HandleUpload | frontend/src/components/FileUploadForm.jsx:37-85 | nothing is sent without a file (the error asks for one); success sets the `success` status; a failure sets `error` and the server's message, else the error's, else the fixed one; the chosen file stays |
| FileUploadForm.UploadForm.RemoveFile | frontend/src/components/FileUploadForm.jsx:87-92 | the form is back to its initial state |
| UserHomePage.Validate | frontend/src/pages/UserHomePage.jsx:47-74 | over 10 MiB is refused for its size first; otherwise a file is taken exactly when its MIME type or its name (ignoring case) is CSV, Excel or JSON |
| UserHomePage.SizeCheckedFirst | frontend/src/pages/UserHomePage.jsx:54-57 | an over-sized file is refused for size even when its type is wrong too |
| UserHomePage.CsvTakenButRefused | frontend/src/pages/UserHomePage.jsx:60-70 | a CSV file the panel takes is refused by the server's Excel-only upload filter |
| UserHomePage.FirstSuccess | frontend/src/pages/UserHomePage.jsx:105-128 | none exactly when no endpoint answers, otherwise the first one that does |
| UserHomePage.FirstSuccessAt | frontend/src/pages/UserHomePage.jsx:105-128 | the loop's stopping point is one past the first answering endpoint, or all endpoints when none answers |
| UserHomePage.UploadPanel.constructor | frontend/src/pages/UserHomePage.jsx:13-28 | upload tab, no file, no error, no upload flag |
| UserHomePage.UploadPanel.HandleFileSelect | frontend/src/pages/UserHomePage.jsx:47-74 | no file changes nothing; a refused file sets the error and keeps the earlier choice; a taken file becomes the choice and clears the error |
| UserHomePage.UploadPanel.HandleUpload | frontend/src/pages/UserHomePage.jsx:76-174 | without a file only the error is set and nothing is posted; otherwise endpoints are tried up to the first that answers, the file is appended to the list state of the render that created the handler, either way; the choice is cleared and the page moves to the visualisation tab |
| UserHomePage.AllowedMime | frontend/src/pages/UserHomePage.jsx:60-65 | the four MIME types the panel accepts: CSV, both Excel types and JSON |
| UserHomePage.AllowedName | frontend/src/pages/UserHomePage.jsx:67 | the name ends in `.csv`, `.xlsx`, `.xls` or `.json`, in any case |
| AdminSettings.ValidateForm | frontend/src/pages/AdminSettingsPage.jsx:37-58 | the five checks in order (current given, new given, new at least 6 UTF-16 code units long, new equals confirmation, new differs from current), the first failure's message; passes exactly when all five hold |
| AdminSettings.AstralCharacterCountsTwice | frontend/src/pages/AdminSettingsPage.jsx:46 | four letters and an emoji are five characters but six code units, so that password passes the length check |
| Common.Utf16Length | frontend/src/pages/AdminSettingsPage.jsx:46 | `.length` of a string: between one and two units per character, and exactly one per character iff every character is in the Basic Multilingual Plane |
| AdminSettings.SamePasswordRefused | frontend/src/pages/AdminSettingsPage.jsx:54-57 | reusing the current password is refused even when everything else is in order |
| AdminSettings.SettingsForm.constructor | frontend/src/pages/AdminSettingsPage.jsx:10-20 | three empty fields, every password hidden |
| AdminSettings.SettingsForm.SetField | frontend/src/pages/AdminSettingsPage.jsx:22-28 | only the named field takes the value |
| AdminSettings.SettingsForm.Toggle | frontend/src/pages/AdminSettingsPage.jsx:30-35 | only the named visibility switch flips |
| AdminSettings.SettingsForm.Submit | frontend/src/pages/AdminSettingsPage.jsx:61-103 | sent exactly when the form is valid, else the check's message; success clears the three fields, a failure keeps them and shows the server's message or a fixed one |
| UserProfile.CheckPasswords | frontend/src/components/UserProfile.jsx:212-234 | all three fields required, then the match, then the length in UTF-16 code units, then a login token; sent exactly when all hold |
| UserProfile.GuardOrderDiffers | frontend/src/components/UserProfile.jsx:218-226 | a short, mismatched new password is a mismatch here and too short on the admin form |
| UserProfile.SamePasswordSent | frontend/src/components/UserProfile.jsx:212-234 | the profile sends a new password equal to the current one, which the admin form refuses |
| UserProfile.FailureMessage | frontend/src/components/UserProfile.jsx:256-262 | a refused connection or network error says the backend is down, else 401 says authentication failed, else the server's message or a fixed one |
| UserProfile.RefusedConnectionWins | frontend/src/components/UserProfile.jsx:256-257 | a refused connection is reported as the backend being down whatever else came with it |
| UserProfile.ProfilePanel.constructor | frontend/src/components/UserProfile.jsx:7-16 | the given profile, also as the edited copy; not editing; empty password fields; no messages |
| UserProfile.ProfilePanel.CancelEdit | frontend/src/components/UserProfile.jsx:150-153 | the edited copy is reset to the profile and edit mode is left; nothing else changes |
| UserProfile.ProfilePanel.ChangePassword | frontend/src/components/UserProfile.jsx:206-266 | sent exactly when the checks pass, else their error; success clears the three fields; a failure sets its message and keeps them; loading is off at the end |
| DashboardCharts.LoginDays | frontend/src/components/DashboardCharts.jsx:40-48 | at most one day per log |
| DashboardCharts.LoginDaysCount | frontend/src/components/DashboardCharts.jsx:40-48 | exactly one day per recent login entry |
| DashboardCharts.LoginDaysMembers | frontend/src/components/DashboardCharts.jsx:40-48 | a day is listed exactly when some recent login entry falls on it |
| DashboardCharts.Window | frontend/src/components/DashboardCharts.jsx:54-61 | 30 days, oldest first, ending today |
| DashboardCharts.WindowMembers | frontend/src/components/DashboardCharts.jsx:54-61 | a day is a bucket exactly when it is within the last 30 days |
| DashboardCharts.Kept | frontend/src/components/DashboardCharts.jsx:68-70 | only days that have a bucket are counted |
| DashboardCharts.KeptAppend | frontend/src/components/DashboardCharts.jsx:64-71 | keeping the days of two stretches of logs is keeping each in turn |
| DashboardCharts.KeptCount | frontend/src/components/DashboardCharts.jsx:68-70 | a day that has a bucket is kept as often as it occurs |
| DashboardCharts.SeedWindow | frontend/src/components/DashboardCharts.jsx:53-61 | the seeding loop makes the 30 window days the keys, each with count 0 |
| DashboardCharts.LoginData | frontend/src/components/DashboardCharts.jsx:33-76 | the 30 labels of the window and, for each, the number of recent logins on that day; the counts add up to the logins that found a bucket |
| DashboardCharts.Zeros | frontend/src/components/DashboardCharts.jsx:60 | every seeded count is 0 |
| DashboardCharts.CountedStart | frontend/src/components/DashboardCharts.jsx:53-61 | before any log is counted every bucket is 0 |
| DashboardCharts.BucketStep | frontend/src/components/DashboardCharts.jsx:64-71 | counting one more log adds one to its day's bucket when that day has one, and changes nothing otherwise |
| DashboardCharts.LoginTotalBound | frontend/src/components/DashboardCharts.jsx:40-71 | the buckets never hold more logins than were logged in the last month |
| DashboardCharts.WindowDayCounted | frontend/src/components/DashboardCharts.jsx:64-71 | every recent login on a window day is counted in its bucket |
| DashboardCharts.ActorName | frontend/src/components/DashboardCharts.jsx:92 | `log.username \|\| "Unknown"`: never empty, and the user name when there is one |
| DashboardCharts.RecentActors | frontend/src/components/DashboardCharts.jsx:85-94 | at most one name per log |
| DashboardCharts.RecentActorsCount | frontend/src/components/DashboardCharts.jsx:85-94 | exactly one name per recent entry |
| DashboardCharts.RecentActorsMembers | frontend/src/components/DashboardCharts.jsx:85-94 | a name is listed exactly when some recent entry carries it |
| DashboardCharts.UserActionData | frontend/src/components/DashboardCharts.jsx:78-98 | the labels are the count table's keys in insertion order and the data its counts |
| DashboardCharts.UserTotal | frontend/src/components/DashboardCharts.jsx:85-97 | the per-user counts add up to the number of entries in the last month |
| DashboardCharts.UserLabels | frontend/src/components/DashboardCharts.jsx:90-96 | a name is a label exactly when some recent entry carries it, and its count is the number of such entries, at least 1 |
| DashboardCharts.IsLoginAction | frontend/src/components/DashboardCharts.jsx:43-46 | the lowercased action contains login, signin, auth or logged |
| LogList.Insert | frontend/src/components/LogList.jsx:7-8 | one log more than before |
| LogList.SortNewestFirst | frontend/src/components/LogList.jsx:7-8 | the sorted copy has as many logs as the input |
| LogList.Show | frontend/src/components/LogList.jsx:7-28 | the no-activity message exactly for no logs, otherwise the sorted copy |
| LogList.InsertPermutes | frontend/src/components/LogList.jsx:7-8 | inserting adds exactly that log to the multiset |
| LogList.InsertMembers | frontend/src/components/LogList.jsx:7-8 | after inserting, the logs are the inserted one and the earlier ones |
| LogList.InsertKeepsOrder | frontend/src/components/LogList.jsx:8 | inserting into a newest-first list keeps it newest first |
| LogList.InsertStable | frontend/src/components/LogList.jsx:8 | the inserted log goes before every log of its own time and leaves the other times alone |
| LogList.SortPermutes | frontend/src/components/LogList.jsx:7-8 | the copy holds exactly the input logs, as often as they occur |
| LogList.SortOrders | frontend/src/components/LogList.jsx:8 | the copy is newest first |
| LogList.SortStable | frontend/src/components/LogList.jsx:8 | the logs of any one time keep their input order, as the built-in stable sort keeps them |
| LogList.SortedUnchanged | frontend/src/components/LogList.jsx:8 | logs already newest first are shown as they are |
| LogList.SortIdempotent | frontend/src/components/LogList.jsx:7-8 | sorting twice gives what sorting once does |
| LogList.TwoLogsExample | frontend/src/components/LogList.jsx:7-8 | two logs given oldest first are shown newest first |
| UserListPage.FilteredUsers | frontend/src/pages/UserListPage.jsx:62-68 | never more users than the list |
| UserListPage.FilteredUsersMembers | frontend/src/pages/UserListPage.jsx:62-68 | a user is shown exactly when the search (name or e-mail, ignoring case) and the role both match, in list order |
| UserListPage.NoFilterShowsAll | frontend/src/pages/UserListPage.jsx:62-68 | an empty search with every role shows the list as it is |
| UserListPage.ToggleBlocked | frontend/src/pages/UserListPage.jsx:39-41 | the list keeps its length |
| UserListPage.ToggleBlockedAt | frontend/src/pages/UserListPage.jsx:39-41 | only the users with that id change, and only in their block switch |
| UserListPage.ToggleTwice | frontend/src/pages/UserListPage.jsx:39-41 | flipping twice restores the list |
| UserListPage.WithoutUser | frontend/src/pages/UserListPage.jsx:55 | never more users than before |
| UserListPage.WithoutUserMembers | frontend/src/pages/UserListPage.jsx:55 | exactly the users with that id are dropped, the rest kept in order |
| UserListPage.UserList.constructor | frontend/src/pages/UserListPage.jsx:18-31 | the list as fetched |
| UserListPage.UserList.BlockToggle | frontend/src/pages/UserListPage.jsx:33-46 | an accepted request flips that user's block switch and reports success; a refused one changes nothing and reports the failure |
| UserListPage.UserList.DeleteUser | frontend/src/pages/UserListPage.jsx:48-60 | an informative toast first; an accepted request drops that user; a refused one changes nothing |
| FileListPage.FilteredFiles | frontend/src/pages/FileListPage.jsx:81-86 | never more files than the list |
| FileListPage.FilteredFilesMembers | frontend/src/pages/FileListPage.jsx:81-86 | a file is shown exactly when its name or its owner's name contains the search ignoring case, in list order |
| FileListPage.OwnerlessByNameOnly | frontend/src/pages/FileListPage.jsx:84-85 | a file without an owner name is found only by its file name |
| FileListPage.EmptyTermShowsAll | frontend/src/pages/FileListPage.jsx:81-86 | an empty search shows every file |
| FileListPage.WithoutFile | frontend/src/pages/FileListPage.jsx:65 | never more files than before |
| FileListPage.WithoutFileMembers | frontend/src/pages/FileListPage.jsx:65 | exactly the files with that id are dropped, the rest kept in order |
| FileListPage.PreviewRows | frontend/src/pages/FileListPage.jsx:154-175 | a table exactly for a chosen file with rows, showing its first rows, at most 10 |
| FileListPage.FileList.constructor | frontend/src/pages/FileListPage.jsx:25 | the list as fetched, nothing chosen |
| FileListPage.FileList.Preview | frontend/src/pages/FileListPage.jsx:73-75 | that file is chosen, the list unchanged |
| FileListPage.FileList.ClosePreview | frontend/src/pages/FileListPage.jsx:77-79 | nothing is chosen, the list unchanged |
| FileListPage.FileList.Delete | frontend/src/pages/FileListPage.jsx:58-71 | an accepted request drops that file and closes its preview when it was chosen; a refused one changes nothing; the toasts follow the outcome |
| AdminChartsPage.ErrorMessage | frontend/src/pages/AdminChartsPage.jsx:81-91 | 403, then 401, then a refused connection, then an unknown host, else the error's message after a fixed prefix |
| AdminChartsPage.FetchChartStats | frontend/src/pages/AdminChartsPage.jsx:33-95 | no token, an unreadable one or a non-admin role stop before any request; an unanswered health check stops after one; the list loads exactly for an admin with a healthy server and an answered request |
| AdminChartsPage.NonAdminNeverFetches | frontend/src/pages/AdminChartsPage.jsx:49-53 | a non-admin is turned away before any request, whatever the server would answer |
| AdminChartsPage.ServerRefusalLikeRoleCheck | frontend/src/pages/AdminChartsPage.jsx:49-82 | a 403 from the server reads the same as the page's own role check |
| AdminChartsPage.FilteredCharts | frontend/src/pages/AdminChartsPage.jsx:97-100 | `all` shows every chart; never more charts than the list |
| AdminChartsPage.FilteredChartsMembers | frontend/src/pages/AdminChartsPage.jsx:97-100 | any other filter shows exactly the charts of that source, in order |
| AdminChartsPage.SourceColor | frontend/src/pages/AdminChartsPage.jsx:102-109 | an unknown source gets the grey default |
| AdminChartsPage.SourceIcon | frontend/src/pages/AdminChartsPage.jsx:111-118 | an unknown source gets the bar-chart default |
| AdminChartsPage.SourceLegendDistinct | frontend/src/pages/AdminChartsPage.jsx:102-118 | each known source has a colour and an icon of its own, neither the default |
| UserChartsPage.FilteredCharts | frontend/src/pages/UserChartsPage.jsx:47-50 | never more charts than the list |
| UserChartsPage.FilteredChartsMembers | frontend/src/pages/UserChartsPage.jsx:47-50 | a chart is shown exactly when its title or its description contains the search ignoring case, in list order |
| UserChartsPage.UndescribedByTitleOnly | frontend/src/pages/UserChartsPage.jsx:49 | a chart without a description is found only by its title |
| UserChartsPage.EmptyTermShowsAll | frontend/src/pages/UserChartsPage.jsx:47-50 | an empty search shows every chart |
| UserChartsPage.LongerTermShowsFewer | frontend/src/pages/UserChartsPage.jsx:47-50 | a longer search never shows a chart the shorter one hides |
| UserChartsPage.PrefixContained | frontend/src/pages/UserChartsPage.jsx:48-49 | a text containing a longer search contains every prefix of it, ignoring case |

## Left out

- JavaScript number parsing is modelled on decimal notation only. Exponents, hex literals, `Infinity` and the text `NaN` are not recognised by `Number`, `parseFloat` or `parseInt` here, and floating-point rounding is not modelled (numbers are exact reals).
- `toLowerCase` folds only the ASCII letters A-Z, since the model has no Unicode case tables.
- Strings are sequences of Unicode characters. Only the password length checks count UTF-16 code units, through `Common.Utf16Length`; every other `.length`, `charAt` and `slice` on text (`ChartController.Capitalised`, the CSV splitter, the filters) is modelled on characters, which differs for characters outside the Basic Multilingual Plane.
- JsCoercion.NumText: number-to-text conversion has no exponent form. JavaScript prints numbers of magnitude from 1e21 up, or below 1e-6, as `1e+21`, `1e-7` and so on; the model's text is not that, so a label or group key made from such a number differs from the source's.
- JsCoercion.WholeNumText: a whole number always prints as plain digits here, while JavaScript prints whole numbers from 1e21 up in exponent form.
- LocalStore.UploadedFiles.Add, Remove and Update take the render's state `seen` as a parameter, so a lost interleaved update is expressible, but React's batching of several updates within one render and the scheduling of renders are not modelled. A state that is a JSON string, which `[...prev]` spreads into characters, is not modelled: the model treats every non-list state as one the updaters fail on.
- `Object.keys` is modelled as insertion order. JavaScript lists integer-like keys first in ascending order, so a counter whose keys are numerals lists its labels in a different order than modelled.
- Keys inherited from `Object.prototype` (such as `constructor`) are not modelled in the colour, icon and counter objects.
- `null` and `undefined` are one value, `Null`; the engine tests them alike everywhere.
- Bin labels built with `toFixed`, `hsl(...)` colour strings and percentage text are abstract values (`Range(start, end)`, `Hsl(hue)`), because their formatting is floating-point text.
- Binning.BinLabels: a bin's label is its exact range. The source labels a bin with its bounds in one decimal (`toFixed(1)`), so two bins narrower than 0.1 can share one label and one count; the model keeps them apart.
- Console logging is left out; it has no effect on results.
- `aggregateNumericData` (chartUtils.js:66-77) is unused and is not part of this model. Neither are the placeholder functions `exportChartAsImage`, `saveChartConfig` and `loadChartConfig`, which only wait on timers.
- `JSON.parse` and the spreadsheet reader: `parseFileData` (useLocalStorage.js:5-186) reads Excel files through the XLSX library and calls `JSON.parse`. Both are foreign code, so parsed documents and rows come in as values.
- Saving, downloading and exporting charts from the visualisation page (`saveChart`, `saveAllCharts`, `downloadChart`, `downloadAllChartsAsPDF`) are network calls, alerts and PDF/image rendering through html2canvas and jsPDF.
- The server's database queries are sequences. `sort({ createdAt: -1 })` is given as the order of the input sequence, and `.select`/`.populate` projections are not modelled.
- `getChartCounts` (chartController.js:347-405) repeats the statistics of `getAllCharts` with database counting queries and is not modelled. Its `uniqueUsers` reads `.length` of a query object, which is not a count.
- The mongoose schema's `chartType` enum check is modelled as the 500 answer of a failed save (models/Chart.js:13-17). Other schema validation, the log writer `logAction` and the database's own failures are left out.
- Upload progress percentages (FileUploadForm.jsx:61-66) are floating-point display values; the model only resets progress to 0.
- Timers (`setTimeout` clearing a message or the upload flag after three seconds) are left out.
- `loadUserProfile`, `loadUserStats`, `handleSaveProfile`, the data loaders `fetchUsers`/`fetchFiles`/`fetchCharts` and FileListPage's `handleDownload` are network calls whose results only fill state. The lists they fetch are constructor parameters.
- Toasts are kept as their kind and message.
- Dates are whole days (DashboardCharts) or milliseconds (LogList, chart records), given by the caller; `toLocaleDateString` and `setMonth` are not modelled. A log without a valid date never falls in a day bucket. LogList assumes every timestamp is a valid date (an invalid one compares as `NaN`).
- DataPreview's `formatValue` (`toLocaleString`) is display formatting and is left out.
- The generic members `Tally.CountInto`, `SeriesValues.GroupBy` and `ChartBoard.GenerateBy` take the per-item step as a function parameter. The source's counters, grouping and generation loop are these members applied to the source's own steps.
- Binning.BinCount: the bin count `Math.min(5, Math.ceil(Math.sqrt(n)))` is written as a table over the ranges of `n`. `Binning.BinCountIsCeilSqrt` proves it equal to the square-root form.
- HistoryController.HistoryPage: the page of uploads is modelled only for a non-negative skip and limit. A negative page or limit is passed to the database, whose treatment of it is not modelled; `HistoryController.Pagination` states the page count only for a positive limit.
- The grouping key of multi-field bar charts is the label's text (`label?.toString() || 'Unknown'`), with no gender folding, as the code computes it (chartUtils.js:305).
- A column whose cells are all missing is classified as `string` by `getDataType` (chartUtils.js:26-27), so it draws no pie.
- `onUploadSuccess(response.data)` (FileUploadForm.jsx:70-72) hands the server's answer to a callback the parent page supplies; that callback is not part of this model, and UploadForm.HandleUpload stops where the callback would be called.
- The two findings about the chart engine are modelled as written in the engine itself: the circular chart's bins drop the maximum, and grouped bar charts carry the raw labels. The repaired variants (`ChartEngine.NumericAggregateClosed`, `ChartEngine.GroupLabels`) stand beside them and are used by nothing else; the same holds for `ChartController.ChartStore.DownloadAsIntended` and `ChartController.DownloadAll`.

## Findings

| source | as written | input that shows it | evidently intended | confidence | as-written member | corrected member |
|---|---|---|---|---|---|---|
| frontend/src/components/utils/chartUtils.js:212 | every bin is half-open, `value >= start && value < end`, so the largest value lies in no bin | the values 1 and 2 give bins [1, 1.5) and [1.5, 2); 2 is counted nowhere and the chart shows one value of two | the last bin includes its end, so every value is counted | not executed | Binning.OneTwoAsWritten | ChartEngine.NumericAggregateClosed |
| frontend/src/components/utils/chartUtils.js:343 | the grouped bar chart's labels are the first label cells, as many as the first dataset has means | labels A, A, B with values 10, 20, 5 give the means [15, 5] under the labels [A, A] | the labels are the group keys the means belong to, [A, B] | not executed | ChartEngine.GroupedBarLabelsAsWritten | ChartEngine.GroupLabelsMatchMeans |
| backend/controllers/chartController.js:476 | the admin exception of `downloadChart` and `downloadAllCharts` tests `req.user.isAdmin`, a field the user record does not have (models/User.js:3-13), so it never applies | an admin downloading a chart owned by someone else is refused with 403 | admins pass, as in `trackChartDownload`, which tests `role === 'admin'` | not executed | ChartController.AdminDownloadRefusedAsWritten | ChartController.DownloadMatchesTrackDownload |
| backend/controllers/chartController.js:502 | `downloadAllCharts` gives an admin only the admin's own charts, for the same reason | an admin who owns no chart gets 404 while charts exist | an admin gets every chart | not executed | ChartController.AdminDownloadAllAsWritten | ChartController.DownloadAll |
