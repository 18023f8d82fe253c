# California Urban Opportunity Index — a verified model of the scoring core

Two Streamlit dashboards, `src/cali.py` and `app_ca.py`, compute an Urban
Opportunity Index (UOI) for every California county and draw it on a map.
Each dashboard does the same few steps:

1. It reads a county table and the US county-boundary GeoJSON, and keeps only
   the features whose `id` starts with "06" (California).
2. It gives every row a five-character fips code. `app_ca.py` takes the
   `GEOID` column first, then an existing `fips` column, then a look-up of the
   county name in the features. `src/cali.py` never looks at `GEOID`. Every
   code is then zero-padded to five characters (`zfill(5)`). A code that
   does not start with "06" becomes "06" followed by its last three
   characters.
3. It picks one of five preset weight vectors, or takes the nine custom
   sliders, and divides them by their total.
4. It standardises each of the nine indicators to a z-score,
   `(x - mean) / std`. The score is negated for unemployment, uninsured
   share, median rent and the Gini index, where more means less
   opportunity. `src/cali.py` does this in two loops (six indicators, then
   three). `app_ca.py` does it in one loop of nine.
5. It adds `UOI_custom`, the weighted sum of the nine standardised columns.
6. `app_ca.py` then drops Alpine County (fips "06003"). `src/cali.py`
   centres its colour scale on the mean of `UOI_custom`, and averages any
   indicator over the counties of a named region (`region_mean`).

The model is written in Dafny, one module per concern:

- `Strings` (`strings.dfy`): strip, upper-casing, `zfill` and suffixes, on
  ASCII characters.
- `Fips` (`fips.dfy`): the GeoJSON feature filter, the first-match name
  look-up as a loop, and the pad-and-repair step.
- `Weights` (`weights.dfy`): the presets, the preset selection and the
  normalisation. A zero custom total is an error (`None`). In the scripts
  the division by zero stops the run.
- `Scores` (`scores.dfy`): z-scores and the nine-term composite, as pure
  functions, with their statistical properties.
- `Table` (`table.dfy`): the rows, the resolution of the fips column, and
  the `Frame` class. `Frame` stands for the pandas data frame, which the
  scripts update in place. Its methods overwrite the fips column, run a
  z-score loop, add the composite and drop Alpine. `Table` also holds the
  region mean.
- `Dashboards` (`dashboards.dfy`): the two scripts' pipelines as methods on
  a `Frame` (`RunCa`, `RunCali`), and what their results satisfy. The main
  results:
  - every standardised column has mean 0 and sample variance 1;
  - standardising keeps each indicator's order, or reverses it for a negated
    indicator;
  - the composite is the weighted sum in every row, and its mean is 0;
  - the scored table is unique, so the two dashboards give the same table
    whenever the fips step picks the same source.

Each column's standard deviation is a parameter, `stds`, whose square must
equal the column's sample variance (denominator n - 1), as computed by
pandas' `Series.std()`. The boundary features of every state, the table
read from the CSV file and the slider values are parameters too; the
pipelines keep the Californian features themselves before any look-up.

## Model

| member | source | states |
|---|---|---|
| Fips.StateFeatures | app_ca.py:39-42 | keeps exactly the features whose `id` (or "" when absent) starts with "06"; the same filter is src/cali.py line 26 |
| Fips.StateFeaturesOrder | src/cali.py:26 | the filter keeps the features in their original order (it distributes over concatenation) and drops nothing from an all-Californian list |
| Fips.FirstMatchIndex | src/cali.py:32-34 | the index of the first feature whose upper-cased NAME equals the stripped, upper-cased county name: no earlier feature matches, and the one found does |
| Fips.FirstMatch | src/cali.py:30-35 | the look-up is None exactly when no feature matches; otherwise it is STATEFP + COUNTYFP of the first match |
| Fips.FipsLookup | app_ca.py:51-56 | the scanning loop returns on the first match, or None after the last feature; its result equals `FirstMatch` |
| Fips.StateLookup | src/cali.py:26-35 | looking a name up in the Californian features gives None exactly when no Californian feature matches, and otherwise the code of a Californian feature that matches |
| Fips.StateLookupExample | app_ca.py:39-56 | with an Arkansas and a California Nevada County in that order, the full list gives "05099" but the Californian features give "06057" |
| Fips.Repair | src/cali.py:38 | the result always starts with "06"; a code already starting with "06" is kept; any other code becomes "06" followed by its last three characters |
| Fips.RepairIdempotent | app_ca.py:61 | repairing a repaired code changes nothing |
| Fips.PadRepair | src/cali.py:37-38 | `zfill(5)` then repair: starts with "06", has at least five characters, has exactly five when the repair changed it, and keeps the padded code's last three characters |
| Fips.PadRepairIdempotent | app_ca.py:58-61 | normalising a normalised code changes nothing |
| Fips.PadRepairShortDigits | app_ca.py:47 | a digit string of at most five characters becomes a five-digit code that starts with "06" and keeps the padded county digits |
| Fips.PadRepairExamples | app_ca.py:60-61 | "1", "001" and "6001" all become "06001"; "06037" is kept |
| Fips.PadRepairOpt | src/cali.py:36-38 | a missing code stays missing; a found code becomes its `zfill(5)` form when that starts with "06", else "06" followed by that form's last three characters, so it always ends with the padded code's last three characters |
| Strings.ZFill | app_ca.py:49 | Python's `zfill`: a string shorter than the width gets leading zeros, after the sign when there is one; a string at least as long is unchanged |
| Strings.ZFillDigits | app_ca.py:58 | padding a digit string gives a digit string that ends with the original |
| Strings.Upper | app_ca.py:52 | same length; every lower-case ASCII letter becomes its upper-case letter (code point minus 32); every other character is kept |
| Strings.UpperEqual | src/cali.py:31-33 | two strings upper-case to the same string exactly when they have the same length and agree character by character up to ASCII case, which is the look-up's case-insensitive test |
| Strings.Strip | src/cali.py:31 | `strip` returns the slice of the name left after cutting whitespace from both ends; everything cut is whitespace and the result neither starts nor ends with whitespace |
| Strings.TrimStartSpec | src/cali.py:31 | `strip` removes exactly the leading whitespace: the result is a suffix that starts with a non-space, and everything removed is space |
| Strings.TrimEndSpec | src/cali.py:31 | the same for trailing whitespace |
| Table.SourceCa | app_ca.py:46-50 | GEOID is the source exactly when the table has a GEOID column; the fips column exactly when it has fips but no GEOID; the name look-up exactly when it has neither |
| Table.SourceCali | src/cali.py:29 | the six-indicator dashboard never takes GEOID; it takes the fips column exactly when the table has one |
| Table.SourcesAgree | app_ca.py:46-50 | without a GEOID column both dashboards take the same source; with one, only `app_ca.py` takes GEOID first |
| Table.Resolved | app_ca.py:46-61 | resolution changes only the fips code; the new code is the padded-and-repaired value of the chosen source (the GEOID, the fips value, or the first matching feature's code); it is missing exactly when the fips column held none or the look-up matched nothing, and a present code starts with "06" and has at least five characters |
| Table.ResolvedLookupExact | app_ca.py:51-61 | a county matched to a feature whose code is five characters starting with "06" gets exactly that code |
| Table.ResolvedGeoid | app_ca.py:47 | a GEOID of at most five digits gives a five-digit code starting with "06" that keeps its county digits |
| Table.ResolvedIdempotent | app_ca.py:48-49 | resolving a resolved table again from its own fips column changes nothing |
| Table.Frame.ResolveFips | src/cali.py:29-38 | overwrites the fips code of every row, in order, with the resolved code from the given source; the numeric columns are untouched |
| Table.Frame.ResolveFipsCa | app_ca.py:45-61 | the rows become the rows resolved with the GEOID, then fips, then name precedence |
| Table.Frame.ResolveFipsCali | src/cali.py:28-38 | the rows become the rows resolved with the fips, then name precedence |
| Table.Frame.SetColumn | app_ca.py:115 | `df[key] = vals`: the column is set row by row and added to the columns |
| Table.ColumnWithColumn | app_ca.py:121 | after setting a column, reading it gives the values written, and every other column reads as before |
| Table.ColumnResolved | app_ca.py:61 | resolving the fips codes leaves every numeric column as it was |
| Table.Frame.AddZScores | src/cali.py:83-97 | one z-score loop: for each listed indicator that is a column, `Z_<col>` holds its z-scores, negated for the listed indicators; absent ones are skipped; nothing else changes |
| Table.Frame.StandardiseStep | app_ca.py:111-117 | one loop pass keeps the loop invariant: the `Z_` columns of the indicators done so far hold their targets |
| Table.Frame.AddComposite | app_ca.py:121-131 | `UOI_custom` is set to every row's weighted sum of its nine standardised values, and nothing else changes |
| Table.Frame.DropAlpine | app_ca.py:134 | the rows become the rows without fips "06003" |
| Table.ExcludeAlpine | app_ca.py:134 | a row survives exactly when its fips is not "06003" |
| Table.ExcludeAlpineSpec | app_ca.py:133-134 | the exclusion keeps the other rows in order (it distributes over concatenation), keeps as many rows as are not Alpine, and removes nothing from a table without Alpine |
| Table.Composites | app_ca.py:121-131 | one composite per row, each the dot product of that row's nine z-values with the weights |
| Table.CompositesSpec | src/cali.py:115-125 | a row's composite equals c when all nine of its z-values are c and the weights sum to 1 |
| Table.CompositesSum | app_ca.py:121-131 | the composite column sums to the weighted sum of the nine column sums |
| Table.RegionRows | src/cali.py:203 | `isin`: exactly the rows whose fips code is in the region's list, each taken from the table, with as many rows as the table has region rows |
| Table.RegionRowsOrder | src/cali.py:203 | the region's rows keep their table order (the selection distributes over concatenation) and a table lying wholly in the region is kept as it is |
| Table.RegionColumn | src/cali.py:203-204 | the indicator's values over the region's rows: one per region row, each that row's value, in table order |
| Table.RegionMean | src/cali.py:201-204 | `region_mean` has no value (pandas gives NaN) exactly when no row lies in the region; otherwise it is the indicator's total over the region's rows divided by their number |
| Table.RegionMeanExample | src/cali.py:201-204 | two region rows with values 1 and 3, around a row outside the region with value 5, have mean 2 |
| Table.RegionMeanIgnoresOthers | src/cali.py:201-204 | rows outside the region, wherever they stand, do not change its mean |
| Table.RegionMeanBounds | src/cali.py:204 | bounds on the region's values bound its mean |
| Weights.Select | src/cali.py:46-62 | a preset name yields one of the five preset vectors; any other name yields the nine slider values |
| Weights.PresetsSumToOne | app_ca.py:72-83 | every preset is nine weights in [0, 1] summing to exactly 1 |
| Weights.Normalise | src/cali.py:65-66 | fails exactly when the list is nonempty and sums to 0; otherwise each weight times the total is the input weight |
| Weights.NormaliseSumsToOne | app_ca.py:93-94 | normalised weights sum to 1 |
| Weights.NormaliseKeepsRatios | app_ca.py:94 | normalisation keeps the ratio between any two weights |
| Weights.NormaliseInUnitRange | src/cali.py:62-66 | with slider values in [0, 1] and a positive total, every normalised weight is in [0, 1] |
| Weights.NormaliseFixesUnitSum | src/cali.py:65-66 | a vector that already sums to 1 is returned unchanged, so the presets are used exactly as written |
| Weights.Resolve | app_ca.py:72-95 | a successful resolution always gives nine weights, ready to unpack |
| Weights.ResolveSpec | app_ca.py:72-95 | resolution fails exactly for the custom entry with all sliders at 0; a preset resolves to itself; a success is nine weights in [0, 1] summing to 1 |
| Scores.SplitLoopsAgree | src/cali.py:83-112 | the two loops visit the nine indicators of the single loop, in order and with the same polarity, and share no indicator |
| Scores.ZScores | app_ca.py:114-117 | one z-score per value, and each z-score times the standard deviation is the value's deviation from the column mean, negated for a negated indicator |
| Scores.SignedDeviationsSumZero | src/cali.py:95-97 | deviations from the mean sum to 0, whatever their common sign |
| Scores.ZScoresSumZero | app_ca.py:115-117 | a standardised column sums to 0, so its mean is 0 |
| Scores.ZScoresOrder | app_ca.py:114-117 | standardising keeps the order of a positive indicator, both `<` and `<=`, and reverses it for a negated one |
| Scores.ZScoresUnitVariance | src/cali.py:110-112 | when `std` squared is the sample variance, the standardised column has sample variance 1 |
| Scores.Uoi | src/cali.py:115-125 | the nine-term expression equals the dot product of the z-values with the weights |
| Scores.UoiOfConstant | app_ca.py:121-131 | when all nine z-values equal c and the weights sum to 1, the composite is c |
| Scores.UoiLinearInValue | app_ca.py:121-131 | raising one z-value by d raises the composite by its weight times d, so it rises when both are positive |
| Scores.UoiLinearInWeight | src/cali.py:115-125 | raising one weight by d changes the composite by the z-value times d |
| Dashboards.StandardiseNine | app_ca.py:105-117 | the single nine-indicator loop leaves the table standardised: the nine `Z_` columns are the z-scores of the raw columns, and nothing else changes |
| Dashboards.StandardiseSplit | src/cali.py:83-112 | the six-then-three loops leave the table standardised in exactly the same sense |
| Dashboards.SplitPassStaged | src/cali.py:99-112 | the two passes together add exactly the nine columns, each holding its z-scores |
| Dashboards.FirstPassKeepsStds | src/cali.py:83-97 | the first loop leaves the raw columns alone, so the standard deviations still describe the table |
| Dashboards.ScoreNine | app_ca.py:105-131 | z-scores, then the composite: the frame is the scored table |
| Dashboards.ScoreSplit | src/cali.py:83-125 | the same for the two-loop dashboard |
| Dashboards.RunCa | app_ca.py:39-134 | looks names up only in the Californian features; succeeds exactly when the weights resolve; on failure the frame holds only the resolved fips codes; on success it is the resolved table scored over all counties, then filtered of Alpine |
| Dashboards.RunCali | src/cali.py:26-125 | looks names up only in the Californian features; succeeds exactly when the weights resolve; on success the frame is the resolved table, scored |
| Dashboards.ZStagedUnique | app_ca.py:105-117 | the standardised table is determined by its input, whichever loops built it |
| Dashboards.ScoredUnique | src/cali.py:83-125 | the scored table is determined by its input, the weights and the standard deviations |
| Dashboards.DashboardsAgree | app_ca.py:46-131 | without a GEOID column the two dashboards score the table identically |
| Dashboards.ScoredColumnsStandard | app_ca.py:114-117 | in the scored table every `Z_` column has mean 0 and sample variance 1 |
| Dashboards.ScoredColumnsOrder | src/cali.py:94-97 | in the scored table every `Z_` column orders the counties as the raw indicator does, or in reverse for a negated one |
| Dashboards.ScoredComposite | app_ca.py:121-131 | every scored row's `UOI_custom` is the weighted sum of its own nine z-values |
| Dashboards.ScoredCompositeMeanZero | src/cali.py:136 | `UOI_custom` has mean 0 for any weights, so the colour midpoint `df["UOI_custom"].mean()` is 0 |

## Left out

- Reading the CSV file, fetching the GeoJSON over the network, and all
  Streamlit widgets and plotly figures (the map, the bar charts, the county
  tables, the layout). The table, the features and the slider values are
  parameters.
- Floating point. All arithmetic is on exact reals, so rounding in the
  means, in the divisions and in the weight total is not modelled.
- The square root in `Series.std()`. The standard deviation of each column
  is a parameter whose square equals the sample variance.
- Missing values and NaN. Every indicator value is present. The zero-variance
  case (pandas divides by 0 and yields NaN) is excluded by requiring a
  positive standard deviation. Tables of fewer than two counties, where
  pandas' sample deviation is NaN, are excluded too.
- A table that lacks one of the nine indicators raises a KeyError in the
  composite step of both scripts. `RunCa` and `RunCali` therefore require
  all nine. `AddZScores` does model the skip of an absent indicator.
- Text conversion by `astype(str)`. A missing fips value (`None` in the
  row) stands for an empty cell of the fips column. pandas reads that cell
  as NaN, which `astype(str)`, `zfill` and the repair turn into "06nan".
  A failed look-up is also kept as a missing code. In the scripts it becomes
  the text "None", which is padded and repaired to "06one". Neither text
  matches a feature, a region or the Alpine code, so both behave like the
  missing code. A numeric fips column such as `6001.0` is not modelled:
  codes are already text.
- Unicode case mapping and whitespace in `strip` and `upper`. Only ASCII
  letters are upper-cased and only ASCII whitespace is stripped.
- The region lists of `src/cali.py` (lines 168-182) and the county-to-county
  comparison. `RegionMean` takes the list of codes as a parameter.
- The standard deviation follows the code, which uses pandas' sample
  deviation (denominator n - 1), rather than a population deviation.
- Alpine County is excluded after scoring, as `app_ca.py` does. It therefore
  still contributes to the means and deviations.
- Table.Key: a CSV column that is literally named `Z_<indicator>` or
  `UOI_custom` is kept apart from the computed columns of that name. In
  pandas the computed column would overwrite it.
