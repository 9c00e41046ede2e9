# Spot-price filter and inline-style extractor, modelled in Dafny

This project models two small programs of a personal web site.

**The EC2 spot-pricing page** (`content/ec2-spot-pricing/local.js`) loads a list of spot-price
records and draws the cheapest matching instance types as a bar chart. `getSeriesData` reads seven
filter controls. It then scans the records once, in order, and keeps a record only if it passes
seven tests:

- memory, vCPUs and memory per vCPU are each at least the given minimum;
- the instance type matches a case-insensitive regular expression;
- the generation is current, when the current-generation box is checked;
- the region is exactly the selected one;
- the architecture is the selected one, unless the selection is `"any"`.

The scan stops at 20 accepted records. It builds three index-aligned lists: `categories`,
`price` and `power`. Each point then gets a power class 0..4 by normalising its `power` between
the minimum and maximum of the accepted set. When all powers are equal, every point gets class 2.
`updateChart` hands the lists to the chart. `reset` puts the controls back to their defaults and
redraws.

- `SpotFilter` (`spot_filter.dfy`) holds the records, the filter values and the seven tests
  (`Accepts`). It also holds the reference definitions of the selection: every match
  (`Matching`), and the first `cap` matches (`FirstMatches`).
- `PowerBuckets` (`power_buckets.dfy`) holds `Math.min`/`Math.max` and the class formula
  (`PowerIndex`).
- `SpotSeries` (`spot_series.dfy`) states what `getSeriesData` computes (`Series`). It also holds
  the two loops, as methods proved equal to it (`ScanRows`, `AssignClasses`, `ComputeSeries`).
- `SpotPage` (`spot_page.dfy`) is the page's state: the loaded data, the controls, the global
  `seriesData` and what the chart was last given. Its methods are `getSeriesData`, `updateChart`,
  the filter-change handlers and `reset`.

**The inline-style extractor** (`content/homeprice/remove_inline_styles.py`) passes HTML through.
It replaces every `style="..."` attribute by a generated class `inline-style-N` and prints the
collected styles as a stylesheet at the end.

- `PyText` (`py_text.dfy`) models the Python string functions it relies on: `str.split()`,
  `' '.join` and `str(n)`.
- `AttrDict` (`attr_dict.dfy`) models the insertion-ordered Python `dict` of attributes.
- `InlineStyles` (`inline_styles.dfy`) holds the attribute escaping and serialisation, and the
  attribute rewrite. It also holds the parser class with `handle_starttag`, `handle_endtag` and
  the stylesheet loop.
- `Wrappers` (`wrappers.dfy`) holds `Option`, `Result` and `Outcome`.

Two collaborators are outside the model, so they are parameters:

- the browser's regular-expression engine: `PatternEngine`, with `compiles(p)` for whether
  `RegExp(p, "i")` succeeds and `test(p, s)` for the match;
- the tooltip formatter: `formatLabel`, which stands for string concatenation and `toFixed(4)`.

The lemmas about the default filters assume only that the empty pattern compiles and matches
everything (`EmptyPatternMatchesAll`). That is how JavaScript's engine behaves.

Some consequences of the code that a reader might not expect:

- `getSeriesData` empties the global `seriesData` (local.js:21) before `RegExp` can throw
  (local.js:23). After a malformed pattern, `seriesData` is therefore empty, while the chart keeps
  what it showed, because `updateChart` never reaches `setData` (local.js:56-58). See
  `SpotPage.PricingPage.GetSeriesData` and `UpdateChart`.
- Class 4 holds every point whose normalised power is from 4/5 up to and including 1. The clamp
  only folds the value 5 into 4. `PowerIndexBounds` states the exact boundaries.
- When all accepted powers are equal, every point gets class 2, so class 4 is not always used.
  `SeriesExtremesAttained` therefore needs min < max.
- The loop checks the cap at the top of each iteration (local.js:25). After the 20th acceptance it
  breaks without testing the next row, so the result is the first 20 matches
  (`FirstMatchesStopsAtCap`).

## Model

| member | source | states |
|---|---|---|
| `SpotFilter.Defaults` | content/ec2-spot-pricing/local.js:62-68 | the reset values: the three minimums 0, architecture "any", empty pattern, region "us-west-2", current generation off |
| `SpotFilter.Accepts` | content/ec2-spot-pricing/local.js:26-32 | definition: a row is kept when none of the seven `continue` tests fires; the properties are stated by `MatchingExactly`, `DefaultsAccept` and the two "Ignores" lemmas |
| `SpotFilter.FirstMatches` | content/ec2-spot-pricing/local.js:24-32 | definition: the rows kept by the scan, in dataset order, stopping once `cap` are kept; proved equal to the first `cap` matches by `FirstMatchesIsPrefixOfMatching` |
| `SpotFilter.Matching` | content/ec2-spot-pricing/local.js:24-32 | reference definition of every row passing the seven tests, in dataset order; never longer than the dataset |
| `SpotFilter.MatchingExactly` | content/ec2-spot-pricing/local.js:26-32 | a row is among the matches if and only if it is in the dataset and passes all seven tests |
| `SpotFilter.FirstMatchesBounded` | content/ec2-spot-pricing/local.js:25 | at most `cap` rows are accepted, and no more than the dataset has |
| `SpotFilter.FirstMatchesAccepted` | content/ec2-spot-pricing/local.js:26-32 | every accepted row is a dataset row that passes all seven tests |
| `SpotFilter.FirstMatchesIsPrefixOfMatching` | content/ec2-spot-pricing/local.js:24-32 | the accepted rows are exactly the first min(cap, #matches) matching rows, in dataset order: no earlier match is skipped and none is reordered |
| `SpotFilter.FirstMatchesCount` | content/ec2-spot-pricing/local.js:24-25 | with at least `cap` matches exactly `cap` rows are accepted; with fewer, every match is |
| `SpotFilter.FirstMatchesCapMonotone` | content/ec2-spot-pricing/local.js:25 | raising the cap keeps every row accepted under the lower cap, as a prefix in the same order |
| `SpotFilter.FirstMatchesStopsAtCap` | content/ec2-spot-pricing/local.js:24-25 | once `cap` rows are accepted from a prefix of the dataset, the rows after it do not influence the result |
| `SpotFilter.AnyArchitectureIgnoresArchitecture` | content/ec2-spot-pricing/local.js:32 | with the architecture filter "any", changing a row's architecture never changes whether it is accepted |
| `SpotFilter.CurrentGenOffIgnoresGeneration` | content/ec2-spot-pricing/local.js:30 | with the current-generation box unchecked, a row's generation flag never changes whether it is accepted |
| `SpotFilter.DefaultsAccept` | content/ec2-spot-pricing/local.js:26-32 | under the reset values a row is accepted if and only if it is in us-west-2 and its three numeric fields are not negative |
| `PowerBuckets.MinOf` | content/ec2-spot-pricing/local.js:43 | `Math.min` of a non-empty list is one of its elements and no element is smaller |
| `PowerBuckets.MaxOf` | content/ec2-spot-pricing/local.js:44 | `Math.max` of a non-empty list is one of its elements and no element is larger |
| `PowerBuckets.PowerIndex` | content/ec2-spot-pricing/local.js:46-50 | definition: the power class, class 2 when min is not below max; its properties are the `PowerIndex…` lemmas below |
| `PowerBuckets.Normalised` | content/ec2-spot-pricing/local.js:48 | definition: where a power lies between the minimum and the maximum, 0 at the minimum and 1 at the maximum; `NormalisedInUnit` bounds it and `PowerIndexBounds` ties the classes to it |
| `PowerBuckets.NormalisedInUnit` | content/ec2-spot-pricing/local.js:48 | `(power - min) / (max - min)` lies in [0, 1] for a power between the minimum and the maximum |
| `PowerBuckets.PowerIndexInRange` | content/ec2-spot-pricing/local.js:46-49 | a power between the minimum and the maximum gets a class in 0..4 |
| `PowerBuckets.PowerIndexBounds` | content/ec2-spot-pricing/local.js:48-49 | class b holds exactly the powers whose normalised value is in [b/5, (b+1)/5), class 4 also taking the value 1 |
| `PowerBuckets.PowerIndexMonotone` | content/ec2-spot-pricing/local.js:48-49 | when min < max, a larger power never gets a smaller class |
| `PowerBuckets.PowerIndexOfMax` | content/ec2-spot-pricing/local.js:49 | the maximum power gets class 4 (floor of 5 clamped to 4) |
| `PowerBuckets.PowerIndexOfMin` | content/ec2-spot-pricing/local.js:48-49 | the minimum power gets class 0 |
| `PowerBuckets.PowerIndexDegenerate` | content/ec2-spot-pricing/local.js:46-47 | when min is not below max, every power gets class 2 |
| `SpotSeries.EmptySeries` | content/ec2-spot-pricing/local.js:21 | definition: the series with all three lists empty, which `seriesData` is reset to; `GetSeriesData` states it is what remains after a pattern error |
| `SpotSeries.RawPoint` | content/ec2-spot-pricing/local.js:39-40 | definition: the point pushed for an accepted row, its label as name, its hourly price as y and no class yet; `ScanRows` states that the scan pushes it for each accepted row |
| `SpotSeries.ClassOf` | content/ec2-spot-pricing/local.js:43-50 | definition: a point's class among the accepted powers, as `PowerIndex` between their minimum and maximum |
| `SpotSeries.Build` | content/ec2-spot-pricing/local.js:38-52 | definition: the three lists built from the accepted rows, every point with its class |
| `SpotSeries.Series` | content/ec2-spot-pricing/local.js:13-53 | definition: what getSeriesData computes, the pattern error or the series of the first 20 matches; `ComputeSeries` is proved equal to it and the `Series…` lemmas state its properties |
| `SpotSeries.ComputeSeries` | content/ec2-spot-pricing/local.js:13-53 | getSeriesData: a malformed pattern fails with the pattern error before any row is scanned; otherwise the result is the series built from the first 20 matches |
| `SpotSeries.ScanRows` | content/ec2-spot-pricing/local.js:24-42 | the scan loop pushes, for exactly the first 20 matching rows in order, the instance type, a point with label and hourly price, and the power, at the same index |
| `SpotSeries.AssignClasses` | content/ec2-spot-pricing/local.js:43-52 | the class loop gives every point the class of its power between the minimum and maximum powers and changes nothing else |
| `SpotSeries.SeriesAligned` | content/ec2-spot-pricing/local.js:38-41 | categories, price and power have equal length, at most 20, and index k of each comes from the k-th accepted row |
| `SpotSeries.SeriesInvalidPattern` | content/ec2-spot-pricing/local.js:23 | the series fails if and only if the pattern does not compile, and then with that pattern's error |
| `SpotSeries.SeriesClassesInRange` | content/ec2-spot-pricing/local.js:45-51 | every point is assigned a class, and every class is in 0..4 |
| `SpotSeries.SeriesEqualPowers` | content/ec2-spot-pricing/local.js:46-47 | when every accepted row has the same power, every point gets class 2 |
| `SpotSeries.SeriesClassOrder` | content/ec2-spot-pricing/local.js:47-49 | classes never decrease with power; when min < max the maximal-power points get 4 and the minimal-power points 0 |
| `SpotSeries.SeriesExtremesAttained` | content/ec2-spot-pricing/local.js:47-49 | with a non-empty accepted set whose powers differ, some point gets class 4 and some class 0 |
| `SpotSeries.TwoRowScenario` | content/ec2-spot-pricing/local.js:24-52 | m5.large (power 10) and t3.micro (power 2) under the reset filters: both accepted in order, classes 4 and 0 |
| `SpotPage.PricingPage.Load` | content/ec2-spot-pricing/local.js:90-138 | after loading, the controls hold the reset values and the chart shows the default series, or is empty if the pattern fails |
| `SpotPage.PricingPage.GetSeriesData` | content/ec2-spot-pricing/local.js:13-53 | seriesData becomes the computed series; on a malformed pattern the exception is reported and seriesData is left empty |
| `SpotPage.PricingPage.UpdateChart` | content/ec2-spot-pricing/local.js:55-59 | the chart gets the new points and categories only when getSeriesData completed; after an exception it keeps what it had |
| `SpotPage.PricingPage.FilterChanged` | content/ec2-spot-pricing/local.js:82-88 | a control change stores the new filter values and redraws as updateChart does |
| `SpotPage.PricingPage.Reset` | content/ec2-spot-pricing/local.js:61-70 | the controls take the reset values and the chart shows the series for them, whatever the filters were before; with an engine for which "" matches everything it always completes |
| `PyText.IsSpace` | content/homeprice/remove_inline_styles.py:15 | definition: the characters `str.isspace()` accepts and `str.split()` splits on: U+0009-U+000D, U+001C-U+0020, U+0085, U+00A0, U+1680, U+2000-U+200A, U+2028, U+2029, U+202F, U+205F, U+3000; `Split` and `TokenLength` are stated over it |
| `PyText.TokenLength` | content/homeprice/remove_inline_styles.py:15 | the length of the leading run of non-whitespace: all of it non-whitespace, ending at the end or at whitespace |
| `PyText.Split` | content/homeprice/remove_inline_styles.py:15 | `str.split()` returns only non-empty tokens without whitespace |
| `PyText.Join` | content/homeprice/remove_inline_styles.py:17 | definition: the tokens separated by single spaces; `SplitJoin` proves `Split` undoes it |
| `PyText.SplitJoin` | content/homeprice/remove_inline_styles.py:15-17 | splitting the `' '.join` of tokens gives exactly those tokens back |
| `PyText.SplitJoinAppend` | content/homeprice/remove_inline_styles.py:15-17 | appending a token to the split class value and joining gives a value that splits into the old tokens, in order, then the new token |
| `PyText.Decimal` | content/homeprice/remove_inline_styles.py:13 | `str(n)` is a non-empty string of decimal digits, one digit exactly when n < 10 |
| `PyText.DecimalInjective` | content/homeprice/remove_inline_styles.py:13 | different counters have different decimal strings |
| `AttrDict.HasKey` | content/homeprice/remove_inline_styles.py:12 | definition: `k in d`, some entry has key k; `HasKeyAppend` states it for an appended entry and every AttrDict contract is stated over it |
| `AttrDict.Get` | content/homeprice/remove_inline_styles.py:15 | `d.get(k, default)` yields the default for a missing key and a value stored under k otherwise |
| `AttrDict.Set` | content/homeprice/remove_inline_styles.py:17 | `d[k] = v` adds k and no other key, keeps keys distinct, keeps the length for an existing key and appends a new one at the end |
| `AttrDict.SetInPlace` | content/homeprice/remove_inline_styles.py:17 | when the keys are distinct and k is present, `d[k] = v` replaces the entry of k where it stands and leaves every other entry at its position |
| `AttrDict.GetAfterSet` | content/homeprice/remove_inline_styles.py:17 | after `d[k] = v`, k maps to v and every other key to its old value |
| `AttrDict.Remove` | content/homeprice/remove_inline_styles.py:18 | `del d[k]` removes k, keeps every other key and keeps keys distinct |
| `AttrDict.GetAfterRemove` | content/homeprice/remove_inline_styles.py:18 | after `del d[k]`, every other key maps to its old value |
| `AttrDict.FromPairs` | content/homeprice/remove_inline_styles.py:11 | `dict(attrs)` has distinct keys, exactly the names of the pairs, and is empty exactly when the list is |
| `AttrDict.LastValue` | content/homeprice/remove_inline_styles.py:11 | definition: the value of the last pair with a given name, or a default |
| `AttrDict.FromPairsLastValue` | content/homeprice/remove_inline_styles.py:11 | in `dict(attrs)` a repeated name maps to the value of its last occurrence, and a name never given to the default |
| `AttrDict.FromDistinctPairs` | content/homeprice/remove_inline_styles.py:11 | when no name repeats, `dict(attrs)` keeps the pairs as they are, in order |
| `AttrDict.OthersAfterSet` | content/homeprice/remove_inline_styles.py:17 | setting `class` leaves every other entry and their order unchanged |
| `AttrDict.OthersAfterRemove` | content/homeprice/remove_inline_styles.py:18 | deleting `style` leaves every other entry and their order unchanged |
| `InlineStyles.Escape` | content/homeprice/remove_inline_styles.py:20 | the escaped value has no `"`; a value without `"` is unchanged |
| `InlineStyles.EscapeRoundTrip` | content/homeprice/remove_inline_styles.py:20 | a value without `&` is recovered by turning `&quot;` back into `"` |
| `InlineStyles.AttrString` | content/homeprice/remove_inline_styles.py:20-21 | definition: each attribute as a space, its name, `=` and its escaped value in double quotes, in dict order |
| `InlineStyles.AttrStringQuotes` | content/homeprice/remove_inline_styles.py:19-21 | the attribute string has exactly two `"` per attribute, its value's delimiters, so no raw `"` is inside a quoted value |
| `InlineStyles.StartTag` | content/homeprice/remove_inline_styles.py:24 | definition: `<`, the tag, the attribute string and `>` |
| `InlineStyles.StartTagNoAttributes` | content/homeprice/remove_inline_styles.py:19-24 | a tag without attributes has no style to move and is printed as `<tag>`, whatever the counter |
| `InlineStyles.ClassNameFor` | content/homeprice/remove_inline_styles.py:13 | a generated class name is a single class token (non-empty, no whitespace) |
| `InlineStyles.ClassNameForInjective` | content/homeprice/remove_inline_styles.py:13 | different counters give different class names |
| `InlineStyles.Restyle` | content/homeprice/remove_inline_styles.py:15-18 | definition: the class tokens with the new name appended, stored under `class`, then `style` deleted |
| `InlineStyles.Rewritten` | content/homeprice/remove_inline_styles.py:11-18 | definition: `dict(attrs)`, restyled when it has a `style`; `RewrittenAttributes` states its properties |
| `InlineStyles.RewrittenAttributes` | content/homeprice/remove_inline_styles.py:11-18 | the printed attributes never include `style` or repeat a name; on a styled tag the class tokens are the old ones in order followed by the new name, and every other attribute keeps its value and place; an unstyled tag keeps `dict(attrs)`, which is attrs itself when no name repeats |
| `InlineStyles.Separator` | content/homeprice/remove_inline_styles.py:38 | the separator line is 72 `=` characters |
| `InlineStyles.Rule` | content/homeprice/remove_inline_styles.py:40 | definition: `.`, the class name, ` {`, the style and `}` |
| `InlineStyles.RuleSelector` | content/homeprice/remove_inline_styles.py:40 | a rule's selector, read up to the first whitespace, is `.` followed by the generated class name |
| `InlineStyles.CollectedNamesDistinct` | content/homeprice/remove_inline_styles.py:13-14 | the collected class names are pairwise distinct, and the next one is new, so each store adds an entry at the end |
| `InlineStyles.StoreAppends` | content/homeprice/remove_inline_styles.py:13-14 | the next generated name is not yet a key of the styles, so `self.styles[classname] = style` appends the entry at the end of the dict |
| `InlineStyles.StyleExtractor.constructor` | content/homeprice/remove_inline_styles.py:6-8 | a new parser has collected no styles |
| `InlineStyles.StyleExtractor.HandleStartTag` | content/homeprice/remove_inline_styles.py:10-24 | a styled tag adds exactly one entry, named `inline-style-` followed by the number of earlier entries, holding the value of its last `style` attribute verbatim; an unstyled tag adds none; the printed line is the tag with its rewritten, escaped attributes |
| `InlineStyles.StyleExtractor.HandleEndTag` | content/homeprice/remove_inline_styles.py:26-28 | prints `</tag>` for every tag except `br`, for which it prints nothing |
| `InlineStyles.StyleExtractor.StyleSheet` | content/homeprice/remove_inline_styles.py:38-40 | the separator, then one `.name {style}` rule per collected style, in insertion order |

## Left out

- DOM access in local.js (lines 14-20 and 62-68): the control values are parameters of the model, typed as numbers, strings and a boolean. JavaScript's coercion of the control strings in the `<` comparisons is not modelled, including the empty string reading as 0 and a non-numeric string reading as NaN, which makes the comparison false.
- The regular-expression engine (local.js:23 and 29) is a foreign library. It is the `PatternEngine` parameter: whether a pattern compiles, and what it matches, case-insensitively.
- The tooltip label (local.js:33-37) uses number-to-string formatting and `toFixed(4)`. It is whatever the `formatLabel` parameter gives for the row, so the daily-price text is not modelled.
- JavaScript numbers are doubles; the model uses exact reals. The class formula is therefore exact, and rounding near a class boundary is not modelled.
- The `color: null` field of each point (local.js:40) is always null. It is not modelled.
- Highcharts setup and its rendering (local.js:73-79, 101-137) are not modelled. The chart is just the last points and categories it was given.
- Events before the dataset is loaded: the reset button and the control listeners are attached (local.js:81-88) before `$.getJSON` stores `data` (local.js:91). An event that arrives earlier empties `seriesData` and then throws a `TypeError` at the scan loop (local.js:24). A `PricingPage` exists only after `Load`, so the model assumes the data is loaded and this error path does not occur in it.
- The region list of the page (local.js:92-100) is user-interface plumbing and is not modelled.
- The "last updated" banner (local.js:7-10) reads the clock and is not modelled.
- `Math.min` and `Math.max` of an empty list are Infinity and -Infinity (local.js:43-44). The model uses 0 there. The values are never used, because the class loop does not run.
- get_data.py and update_spot_pricing_lambda.py are not part of this model. They produce the dataset through AWS calls, a thread pool and file writes.
- pelicanconf.py and parse_logs.py are not part of this model. One holds site configuration; the other does log-file I/O.
- The HTML tokenizer, `feed` and `sys.argv` file reading of remove_inline_styles.py (lines 33-36) are not modelled. The handlers take the tag name and the attribute pairs directly.
- `handle_data` (remove_inline_styles.py:30-31) echoes text unchanged. It is output plumbing and is not modelled.
- `print` is not modelled. Each handler returns the line it would print; `HandleEndTag` returns None where nothing is printed.
- Attributes without a value reach `handle_starttag` as None, and `v.replace` would raise. The model types every value as a string.
- InlineStyles.EscapeRoundTrip: holds only for values without `&`, because `&` is not escaped. A value holding the text `&quot;` is read back with a `"` in its place.
- InlineStyles.AttrStringQuotes: covers only attribute names without `"`. The tokenizer can pass such a name on unescaped.
