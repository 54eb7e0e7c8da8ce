# San Mateo neighbourhood map: the non-rendering logic, in Dafny

The map page (`script.js`) colours neighbourhood polygons by the share of residents
over 65 or by an estimate of the median income bin. It can merge neighbourhoods
into named groups, and it sums the demographics of the neighbourhoods the user
clicks. This project models the computations behind that, leaving out the map
library and the DOM:

- `AgeScale` (`age_scale.dfy`): `getAgeColor`, a highest-first scan of the
  thresholds 30/20/15/10/5/2 with a strict `>` and a fallback colour. The share
  over 65 is a `real`, and lemmas restate each band as an integer comparison
  `over65 * 100 > k * total`.
- `IncomeScale` (`income_scale.dfy`): `getIncomeColor` and
  `getMedianIncomeBin`. The estimate's loop is the method `ScanBins`. It is
  proved equal to the function `MedianScan`, and the lemmas prove what the
  estimate means: it is the first bin whose cumulative count reaches half the
  total. Because the counts are non-negative, the scan never returns "N/A".
- `Buckets` (`buckets.dfy`): bucket tables (`label -> count`). An absent label
  counts as 0, which is the source's `table[key] || 0`.
- `Groups` (`groups.dfy`): the group table, `hasOwnProperty` lookup, and
  `new Set(list)`.
- `Merge` (`merge.dfy`): `mergeDemographics`. It keeps the first member's
  buckets and sums each bucket over all members. When it throws is modelled as
  an error result.
- `Selection` (`selection.dfy`): the selection loop of
  `updateSidebarForSelection`. It skips names without a record, copies the
  first record found, then adds every later record over the union of the keys.
- `ViewState` (`view_state.dfy`): a class `MapView` holding the page's mutable
  state: colour mode, grouped or single view, and the selected names. Its
  methods are the click toggle, the remove and close buttons, the colour-mode
  switch and the zoom handler.
- `Grouping` (`grouping.dfy`): the grouping pass of `loadGeoJSON`.
  - Features are objects of a class `Feature` whose name can be changed in place.
  - `turf.union` is represented by `UnionOf`, a free constructor standing for the
    library's union; equalities between real unions are not reflected.
  - The output is specified at value level: a list of pieces, each either an
    input feature (by position) or a new merged feature.
  - The loop exactly as written is `LoadFeaturesAsWritten`. The corrected loop
    is `LoadFeatures`. See "Findings".

An income table whose bins are all zero never reaches the `return "N/A"` at
script.js:104: the code returns the lowest bin, "Less than $50,000", because
`0 >= 0 / 2` holds at the first bin (`IncomeScale.MedianBinAllZero`). With
non-negative counts that return is unreachable altogether
(`IncomeScale.MedianBinIsFirstHalf`).

The group table is a sequence of (name, members) entries in file order. A JSON
object cannot hold the same group name twice, so the properties are meant for
tables whose group names are distinct. On a table that repeats a name,
`Groups.Lookup` takes the first entry and both group loops process every entry.

## Model

| member | source | states |
|---|---|---|
| AgeScale.AgeColor | script.js:67-75 | the colour is one of the seven blues, and it is blue `i` exactly when the percentage is strictly above threshold `i` and at or below the threshold before it |
| AgeScale.AgeColorMonotone | script.js:67-75 | a higher percentage never gets a lighter blue than a lower one |
| AgeScale.AgeColorBoundaries | script.js:67-75 | the thresholds are strict: exactly 30 gets `#2171b5`, exactly 20 gets `#4292c6`, anything at or below 2 gets `#d9ecff`, and anything above 30 gets `#08306b` |
| AgeScale.PercentOver65 | script.js:125-127 | `over65 / ageTotal * 100` lies between 0 and 100 when `over65` is part of the total |
| AgeScale.ExceedsIff | script.js:127 | the percentage exceeds a bound `k` exactly when `over65 * 100 > k * total` |
| AgeScale.AgeColorOfCounts | script.js:125-129 | the colour of a count-based share is decided by integer comparisons of `over65 * 100` with `threshold * total`, both band edges stated |
| IncomeScale.IncomeColor | script.js:77-86 | each of the six bin labels gets its own palette colour, and every other string gets `#f2efe7` |
| IncomeScale.IncomeColorDistinct | script.js:77-86 | the six bins get six different colours, none of them the neutral one, and "N/A" gets the neutral colour |
| IncomeScale.FindMedianBin | script.js:89-105 | the loop returns `MedianBin(income)`, the estimate over the six bins with the total over the six bins |
| IncomeScale.ScanBins | script.js:99-104 | the running-cumulative loop returns the label of the bin where `MedianScan` stops, and "N/A" past the last bin |
| IncomeScale.MedianScanStopsAtFirst | script.js:99-103 | the scan stops at the first bin whose cumulative count reaches half the total, and every bin it passes stays below half |
| IncomeScale.MedianOfIsFirstHalf | script.js:98-104 | over a non-empty bin list the scan stops inside the list, at the first bin whose cumulative count reaches half the total |
| IncomeScale.MedianScanCharacterized | script.js:98-103 | the scan stops at bin `i` if and only if bin `i` is the first to reach half the total |
| IncomeScale.MedianBinIsFirstHalf | script.js:98-104 | the estimate is always one of the six bins and never "N/A", namely the first bin whose cumulative count reaches half the total |
| IncomeScale.MedianBinCharacterized | script.js:98-103 | the estimate is bin `i` if and only if bin `i` is the first of the six to reach half the total |
| IncomeScale.MedianBinAllZero | script.js:98-104 | when every bin is zero the estimate is "Less than $50,000" |
| IncomeScale.MedianOfOneBin | script.js:98-103 | when all households are in one bin, that bin is the estimate |
| IncomeScale.MedianOfIgnoresOtherKeys | script.js:90-98 | labels outside the bin list do not change the estimate, and a missing bin is the same as a zero bin |
| Buckets.AddCounts | script.js:239-240 | adding one table into another gives the union of the two key sets, and under every key the sum of the two counts, absent keys counting as 0 |
| Buckets.AddIntoEmpty | script.js:235-236 | adding a table into the empty table gives a copy of that table |
| Groups.Lookup | script.js:231-232 | no result exactly when no group has the name; otherwise the members of a group of that name |
| Groups.SetOf | script.js:232 | `new Set(list)` has no repeats and the same names as the list, and its first element is the list's first element |
| Merge.ColumnSum | script.js:112-116 | one `reduce` fails with the first member that has no record, and otherwise is the bucket's sum over the members, a missing bucket counting as 0 |
| Merge.SumBuckets | script.js:111-116 | filling one table over a non-empty key set fails exactly when a member has no record; otherwise it gives every key of the key set its sum over the members, and no other key |
| Merge.MergeDemographics | script.js:107-118 | the merge returns `Merged(members, data)`: it throws on an empty set or an absent first member, throws on any absent member when there is a bucket to sum, and otherwise returns the first member's buckets summed over all members |
| Merge.MergedFailsIff | script.js:107-118 | the merge throws if and only if the set is empty, the first member has no record, or some member has no record while the first member's record has a bucket |
| Merge.MergedBuckets | script.js:109-116 | a successful merge has exactly the first member's buckets, each holding that bucket's sum over all members; a bucket that only later members have is dropped |
| Merge.MergedSingleton | script.js:107-118 | merging a one-member set reproduces that member's record |
| Merge.SumAtAppend | script.js:112-116 | a bucket's sum over two member lists put together is the sum of the two sums |
| Merge.MergedAppend | script.js:112-116 | merging two lists put together adds the second list's bucket sums to the first list's merge |
| Merge.MergedUnion | script.js:107-118 | when both lists merge and their first members have the same buckets, the two lists together also merge, and the result is the bucket-wise sum of the two merges |
| Selection.AddInto | script.js:239-240 | the `for (const k in demo.x)` loop leaves `AddCounts(acc, c)`: the union of the keys, each with the summed count |
| Selection.SelectionTotals | script.js:220-242 | the selection loop returns `SidebarFor`: the prompt for an empty selection, a group merge's error if one throws, and otherwise the sum of the records found, in order, the first one copied |
| Selection.FoundAbortsAtError | script.js:231-232 | once a group merge throws for a prefix of the selection, the whole selection gives that error |
| Selection.SumRecordsBuckets | script.js:234-241 | the running record has a key exactly when some found record has it, and under each key the sum over the found records |
| Selection.SumRecordsKeys | script.js:234-241 | the running record's keys are the union of the found records' keys |
| Selection.SumRecordsCounts | script.js:234-241 | under every key the running record holds that bucket's sum over the found records |
| Selection.FoundPlainNames | script.js:230-233 | a selection of neighbourhoods that all have records, none of them a group, finds each record, in selection order |
| Selection.SumRecordsUniformKeys | script.js:234-241 | when all found records have the same buckets, the running record has exactly those buckets |
| Selection.SumRecordsIsSumsOver | script.js:234-241 | for records with identical buckets, each summed table equals the table `mergeDemographics` builds over the first record's buckets |
| Selection.SelectionAgreesWithMerge | script.js:228-242 | a selection of neighbourhoods with identical buckets, none a group, gets exactly the totals that `mergeDemographics` gives for the same names |
| ViewState.Without | script.js:156 | deleting a name removes it and keeps every other name and the absence of repeats; deleting an absent name changes nothing |
| ViewState.ToggledFlips | script.js:155-161 | a click flips the clicked name's membership, leaves every other name's membership alone, and keeps the selection free of repeats |
| ViewState.ToggledTwice | script.js:155-161 | two clicks on the same name select the same names as before |
| ViewState.MapView.constructor | script.js:9-12 | at load the colour mode is age, groups are shown and nothing is selected |
| ViewState.MapView.SetColorMode | script.js:26-31 | switching the colour mode changes only the mode |
| ViewState.MapView.Click | script.js:153-162 | the selection becomes the toggled selection; the polygon is highlighted exactly when its name was not selected before, which is exactly when it is selected now; nothing else changes |
| ViewState.MapView.Deselect | script.js:284-286 | the remove button deletes the name from the selection and changes nothing else |
| ViewState.MapView.ClearSelection | script.js:277-279 | the close button empties the selection and changes nothing else |
| ViewState.MapView.Zoomed | script.js:173-181 | after a zoom, groups are shown exactly when the zoom is below 13, and the layer is reloaded exactly when that choice changed |
| Grouping.Positions | script.js:42 | a `filter` on the features: the positions whose name is (or is not) in the set, all of them, in increasing order |
| Grouping.Union | script.js:47 | `turf.union` gives a new feature whose geometry is the union of the two |
| Grouping.UnionMatches | script.js:45-48 | the matches unioned left to right; a single match is the input feature object itself, and more than one gives a new feature |
| Grouping.NameGroup | script.js:45-49 | the group's feature gets the group name; with a single match this renames that input feature, and no other feature's name changes |
| Grouping.GroupLoopAsWritten | script.js:41-51 | the group loop as written emits, for each matching group, the input feature itself for a single match (renamed) or a new union feature, and collects every listed member name in `usedNames` |
| Grouping.GroupStepAsWritten | script.js:42-50 | one iteration of the loop as written: the features' names and the output afterwards are `StepAsWritten` of those before (a group without matches is skipped; one match renames and emits the input feature; several give a new union feature) |
| Grouping.LoadFeaturesAsWritten | script.js:38-63 | the output and the features' names afterwards are `ResolveAsWritten` of the names before; with groups hidden the features pass through |
| Grouping.GroupLoop | script.js:41-51 | the corrected group loop emits one new feature per matching group, named after the group and carrying the union of its matches, and its `usedNames` is every name any group lists |
| Grouping.LoadFeatures | script.js:38-63 | the corrected pass changes no feature and outputs `Resolve`: the merged groups in group order, then the features no group lists, in their order; with groups hidden, the features themselves |
| Grouping.MergedGroupsAreMerged | script.js:41-50 | the group part of the output holds only new merged features, and no more of them than there are groups |
| Grouping.MatchingGroups | script.js:42-44 | the groups the loop does not skip: exactly the groups that match at least one feature, in group order |
| Grouping.MergedGroupsOnePerMatch | script.js:41-50 | the group part has exactly one piece per matching group, in group order, and the `j`-th piece is the `j`-th matching group's union named after it; groups that match nothing are dropped |
| Grouping.MergedGroupsFromMatchingGroups | script.js:41-50 | every piece of the group part is the named union of some group that matches at least one feature |
| Grouping.MergedGroupOfMatchingGroup | script.js:41-50 | every group that matches at least one feature contributes a feature named after the group with the union of its matches |
| Grouping.ResolvePassthrough | script.js:52-53 | a feature is passed through if and only if no group lists its name, even a group that matched nothing, and then exactly once |
| Grouping.ResolveTwoIntoOne | script.js:41-53 | features A and B with a group AB of both give one feature AB, the union of the two, and nothing else |
| Grouping.AsWrittenUsesAllMembers | script.js:43 | `usedNames` ends up holding every name any group lists, matched or not |
| Grouping.AsWrittenWithoutSingleMatches | script.js:41-53 | when no group matches exactly one feature, the source renames nothing and its output is the intended one |
| Grouping.SingleMatchEmittedTwice | script.js:45-52 | in a table holding only that group, a group with exactly one match, whose own name is not one of its members, makes the source emit that feature first as the group's feature and again as an ungrouped one, renamed |
| Grouping.SingleMatchExample | script.js:45-52 | for the feature A and the group G of A, the source outputs A twice, named G, where the intended output is one feature G |

## Left out

- The map library: tile layer, GeoJSON layers, styles, popups, hover effects and legend (script.js:1-5, 54-62, 120-171, 183-218). These are library and DOM calls. Their data is what the functions above compute.
- The `fetch` chains (script.js:14-24, 34-36). The groups, demographics and features they load are parameters.
- The geometry of `turf.union`. `UnionOf` is a free constructor standing for the library's union, so equalities between real unions (such as the union of a shape with itself) are not reflected. The library returning `null` for inputs it cannot union is not modelled.
- `featureStyle` and the popup text (script.js:120-151) are not modelled as operations. Their parts are: the group or own record (`Selection.RecordFor`), the percentage, the median bin and the colours.
- AgeScale.PercentOver65: requires a non-zero age total. With a zero total, `featureStyle` (script.js:127) divides by zero, gets NaN, and `getAgeColor` then falls through to the lightest blue. The popup and sidebar (script.js:148, 246) guard against a zero total. Floating-point rounding and `toFixed(1)` are not modelled either; percentages are exact reals.
- The sidebar's HTML, per-bucket percentages and button wiring (script.js:244-294). The selection it sums is modelled; the list of names it shows is not.
- Key order of JavaScript objects and sets. Bucket tables are maps, so the order of the sidebar's bucket lines is not modelled. The group table is a sequence in file order. `Object.entries` would put integer-like group names first, and that reordering is not modelled.
- Records without an `income` or `age` table. Every record is assumed to carry both tables. In the source, `mergeDemographics` throws when the first member lacks a table (script.js:109-110), or when a later member lacks a table that has a bucket to sum (script.js:112, 115). The selection loop treats a missing table as empty (script.js:235-240), and the popup guards against one (script.js:143). None of these cases is modelled.
- Merge.MergeDemographics: both error kinds are one `TypeError` in the source. The model names the missing member; the source does not.
- ViewState.MapView.SetColorMode and ViewState.MapView.Zoomed: clearing and rebuilding the layer is a reload flag or is implied. Resetting polygon styles on deselect or close is not modelled.
- `extract_names.py` and `sanmateo.js` are not part of this model. The first writes a template file; the second only loads data into the map library.

## Findings

| source | as written | input that shows it | evidently intended | confidence | as-written member | corrected member |
|---|---|---|---|---|---|---|
| script.js:45-52 | With exactly one match, `merged` is the input feature object itself. Line 49 renames that input feature to the group name. Line 52 then filters the features by their current names, so the renamed feature is not excluded by `usedNames` and is emitted again, unless the name it ends up with is in `usedNames` (a later group may list the group's name, match the feature again and rename it again). | groups `{"G": ["A"]}` and one feature named "A": the output is that feature twice, both named "G" | one new feature named "G" with A's geometry, A left unchanged and not passed through | not executed | Grouping.LoadFeaturesAsWritten (Grouping.SingleMatchEmittedTwice, Grouping.SingleMatchExample) | Grouping.LoadFeatures (Grouping.ResolvePassthrough, Grouping.ResolveTwoIntoOne) |
