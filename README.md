# Lineage diff engine and in-memory online store

This project models two parts of the fabra/meridian feature platform in Dafny and proves
properties of them.

**The lineage diff engine** (`src/fabra/utils/compare.py`) compares two recorded context
assemblies:

- `compare_features` keys the feature lineage entries by `(feature_name, entity_id)`,
  classifies every key of the union as added, removed, modified or unchanged, and counts
  each class.
- `compare_retrievers` does the same for retriever calls, keyed by `retriever_name`, with
  chunk-id set differences and a query comparison.
- `compare_content` turns a unified diff into added, removed and changed line counts and a
  summary.
- `compare_contexts` combines these with:
  - the token delta
  - a freshness ranking (guaranteed < degraded < anything else)
  - `has_changes`
  - the `;`-joined change summary
- `format_diff_report` renders the result as a 60-column-ruled text report. In verbose mode
  it has per-entry lines that skip unchanged entries.

**The in-memory online store** (`src/meridian/store/online.py`) is a three-level table,
entity name → entity id → feature name → value. It supports:

- a read of selected features
- a merging write
- a bulk write that issues one single-feature write per row

Layout:

- `wrappers.dfy`: `Option`.
- `models.dfy`: the lineage and diff records of `src/fabra/models.py`, reduced to the fields
  the diff engine reads or writes.
- `text.dfy`: Python's `str()` of integers and booleans, `sep.join`, and the `"=" * 60` rule.
- `tally.dfy`: the "last element wins" dict comprehension, and counters over lists.
- `compare.dfy`: the four comparison functions.
- `report.dfy`: `format_diff_report`.
- `online.dfy`: `InMemoryOnlineStore`, as a class whose `storage` field is a nested `map`.

How the Python maps onto Dafny:

- The loops of `compare_features` and `compare_retrievers` run over the key union in an
  arbitrary order, as Python's set iteration does. Each takes the next key with `:|`.
- Each loop is proved against a specification predicate (`FeatureComparison`,
  `RetrieverComparison`) that holds whatever the order.
- The counting loops and the report loops are `for` loops, proved equal to recursive
  specification functions.
- The store's methods update the `storage` field in place. Their contracts state the new
  state through the pure functions `Merged` and `BulkMerged`, and lemmas state what those
  functions keep and change.

## Model

| member | source | states |
|---|---|---|
| Tally.LastByKey | src/fabra/utils/compare.py:39-44 | the dict comprehension has exactly the keys occurring in the list, and each key maps to a list element carrying that key |
| Tally.LastByKeyIsLast | src/fabra/utils/compare.py:39-44 | in `{key(x): x for x in xs}` each key maps to the last element carrying it |
| Compare.FeatureMapLastWins | src/fabra/utils/compare.py:39-44 | the feature lookup map has exactly the keys of the list, and a key repeated in the list maps to its last occurrence |
| Compare.FeatureMap | src/fabra/utils/compare.py:39-44 | the lookup map has exactly the `(feature_name, entity_id)` keys of the list, and each key maps to an entry of the list with that key |
| Compare.FeatureDiffFor | src/fabra/utils/compare.py:49-108 | the diff of one key is keyed by it. It is added iff the key is only in the comparison, removed iff only in the base, modified iff in both with unequal values, and unchanged iff in both with equal values. Old value and freshness are None exactly when the key is missing from the base, and new value and freshness are None exactly when it is missing from the comparison |
| Compare.FeatureDiffAt | src/fabra/utils/compare.py:49-108 | the four branches of the loop body build exactly the diff `FeatureDiffFor` specifies |
| Compare.CompareFeatures | src/fabra/utils/compare.py:23-110 | the result has one diff per key of the union of both lookup maps, with no key twice, each classified as `FeatureDiffFor` says. Each counter equals both the number of diffs of its kind and the size of the matching key set |
| Compare.FeatureTallies | src/fabra/utils/compare.py:33-110 | over the whole key union, the number of diffs of each kind equals the number of added, removed and modified keys, and the number of diffs equals the size of the union |
| Compare.MirrorAt | src/fabra/utils/compare.py:53-108 | swapping base and comparison turns the diff of a key into its mirror: old and new swapped, added and removed swapped |
| Compare.SwapMirrorsFeatureDiffs | src/fabra/utils/compare.py:53-108 | the mirror relation holds for every key of the union |
| Compare.SwapSwapsKeySets | src/fabra/utils/compare.py:46-108 | swapping the lists swaps the added and removed key sets and keeps the modified key set |
| Compare.FeatureSwapCounts | src/fabra/utils/compare.py:23-110 | two runs of compare_features with the arguments swapped return swapped added and removed counts, the same modified count and the same number of diffs |
| Compare.SelfComparisonUnchanged | src/fabra/utils/compare.py:81-108 | comparing a lookup map with itself classifies every key as unchanged, with empty added, removed and modified key sets |
| Compare.FeatureSelfComparison | src/fabra/utils/compare.py:23-110 | compare_features of a list against itself returns only unchanged diffs and the counts (0, 0, 0) |
| Compare.RetrieverMap | src/fabra/utils/compare.py:129-134 | the lookup map has exactly the retriever names of the list, and each name maps to an entry of the list with that name |
| Compare.ChunkIds | src/fabra/utils/compare.py:152 | the chunk id list has one id per returned chunk, in order |
| Compare.ChunkIdSet | src/fabra/utils/compare.py:176-177 | an id is in the chunk id set iff it is in the chunk id list |
| Compare.ListOfSet | src/fabra/utils/compare.py:179-180 | `list(s)` holds every element of the set exactly once |
| Compare.RetrieverDiffFor | src/fabra/utils/compare.py:142-211 | the specification of one retriever diff: the exact record for added, removed and unchanged, and for modified the fields with the chunk lists as `list(...)` of the set differences; `RetrieverDiffMeaning` states its consequences |
| Compare.RetrieverDiffMeaning | src/fabra/utils/compare.py:138-211 | a retriever diff is keyed by its name. It is added, removed or modified iff the name is only in the comparison, only in the base, or in both with a changed call. Added and removed diffs report a query change, 0 results on the missing side and all chunk ids on the present side. Chunks added and removed never share an id. A retriever on both sides is modified iff the query changed or a chunk list is non-empty, and an unchanged diff has no query change and empty chunk lists |
| Compare.RetrieverDiffAt | src/fabra/utils/compare.py:139-211 | the branches of the loop body build a diff that satisfies `RetrieverDiffFor`: the exact fields for added, removed and unchanged, and for modified the set differences listed as `list(...)` |
| Compare.CompareRetrievers | src/fabra/utils/compare.py:113-213 | the result has one diff per retriever name of the union, with no name twice. Each counter equals both the number of diffs of its kind and the size of the matching name set |
| Compare.RetrieverTallies | src/fabra/utils/compare.py:123-213 | over the whole name union, the number of diffs of each kind equals the number of added, removed and modified names |
| Compare.RetrieverUnchangedAgainstItself | src/fabra/utils/compare.py:176-183 | a retriever call compared with itself has no query change and empty chunk set differences |
| Compare.RetrieverSelfComparison | src/fabra/utils/compare.py:113-213 | compare_retrievers of a list against itself returns only unchanged diffs and the counts (0, 0, 0) |
| Compare.RetrieverSwapCounts | src/fabra/utils/compare.py:113-213 | two runs of compare_retrievers with the arguments swapped return swapped added and removed counts and the same modified count |
| Compare.LineKind | src/fabra/utils/compare.py:241-243 | a line counts as added iff it starts with `+` but not `+++`, and as removed iff it starts with `-` but not `---` |
| Compare.CountDiffLines | src/fabra/utils/compare.py:240-244 | the loop counts the `+` lines that are not `+++` and the `-` lines that are not `---` |
| Compare.ContentSummary | src/fabra/utils/compare.py:251-260 | the content summary is "No changes" iff all three line counts are 0 |
| Compare.ContentDiffOf | src/fabra/utils/compare.py:236-268 | lines_changed is the smaller of the added and removed counts. After subtracting it, added + changed and removed + changed give back the raw counts, and at least one of added and removed is 0. The similarity is passed through, the summary is `ContentSummary` of the three counts, and it is "No changes" iff the diff has no added and no removed line |
| Compare.CompareContent | src/fabra/utils/compare.py:236-268 | the counting loop followed by the subtraction and the summary returns exactly `ContentDiffOf` of the diff |
| Compare.FreshnessRank | src/fabra/utils/compare.py:326-328 | the rank is 0 exactly for "guaranteed", 1 exactly for "degraded", and 2 for every other status, "unknown" included |
| Compare.FreshnessImproved | src/fabra/utils/compare.py:326-329 | defined as a strict drop in rank from the base to the comparison; `FreshnessImprovedMeaning` states what that means by status name |
| Compare.HasChanges | src/fabra/utils/compare.py:332-340 | defined as any positive feature or retriever count, or a content diff with similarity below 1. The token delta does not enter it, which `HasChangesIgnoresTokenDelta` shows |
| Compare.FreshnessImprovedMeaning | src/fabra/utils/compare.py:326-329 | freshness improved iff the comparison is "guaranteed" and the base is not, or the comparison is "degraded" and the base is neither. It is never true for equal statuses, never true both ways, and transitive |
| Compare.SummaryParts | src/fabra/utils/compare.py:343-360 | no summary part is empty or starts with 'N'. There are no parts iff every count is 0, the content summary is absent or "No changes", and the token delta is 0 |
| Compare.ChangeSummary | src/fabra/utils/compare.py:342-363 | the change summary is "No changes detected" iff every count is 0, the content summary is absent or "No changes", and the token delta is 0 |
| Compare.HasChangesIgnoresTokenDelta | src/fabra/utils/compare.py:332-363 | with no other change and a non-zero token delta, `has_changes` is false while the change summary is not "No changes detected" |
| Compare.SummarizeContexts | src/fabra/utils/compare.py:316-386 | the result record carries the given feature and retriever results unchanged and satisfies `ContextSummarized`: the ids and the time delta; a content diff iff contents were given, equal to `ContentDiffOf` of them; the token delta; the freshness statuses; freshness_improved iff the rank dropped; the `has_changes` iff; and the change summary, which is the `ChangeSummary` text of the result's counts, content diff and token delta and is "No changes detected" iff nothing changed |
| Compare.CompareContexts | src/fabra/utils/compare.py:271-386 | the feature and retriever parts of the result satisfy `FeatureComparison` and `RetrieverComparison` for the two contexts, and the rest satisfies `ContextSummarized`, which fixes the content diff and the change summary text |
| Compare.ContextSelfComparison | src/fabra/utils/compare.py:271-386 | a context compared with itself, without content, has no changes, the summary "No changes detected", a zero token delta and no freshness improvement |
| Report.ChangedFeatures | src/fabra/utils/compare.py:422-424 | the filtered feature diffs contain no unchanged entry, every entry comes from the input, and every changed diff of the input is kept |
| Report.ChangedRetrievers | src/fabra/utils/compare.py:446-448 | the filtered retriever diffs contain no unchanged entry, every entry comes from the input, and every changed diff of the input is kept |
| Report.FeatureSectionSkipsUnchanged | src/fabra/utils/compare.py:420-434 | the verbose feature lines equal those of the changed diffs alone, so unchanged entries contribute no line |
| Report.RetrieverSectionSkipsUnchanged | src/fabra/utils/compare.py:444-457 | the verbose retriever lines equal those of the changed diffs alone |
| Report.FeatureSectionEmptyIff | src/fabra/utils/compare.py:420-434 | the verbose feature lines are empty iff every feature diff is unchanged |
| Report.RetrieverSectionEmptyIff | src/fabra/utils/compare.py:444-457 | the verbose retriever lines are empty iff every retriever diff is unchanged |
| Report.FeatureEntry | src/fabra/utils/compare.py:425-434 | the lines printed for one changed feature diff: the header, then Old/New for modified, or the new or old value for added or removed |
| Report.FeatureEntries | src/fabra/utils/compare.py:422-434 | the loop that skips unchanged entries produces exactly the feature section |
| Report.RetrieverEntry | src/fabra/utils/compare.py:449-457 | the lines printed for one changed retriever diff: the header, then the query change and the chunk counts when present |
| Report.RetrieverEntries | src/fabra/utils/compare.py:446-457 | the loop that skips unchanged entries produces exactly the retriever section |
| Report.FeaturesPart | src/fabra/utils/compare.py:415-436 | the "Features:" block: the counts, then the entries only in verbose mode with diffs present, then a blank line |
| Report.RetrieversPart | src/fabra/utils/compare.py:439-459 | the "Retrievers:" block, built the same way |
| Report.ReportFramedByRules | src/fabra/utils/compare.py:400-483 | the first and the last report line are the 60-character rule |
| Report.TerseReportIgnoresEntries | src/fabra/utils/compare.py:420-446 | outside verbose mode the report lines do not depend on the feature and retriever diffs |
| Report.HeaderLines | src/fabra/utils/compare.py:400-412 | defined as the opening rule, the title, the rule, the two ids, the time delta in ms and the summary |
| Report.FeaturesBlock | src/fabra/utils/compare.py:414-436 | defined as "Features:", the three counts, the verbose entries when there are diffs, and a blank line |
| Report.RetrieversBlock | src/fabra/utils/compare.py:438-459 | defined as "Retrievers:", the three counts, the verbose entries when there are diffs, and a blank line |
| Report.ContentBlock | src/fabra/utils/compare.py:461-466 | defined as the similarity and the summary of the content diff when one is present, then a blank line |
| Report.TrailerLines | src/fabra/utils/compare.py:468-483 | defined as the token delta with its sign, the cost, the two freshness statuses and the improvement flag, and the closing rule |
| Report.ReportLines | src/fabra/utils/compare.py:400-483 | defined as the five blocks in order; `ReportFramedByRules` and `TerseReportIgnoresEntries` state its properties |
| Report.FormatDiffReport | src/fabra/utils/compare.py:389-485 | the report is the newline-joined report lines. It is at least 60 characters long, and its first and last 60 characters are the `=` rule |
| Text.IntToString | src/fabra/utils/compare.py:359 | `str(i)` starts with '-' iff i is negative. For a negative i the rest is the digit string of -i, and otherwise the whole text is the digit string of i |
| Text.ParseNatToString | src/fabra/utils/compare.py:416-418 | `str(n)` of a count reads back as n, so distinct counts print differently |
| Text.JoinFramedByRule | src/fabra/utils/compare.py:485 | joining lines that open and close with the rule gives a text that opens and closes with it |
| Online.InMemoryOnlineStore.constructor | src/meridian/store/online.py:38-40 | a new store is empty |
| Online.InMemoryOnlineStore.GetOnlineFeatures | src/meridian/store/online.py:42-47 | the result's keys are exactly the requested names stored for (entity name, entity id), each with its stored value. An unknown entity name or id gives an empty map, and the read changes nothing |
| Online.InMemoryOnlineStore.SetOnlineFeatures | src/meridian/store/online.py:49-57 | the new storage is `Merged(old storage, e, id, features)` |
| Online.InMemoryOnlineStore.SetOnlineFeaturesBulk | src/meridian/store/online.py:59-73 | the new storage is `BulkMerged(old storage, e, rows, feature_name)`: one single-feature merge per row, in row order |
| Online.StoredFeatures | src/meridian/store/online.py:45-46 | defined as the features stored for (e, id), empty when either level is missing |
| Online.Merged | src/meridian/store/online.py:52-57 | defined as the create-then-`update` write; `MergedMeaning`, `ReadAfterWrite` and `MergeIdempotent` state its properties |
| Online.BulkMerged | src/meridian/store/online.py:68-73 | defined as one single-feature `Merged` per row, in row order; the `Bulk` lemmas state its properties |
| Online.MergedMeaning | src/meridian/store/online.py:52-57 | a write stores the written features over the old ones for (e, id) and keeps the other features there. It creates the entity's tables when missing, adds exactly the id written to the ids under e, and leaves every other entity name and entity id untouched |
| Online.ReadAfterWrite | src/meridian/store/online.py:42-57 | after a write, every written feature reads back with the written value |
| Online.MergeIdempotent | src/meridian/store/online.py:57 | writing the same features twice gives the same storage as writing them once |
| Online.BulkKeepsOtherEntities | src/meridian/store/online.py:68-73 | the bulk write changes nothing outside the given entity name |
| Online.BulkKeepsOtherFeatures | src/meridian/store/online.py:68-73 | within the entity name, the bulk write changes no feature other than `feature_name` |
| Online.BulkKeepsUnnamedIds | src/meridian/store/online.py:68-73 | an entity id that no row names keeps its features |
| Online.BulkLastRowWins | src/meridian/store/online.py:68-73 | for a repeated entity id, the stored value is that of the last row naming it |
| Online.SetThenGet | src/meridian/store/online.py:42-57 | on a new store, writing `user_clicks = 42` for ("User", "u1") and reading it back returns exactly `{user_clicks: 42}` |

## Left out

- The similarity ratio and the unified diff in `compare_content` (`difflib.SequenceMatcher.ratio`, `difflib.unified_diff`, `splitlines`) come from a foreign library. `ContentComparison` takes the diff lines and the similarity as inputs, and only the counting and the summary are modelled.
- `compare_contexts` takes contents only when both are given. `content: Option<ContentComparison>` is `Some` exactly in that case.
- Time and money use datetime and float arithmetic:
  - `time_delta_ms` (computed from timestamps) is a parameter.
  - The `timestamp` field set by `datetime.now` is left out.
  - `cost_delta_usd` is left out.
- Report.FormatDiffReport: the similarity text (`:.2%`) and the cost text (`{sign}${cost:.6f}`) are parameters given already formatted, because float formatting is not modelled.
- Report.FormatDiffReport: `str()` of an arbitrary feature value is the `render` parameter.
- Report.FormatDiffReport: `if diff.content_diff:` is taken as "a content diff is present". A model instance is always truthy.
- Feature values are an abstract type with equality. Python's `!=` on arbitrary objects (NaN, user-defined `__eq__`) is not modelled.
- The iteration order of Python sets is not modelled. The loops pick keys in any order, and every contract holds for any order, so the order of the diff lists and of `list(set)` is not determined.
- `freshness_status` is a string. Every status other than "guaranteed" and "degraded" ranks 2, as the `.get(status, 2)` fallback does. Pydantic's restriction to three literals is not modelled.
- Lineage and diff fields that the diff engine does not read or write are left out, and so is Pydantic validation.
- Online.InMemoryOnlineStore.SetOnlineFeaturesBulk: the pandas DataFrame becomes a sequence of rows already reduced to `(str(row[entity_id_col]), row[feature_name])`. `iterrows` and the column lookups are not modelled.
- The store methods are `async` in the source; they are modelled as sequential methods. The abstract `OnlineStore` base class adds nothing beyond their signatures.
- The HTTP server and `FeatureStore` (`src/meridian/server.py`, `meridian/core.py`) are not part of this model. `SetThenGet` shows the store-level round trip only.
- The offline stores, the UI, the CLI and the distributed scheduler are not part of this model.
