/**
 * The lineage diff engine (src/fabra/utils/compare.py): compares the features,
 * retriever calls and content of two recorded context assemblies.
 *
 * Python iterates over a `set` of keys, in an order the model does not fix:
 * the loops below pick the next key with `:|`, so every proof holds for any
 * iteration order.
 */
module Compare {
  import opened Wrappers
  import opened Models
  import opened Text
  import Tally

  // ---------------------------------------------------------------------------
  // Keys and keyed lookups
  // ---------------------------------------------------------------------------

  function LineageKey(f: FeatureLineage): FeatureKey {
    FeatureKey(f.featureName, f.entityId)
  }

  function DiffKey(d: FeatureDiff): FeatureKey {
    FeatureKey(d.featureName, d.entityId)
  }

  function FeatureKind(d: FeatureDiff): ChangeType {
    d.changeType
  }

  /** `{(f.feature_name, f.entity_id): f for f in features}`. */
  function FeatureMap(features: seq<FeatureLineage>): (m: map<FeatureKey, FeatureLineage>)
    ensures m.Keys == Tally.KeysOf(features, LineageKey)
    ensures forall k :: k in m ==> LineageKey(m[k]) == k && m[k] in features
  {
    Tally.LastByKey(features, LineageKey)
  }

  /**
   * The lookup map holds exactly the keys of the list, and with a key repeated
   * in one list the last occurrence wins.
   */
  lemma FeatureMapLastWins(features: seq<FeatureLineage>, i: nat)
    requires i < |features|
    requires forall j :: i < j < |features| ==> LineageKey(features[j]) != LineageKey(features[i])
    ensures FeatureMap(features).Keys == Tally.KeysOf(features, LineageKey)
    ensures FeatureMap(features)[LineageKey(features[i])] == features[i]
  {
    Tally.LastByKeyIsLast(features, LineageKey, i);
  }

  /** Keys present only in the comparison. */
  function AddedKeys<K, T>(baseMap: map<K, T>, compMap: map<K, T>): set<K> {
    compMap.Keys - baseMap.Keys
  }

  /** Keys present only in the base. */
  function RemovedKeys<K, T>(baseMap: map<K, T>, compMap: map<K, T>): set<K> {
    baseMap.Keys - compMap.Keys
  }

  /** Feature keys present on both sides with unequal values. */
  function ModifiedFeatureKeys(baseMap: map<FeatureKey, FeatureLineage>, compMap: map<FeatureKey, FeatureLineage>): set<FeatureKey> {
    set k | k in baseMap && k in compMap && baseMap[k].value != compMap[k].value
  }

  // ---------------------------------------------------------------------------
  // compare_features
  // ---------------------------------------------------------------------------

  /** The diff `compare_features` emits for one key of the union. */
  function FeatureDiffFor(k: FeatureKey, baseMap: map<FeatureKey, FeatureLineage>, compMap: map<FeatureKey, FeatureLineage>): (d: FeatureDiff)
    requires k in baseMap || k in compMap
    ensures DiffKey(d) == k
    ensures d.changeType == Added <==> k in AddedKeys(baseMap, compMap)
    ensures d.changeType == Removed <==> k in RemovedKeys(baseMap, compMap)
    ensures d.changeType == Modified <==> k in ModifiedFeatureKeys(baseMap, compMap)
    ensures d.changeType == Unchanged <==> k in baseMap && k in compMap && baseMap[k].value == compMap[k].value
    ensures d.oldValue == (if k in baseMap then Some(baseMap[k].value) else None)
    ensures d.newValue == (if k in compMap then Some(compMap[k].value) else None)
    ensures d.oldFreshnessMs == (if k in baseMap then Some(baseMap[k].freshnessMs) else None)
    ensures d.newFreshnessMs == (if k in compMap then Some(compMap[k].freshnessMs) else None)
  {
    if k !in baseMap then
      var c := compMap[k];
      FeatureDiff(k.featureName, k.entityId, None, Some(c.value), Added, None, Some(c.freshnessMs))
    else if k !in compMap then
      var b := baseMap[k];
      FeatureDiff(k.featureName, k.entityId, Some(b.value), None, Removed, Some(b.freshnessMs), None)
    else
      var b, c := baseMap[k], compMap[k];
      FeatureDiff(k.featureName, k.entityId, Some(b.value), Some(c.value),
                  if b.value != c.value then Modified else Unchanged,
                  Some(b.freshnessMs), Some(c.freshnessMs))
  }

  /** The diff seen from the other side: old and new swap, added and removed swap. */
  function Mirror(d: FeatureDiff): FeatureDiff {
    d.(oldValue := d.newValue, newValue := d.oldValue,
       oldFreshnessMs := d.newFreshnessMs, newFreshnessMs := d.oldFreshnessMs,
       changeType := match d.changeType
                     case Added => Removed
                     case Removed => Added
                     case other => other)
  }

  /** Swapping the two sides mirrors the diff of one key. */
  lemma MirrorAt(k: FeatureKey, baseMap: map<FeatureKey, FeatureLineage>, compMap: map<FeatureKey, FeatureLineage>)
    requires k in baseMap || k in compMap
    ensures FeatureDiffFor(k, compMap, baseMap) == Mirror(FeatureDiffFor(k, baseMap, compMap))
  {
    if k in baseMap && k in compMap {
      assert (baseMap[k].value != compMap[k].value) == (compMap[k].value != baseMap[k].value);
    }
  }

  /** Swapping the two feature lists mirrors every diff. */
  lemma SwapMirrorsFeatureDiffs(baseMap: map<FeatureKey, FeatureLineage>, compMap: map<FeatureKey, FeatureLineage>)
    ensures forall k :: k in baseMap || k in compMap ==>
              FeatureDiffFor(k, compMap, baseMap) == Mirror(FeatureDiffFor(k, baseMap, compMap))
  {
    forall k | k in baseMap || k in compMap
      ensures FeatureDiffFor(k, compMap, baseMap) == Mirror(FeatureDiffFor(k, baseMap, compMap))
    {
      MirrorAt(k, baseMap, compMap);
    }
  }

  /** Swapping the two feature lists swaps the added and removed keys and keeps the modified ones. */
  lemma SwapSwapsKeySets(baseMap: map<FeatureKey, FeatureLineage>, compMap: map<FeatureKey, FeatureLineage>)
    ensures AddedKeys(compMap, baseMap) == RemovedKeys(baseMap, compMap)
    ensures RemovedKeys(compMap, baseMap) == AddedKeys(baseMap, compMap)
    ensures ModifiedFeatureKeys(compMap, baseMap) == ModifiedFeatureKeys(baseMap, compMap)
  {
    forall k | k in ModifiedFeatureKeys(compMap, baseMap) ensures k in ModifiedFeatureKeys(baseMap, compMap) {
      assert baseMap[k].value != compMap[k].value;
    }
  }

  /** Comparing a feature list with itself finds every key unchanged and counts nothing. */
  lemma SelfComparisonUnchanged(features: seq<FeatureLineage>)
    ensures var m := FeatureMap(features);
            forall k :: k in m ==> FeatureDiffFor(k, m, m).changeType == Unchanged
    ensures var m := FeatureMap(features);
            |AddedKeys(m, m)| == 0 && |RemovedKeys(m, m)| == 0 && |ModifiedFeatureKeys(m, m)| == 0
  {
    var m := FeatureMap(features);
    assert ModifiedFeatureKeys(m, m) == {};
  }

  /** The diffs of a whole union of keys: one per key, each classified by FeatureDiffFor. */
  ghost predicate FeatureDiffsFor(diffs: seq<FeatureDiff>, baseMap: map<FeatureKey, FeatureLineage>, compMap: map<FeatureKey, FeatureLineage>, keys: set<FeatureKey>)
  {
    && keys <= baseMap.Keys + compMap.Keys
    && Tally.KeysOf(diffs, DiffKey) == keys
    && Tally.DistinctKeys(diffs, DiffKey)
    && forall i :: 0 <= i < |diffs| ==>
         DiffKey(diffs[i]) in keys && diffs[i] == FeatureDiffFor(DiffKey(diffs[i]), baseMap, compMap)
  }

  /**
   * The state of compare_features' loop after handling the keys in `done`: their
   * diffs, and each counter equal to the number of diffs of its kind.
   */
  ghost predicate FeatureProgress(diffs: seq<FeatureDiff>, added: nat, removed: nat, modified: nat,
                                  baseMap: map<FeatureKey, FeatureLineage>, compMap: map<FeatureKey, FeatureLineage>, done: set<FeatureKey>)
  {
    && FeatureDiffsFor(diffs, baseMap, compMap, done)
    && added == Tally.Count(diffs, FeatureKind, Added)
    && removed == Tally.Count(diffs, FeatureKind, Removed)
    && modified == Tally.Count(diffs, FeatureKind, Modified)
  }

  /** Appending the diff of a key not yet handled, and counting it, extends the handled keys by that key. */
  lemma FeatureDiffsStep(diffs: seq<FeatureDiff>, added: nat, removed: nat, modified: nat,
                         baseMap: map<FeatureKey, FeatureLineage>, compMap: map<FeatureKey, FeatureLineage>, done: set<FeatureKey>, key: FeatureKey)
    requires FeatureProgress(diffs, added, removed, modified, baseMap, compMap, done)
    requires key in baseMap || key in compMap
    requires key !in done
    ensures var d := FeatureDiffFor(key, baseMap, compMap);
            FeatureProgress(diffs + [d],
                            added + (if d.changeType == Added then 1 else 0),
                            removed + (if d.changeType == Removed then 1 else 0),
                            modified + (if d.changeType == Modified then 1 else 0),
                            baseMap, compMap, done + {key})
  {
    var d := FeatureDiffFor(key, baseMap, compMap);
    Tally.CountAppend(diffs, d, FeatureKind, Added);
    Tally.CountAppend(diffs, d, FeatureKind, Removed);
    Tally.CountAppend(diffs, d, FeatureKind, Modified);
    Tally.AppendKey(diffs, d, DiffKey);
    assert forall i :: 0 <= i < |diffs| ==> (diffs + [d])[i] == diffs[i];
  }

  /**
   * The outcome of compare_features: one diff per key of the union of the two
   * lookup maps, each classified by FeatureDiffFor, and counters equal both to
   * the number of diffs of their kind and to the size of the matching key set.
   */
  ghost predicate FeatureComparison(base: seq<FeatureLineage>, comparison: seq<FeatureLineage>,
                                    diffs: seq<FeatureDiff>, added: nat, removed: nat, modified: nat)
  {
    var baseMap, compMap := FeatureMap(base), FeatureMap(comparison);
    && FeatureDiffsFor(diffs, baseMap, compMap, baseMap.Keys + compMap.Keys)
    && |diffs| == |baseMap.Keys + compMap.Keys|
    && added == Tally.Count(diffs, FeatureKind, Added) == |AddedKeys(baseMap, compMap)|
    && removed == Tally.Count(diffs, FeatureKind, Removed) == |RemovedKeys(baseMap, compMap)|
    && modified == Tally.Count(diffs, FeatureKind, Modified) == |ModifiedFeatureKeys(baseMap, compMap)|
  }

  /** Over the whole union, the number of diffs of each kind is the size of the matching key set. */
  lemma {:induction false} FeatureTallies(base: seq<FeatureLineage>, comparison: seq<FeatureLineage>,
                                          diffs: seq<FeatureDiff>, added: nat, removed: nat, modified: nat)
    requires FeatureProgress(diffs, added, removed, modified, FeatureMap(base), FeatureMap(comparison), FeatureMap(base).Keys + FeatureMap(comparison).Keys)
    ensures FeatureComparison(base, comparison, diffs, added, removed, modified)
  {
    var baseMap, compMap := FeatureMap(base), FeatureMap(comparison);
    Tally.LengthIsCardinality(diffs, DiffKey);
    FeatureKindKeys(diffs, baseMap, compMap, Added);
    FeatureKindKeys(diffs, baseMap, compMap, Removed);
    FeatureKindKeys(diffs, baseMap, compMap, Modified);
    Tally.CountIsCardinality(diffs, DiffKey, FeatureKind, Added);
    Tally.CountIsCardinality(diffs, DiffKey, FeatureKind, Removed);
    Tally.CountIsCardinality(diffs, DiffKey, FeatureKind, Modified);
  }

  lemma FeatureKindKeys(diffs: seq<FeatureDiff>, baseMap: map<FeatureKey, FeatureLineage>, compMap: map<FeatureKey, FeatureLineage>, t: ChangeType)
    requires FeatureDiffsFor(diffs, baseMap, compMap, baseMap.Keys + compMap.Keys)
    ensures t == Added ==> Tally.KeysWhere(diffs, DiffKey, FeatureKind, t) == AddedKeys(baseMap, compMap)
    ensures t == Removed ==> Tally.KeysWhere(diffs, DiffKey, FeatureKind, t) == RemovedKeys(baseMap, compMap)
    ensures t == Modified ==> Tally.KeysWhere(diffs, DiffKey, FeatureKind, t) == ModifiedFeatureKeys(baseMap, compMap)
  {
    var want := if t == Added then AddedKeys(baseMap, compMap)
                else if t == Removed then RemovedKeys(baseMap, compMap)
                else ModifiedFeatureKeys(baseMap, compMap);
    if t != Unchanged {
      forall k | k in want ensures k in Tally.KeysWhere(diffs, DiffKey, FeatureKind, t) {
        assert k in Tally.KeysOf(diffs, DiffKey);
        var i :| 0 <= i < |diffs| && DiffKey(diffs[i]) == k;
        assert FeatureKind(diffs[i]) == t;
      }
    }
  }

  /** compare_features of a list against itself: every diff is unchanged and every counter is 0. */
  lemma FeatureSelfComparison(features: seq<FeatureLineage>, diffs: seq<FeatureDiff>, added: nat, removed: nat, modified: nat)
    requires FeatureComparison(features, features, diffs, added, removed, modified)
    ensures added == 0 && removed == 0 && modified == 0
    ensures forall i :: 0 <= i < |diffs| ==> diffs[i].changeType == Unchanged
  {
    var m := FeatureMap(features);
    SelfComparisonUnchanged(features);
    forall i | 0 <= i < |diffs| ensures diffs[i].changeType == Unchanged {
      assert DiffKey(diffs[i]) in m;
    }
  }

  /** Swapping the lists swaps the added and removed counters of compare_features and keeps the modified one. */
  lemma FeatureSwapCounts(base: seq<FeatureLineage>, comparison: seq<FeatureLineage>,
                          diffs: seq<FeatureDiff>, added: nat, removed: nat, modified: nat,
                          diffs': seq<FeatureDiff>, added': nat, removed': nat, modified': nat)
    requires FeatureComparison(base, comparison, diffs, added, removed, modified)
    requires FeatureComparison(comparison, base, diffs', added', removed', modified')
    ensures added' == removed && removed' == added && modified' == modified
    ensures |diffs'| == |diffs|
  {
    var bm, cm := FeatureMap(base), FeatureMap(comparison);
    SwapSwapsKeySets(bm, cm);
    assert cm.Keys + bm.Keys == bm.Keys + cm.Keys;
  }

  /** The branches of compare_features that build the diff of one key of the union; the statement form of `FeatureDiffFor`. */
  method FeatureDiffAt(key: FeatureKey, baseMap: map<FeatureKey, FeatureLineage>, compMap: map<FeatureKey, FeatureLineage>)
    returns (d: FeatureDiff)
    requires key in baseMap || key in compMap
    ensures d == FeatureDiffFor(key, baseMap, compMap)
  {
    if key !in baseMap {
      var c := compMap[key];
      d := FeatureDiff(key.featureName, key.entityId, None, Some(c.value), Added, None, Some(c.freshnessMs));
    } else if key !in compMap {
      var b := baseMap[key];
      d := FeatureDiff(key.featureName, key.entityId, Some(b.value), None, Removed, Some(b.freshnessMs), None);
    } else {
      var b, c := baseMap[key], compMap[key];
      if b.value != c.value {
        d := FeatureDiff(key.featureName, key.entityId, Some(b.value), Some(c.value), Modified, Some(b.freshnessMs), Some(c.freshnessMs));
      } else {
        d := FeatureDiff(key.featureName, key.entityId, Some(b.value), Some(c.value), Unchanged, Some(b.freshnessMs), Some(c.freshnessMs));
      }
    }
  }

  /**
   * compare_features: one diff per key of the union of base and comparison
   * `(feature_name, entity_id)` keys, and the added, removed and modified counts.
   */
  method CompareFeatures(base: seq<FeatureLineage>, comparison: seq<FeatureLineage>)
    returns (diffs: seq<FeatureDiff>, added: nat, removed: nat, modified: nat)
    ensures FeatureComparison(base, comparison, diffs, added, removed, modified)
  {
    var baseMap := FeatureMap(base);
    var compMap := FeatureMap(comparison);
    var allKeys := baseMap.Keys + compMap.Keys;
    var remaining := allKeys;
    diffs, added, removed, modified := [], 0, 0, 0;
    while remaining != {}
      invariant remaining <= allKeys
      invariant FeatureProgress(diffs, added, removed, modified, baseMap, compMap, allKeys - remaining)
      decreases remaining
    {
      var key :| key in remaining;
      var d := FeatureDiffAt(key, baseMap, compMap);
      FeatureDiffsStep(diffs, added, removed, modified, baseMap, compMap, allKeys - remaining, key);
      added := added + (if d.changeType == Added then 1 else 0);
      removed := removed + (if d.changeType == Removed then 1 else 0);
      modified := modified + (if d.changeType == Modified then 1 else 0);
      assert (allKeys - remaining) + {key} == allKeys - (remaining - {key});
      diffs := diffs + [d];
      remaining := remaining - {key};
    }
    FeatureTallies(base, comparison, diffs, added, removed, modified);
  }

  // ---------------------------------------------------------------------------
  // compare_retrievers
  // ---------------------------------------------------------------------------

  function RetrieverKey(r: RetrieverLineage): string {
    r.retrieverName
  }

  function RetrieverDiffKey(d: RetrieverDiff): string {
    d.retrieverName
  }

  function RetrieverKind(d: RetrieverDiff): ChangeType {
    d.changeType
  }

  /** `{r.retriever_name: r for r in retrievers}`. */
  function RetrieverMap(retrievers: seq<RetrieverLineage>): (m: map<string, RetrieverLineage>)
    ensures m.Keys == Tally.KeysOf(retrievers, RetrieverKey)
    ensures forall n :: n in m ==> m[n].retrieverName == n && m[n] in retrievers
  {
    Tally.LastByKey(retrievers, RetrieverKey)
  }

  /** `[c.chunk_id for c in r.chunks_returned]`, in order. */
  function ChunkIds(r: RetrieverLineage): (ids: seq<string>)
    ensures |ids| == |r.chunksReturned|
    ensures forall i :: 0 <= i < |ids| ==> ids[i] == r.chunksReturned[i].chunkId
  {
    seq(|r.chunksReturned|, i requires 0 <= i < |r.chunksReturned| => r.chunksReturned[i].chunkId)
  }

  /** `{c.chunk_id for c in r.chunks_returned}`. */
  function ChunkIdSet(r: RetrieverLineage): (ids: set<string>)
    ensures forall id :: id in ids <==> id in ChunkIds(r)
  {
    set c | c in r.chunksReturned :: c.chunkId
  }

  /** A retriever present on both sides changed when its query or its set of chunk ids did. */
  predicate RetrieverChanged(b: RetrieverLineage, c: RetrieverLineage) {
    b.query != c.query || ChunkIdSet(c) - ChunkIdSet(b) != {} || ChunkIdSet(b) - ChunkIdSet(c) != {}
  }

  /** Retriever names present on both sides whose call changed. */
  function ModifiedRetrieverNames(baseMap: map<string, RetrieverLineage>, compMap: map<string, RetrieverLineage>): set<string> {
    set n | n in baseMap && n in compMap && RetrieverChanged(baseMap[n], compMap[n])
  }

  /** `xs` is `list(s)`: every element of `s` exactly once, in some order. */
  ghost predicate ListsSet(xs: seq<string>, s: set<string>) {
    && (set x | x in xs) == s
    && forall i, j :: 0 <= i < j < |xs| ==> xs[i] != xs[j]
  }

  /** Python's `list(s)` for a set of strings. */
  method ListOfSet(s: set<string>) returns (xs: seq<string>)
    ensures ListsSet(xs, s)
    ensures |xs| == |s|
  {
    xs := [];
    var rest := s;
    while rest != {}
      invariant rest <= s
      invariant (set x | x in xs) == s - rest
      invariant forall i, j :: 0 <= i < j < |xs| ==> xs[i] != xs[j]
      invariant |xs| + |rest| == |s|
      decreases rest
    {
      var x :| x in rest;
      assert (set y | y in xs + [x]) == (set y | y in xs) + {x};
      xs := xs + [x];
      rest := rest - {x};
    }
  }

  /** What `compare_retrievers` emits for one retriever name of the union. */
  ghost predicate RetrieverDiffFor(d: RetrieverDiff, name: string, baseMap: map<string, RetrieverLineage>, compMap: map<string, RetrieverLineage>)
    requires name in baseMap || name in compMap
  {
    if name !in baseMap then
      var c := compMap[name];
      d == RetrieverDiff(name, true, None, Some(c.query), 0, c.resultsCount, ChunkIds(c), [], Added)
    else if name !in compMap then
      var b := baseMap[name];
      d == RetrieverDiff(name, true, Some(b.query), None, b.resultsCount, 0, [], ChunkIds(b), Removed)
    else
      var b, c := baseMap[name], compMap[name];
      if RetrieverChanged(b, c) then
        && d.retrieverName == name
        && d.queryChanged == (b.query != c.query)
        && d.oldQuery == Some(b.query) && d.newQuery == Some(c.query)
        && d.oldResultsCount == b.resultsCount && d.newResultsCount == c.resultsCount
        && ListsSet(d.chunksAdded, ChunkIdSet(c) - ChunkIdSet(b))
        && ListsSet(d.chunksRemoved, ChunkIdSet(b) - ChunkIdSet(c))
        && d.changeType == Modified
      else
        d == RetrieverDiff(name, false, Some(b.query), Some(c.query), b.resultsCount, c.resultsCount, [], [], Unchanged)
  }

  /**
   * What a retriever diff says, case by case: its kind follows presence and change;
   * an added or removed retriever counts as a query change and reports 0 results on
   * the missing side; chunks added and removed never share an id; and a retriever
   * present on both sides is modified exactly when the query changed or a chunk list
   * is non-empty.
   */
  lemma RetrieverDiffMeaning(d: RetrieverDiff, name: string, baseMap: map<string, RetrieverLineage>, compMap: map<string, RetrieverLineage>)
    requires name in baseMap || name in compMap
    requires RetrieverDiffFor(d, name, baseMap, compMap)
    ensures RetrieverDiffKey(d) == name
    ensures d.changeType == Added <==> name in AddedKeys(baseMap, compMap)
    ensures d.changeType == Removed <==> name in RemovedKeys(baseMap, compMap)
    ensures d.changeType == Modified <==> name in ModifiedRetrieverNames(baseMap, compMap)
    ensures d.changeType in {Added, Removed} ==> d.queryChanged
    ensures d.changeType == Added ==> d.oldResultsCount == 0 && d.chunksRemoved == [] && d.chunksAdded == ChunkIds(compMap[name])
    ensures d.changeType == Removed ==> d.newResultsCount == 0 && d.chunksAdded == [] && d.chunksRemoved == ChunkIds(baseMap[name])
    ensures forall x :: x in d.chunksAdded ==> x !in d.chunksRemoved
    ensures name in baseMap && name in compMap ==>
              (d.changeType == Modified <==> d.queryChanged || d.chunksAdded != [] || d.chunksRemoved != [])
    ensures d.changeType == Unchanged ==> !d.queryChanged && d.chunksAdded == [] && d.chunksRemoved == []
  {
    if name in baseMap && name in compMap && RetrieverChanged(baseMap[name], compMap[name]) {
      var b, c := baseMap[name], compMap[name];
      assert ListsSet(d.chunksAdded, ChunkIdSet(c) - ChunkIdSet(b));
      assert ListsSet(d.chunksRemoved, ChunkIdSet(b) - ChunkIdSet(c));
      forall x | x in d.chunksAdded ensures x !in d.chunksRemoved {
        assert x in (set y | y in d.chunksAdded);
        assert x !in ChunkIdSet(b) - ChunkIdSet(c);
        assert x !in (set y | y in d.chunksRemoved);
      }
      if ChunkIdSet(c) - ChunkIdSet(b) != {} {
        var x :| x in ChunkIdSet(c) - ChunkIdSet(b);
        assert x in (set y | y in d.chunksAdded);
      }
      if ChunkIdSet(b) - ChunkIdSet(c) != {} {
        var x :| x in ChunkIdSet(b) - ChunkIdSet(c);
        assert x in (set y | y in d.chunksRemoved);
      }
    }
  }

  /** The retriever diffs of a set of names: one per name, each as RetrieverDiffFor says. */
  ghost predicate RetrieverDiffsFor(diffs: seq<RetrieverDiff>, baseMap: map<string, RetrieverLineage>, compMap: map<string, RetrieverLineage>, names: set<string>)
  {
    && names <= baseMap.Keys + compMap.Keys
    && Tally.KeysOf(diffs, RetrieverDiffKey) == names
    && Tally.DistinctKeys(diffs, RetrieverDiffKey)
    && forall i :: 0 <= i < |diffs| ==>
         diffs[i].retrieverName in names && RetrieverDiffFor(diffs[i], diffs[i].retrieverName, baseMap, compMap)
  }

  /**
   * The state of compare_retrievers' loop after handling the names in `done`: their
   * diffs, and each counter equal to the number of diffs of its kind.
   */
  ghost predicate RetrieverProgress(diffs: seq<RetrieverDiff>, added: nat, removed: nat, modified: nat,
                                    baseMap: map<string, RetrieverLineage>, compMap: map<string, RetrieverLineage>, done: set<string>)
  {
    && RetrieverDiffsFor(diffs, baseMap, compMap, done)
    && added == Tally.Count(diffs, RetrieverKind, Added)
    && removed == Tally.Count(diffs, RetrieverKind, Removed)
    && modified == Tally.Count(diffs, RetrieverKind, Modified)
  }

  /** Appending the diff of a name not yet handled, and counting it, extends the handled names by that name. */
  lemma RetrieverDiffsStep(diffs: seq<RetrieverDiff>, added: nat, removed: nat, modified: nat,
                           baseMap: map<string, RetrieverLineage>, compMap: map<string, RetrieverLineage>, done: set<string>, d: RetrieverDiff)
    requires RetrieverProgress(diffs, added, removed, modified, baseMap, compMap, done)
    requires d.retrieverName in baseMap || d.retrieverName in compMap
    requires d.retrieverName !in done
    requires RetrieverDiffFor(d, d.retrieverName, baseMap, compMap)
    ensures RetrieverProgress(diffs + [d],
                              added + (if d.changeType == Added then 1 else 0),
                              removed + (if d.changeType == Removed then 1 else 0),
                              modified + (if d.changeType == Modified then 1 else 0),
                              baseMap, compMap, done + {d.retrieverName})
  {
    Tally.CountAppend(diffs, d, RetrieverKind, Added);
    Tally.CountAppend(diffs, d, RetrieverKind, Removed);
    Tally.CountAppend(diffs, d, RetrieverKind, Modified);
    Tally.AppendKey(diffs, d, RetrieverDiffKey);
    assert forall i :: 0 <= i < |diffs| ==> (diffs + [d])[i] == diffs[i];
  }

  lemma RetrieverKindKeys(diffs: seq<RetrieverDiff>, baseMap: map<string, RetrieverLineage>, compMap: map<string, RetrieverLineage>, t: ChangeType)
    requires RetrieverDiffsFor(diffs, baseMap, compMap, baseMap.Keys + compMap.Keys)
    ensures t == Added ==> Tally.KeysWhere(diffs, RetrieverDiffKey, RetrieverKind, t) == AddedKeys(baseMap, compMap)
    ensures t == Removed ==> Tally.KeysWhere(diffs, RetrieverDiffKey, RetrieverKind, t) == RemovedKeys(baseMap, compMap)
    ensures t == Modified ==> Tally.KeysWhere(diffs, RetrieverDiffKey, RetrieverKind, t) == ModifiedRetrieverNames(baseMap, compMap)
  {
    var want := if t == Added then AddedKeys(baseMap, compMap)
                else if t == Removed then RemovedKeys(baseMap, compMap)
                else ModifiedRetrieverNames(baseMap, compMap);
    if t != Unchanged {
      forall i | 0 <= i < |diffs| ensures RetrieverKind(diffs[i]) == t <==> diffs[i].retrieverName in want {
        RetrieverDiffMeaning(diffs[i], diffs[i].retrieverName, baseMap, compMap);
      }
      forall n | n in want ensures n in Tally.KeysWhere(diffs, RetrieverDiffKey, RetrieverKind, t) {
        assert n in Tally.KeysOf(diffs, RetrieverDiffKey);
        var i :| 0 <= i < |diffs| && RetrieverDiffKey(diffs[i]) == n;
        assert RetrieverKind(diffs[i]) == t;
      }
    }
  }

  /**
   * The outcome of compare_retrievers: one diff per name of the union of the two
   * lookup maps, each as RetrieverDiffFor says, and counters equal both to the
   * number of diffs of their kind and to the size of the matching name set.
   */
  ghost predicate RetrieverComparison(base: seq<RetrieverLineage>, comparison: seq<RetrieverLineage>,
                                      diffs: seq<RetrieverDiff>, added: nat, removed: nat, modified: nat)
  {
    var baseMap, compMap := RetrieverMap(base), RetrieverMap(comparison);
    && RetrieverDiffsFor(diffs, baseMap, compMap, baseMap.Keys + compMap.Keys)
    && |diffs| == |baseMap.Keys + compMap.Keys|
    && added == Tally.Count(diffs, RetrieverKind, Added) == |AddedKeys(baseMap, compMap)|
    && removed == Tally.Count(diffs, RetrieverKind, Removed) == |RemovedKeys(baseMap, compMap)|
    && modified == Tally.Count(diffs, RetrieverKind, Modified) == |ModifiedRetrieverNames(baseMap, compMap)|
  }

  /** Over the whole union, the number of retriever diffs of each kind is the size of the matching name set. */
  lemma {:induction false} RetrieverTallies(base: seq<RetrieverLineage>, comparison: seq<RetrieverLineage>,
                                            diffs: seq<RetrieverDiff>, added: nat, removed: nat, modified: nat)
    requires RetrieverProgress(diffs, added, removed, modified, RetrieverMap(base), RetrieverMap(comparison), RetrieverMap(base).Keys + RetrieverMap(comparison).Keys)
    ensures RetrieverComparison(base, comparison, diffs, added, removed, modified)
  {
    var baseMap, compMap := RetrieverMap(base), RetrieverMap(comparison);
    Tally.LengthIsCardinality(diffs, RetrieverDiffKey);
    RetrieverKindKeys(diffs, baseMap, compMap, Added);
    RetrieverKindKeys(diffs, baseMap, compMap, Removed);
    RetrieverKindKeys(diffs, baseMap, compMap, Modified);
    Tally.CountIsCardinality(diffs, RetrieverDiffKey, RetrieverKind, Added);
    Tally.CountIsCardinality(diffs, RetrieverDiffKey, RetrieverKind, Removed);
    Tally.CountIsCardinality(diffs, RetrieverDiffKey, RetrieverKind, Modified);
  }

  /** A retriever call compared with itself has not changed. */
  lemma RetrieverUnchangedAgainstItself(r: RetrieverLineage)
    ensures !RetrieverChanged(r, r)
  {
    assert ChunkIdSet(r) - ChunkIdSet(r) == {};
  }

  /** compare_retrievers of a list against itself: every diff is unchanged and every counter is 0. */
  lemma RetrieverSelfComparison(retrievers: seq<RetrieverLineage>, diffs: seq<RetrieverDiff>, added: nat, removed: nat, modified: nat)
    requires RetrieverComparison(retrievers, retrievers, diffs, added, removed, modified)
    ensures added == 0 && removed == 0 && modified == 0
    ensures forall i :: 0 <= i < |diffs| ==> diffs[i].changeType == Unchanged
  {
    var m := RetrieverMap(retrievers);
    forall n | n in m ensures n !in ModifiedRetrieverNames(m, m) {
      RetrieverUnchangedAgainstItself(m[n]);
    }
    assert ModifiedRetrieverNames(m, m) == {};
    assert AddedKeys(m, m) == {} && RemovedKeys(m, m) == {};
    forall i | 0 <= i < |diffs| ensures diffs[i].changeType == Unchanged {
      RetrieverDiffMeaning(diffs[i], diffs[i].retrieverName, m, m);
    }
  }

  /** Swapping the lists swaps the added and removed counters of compare_retrievers and keeps the modified one. */
  lemma RetrieverSwapCounts(base: seq<RetrieverLineage>, comparison: seq<RetrieverLineage>,
                            diffs: seq<RetrieverDiff>, added: nat, removed: nat, modified: nat,
                            diffs': seq<RetrieverDiff>, added': nat, removed': nat, modified': nat)
    requires RetrieverComparison(base, comparison, diffs, added, removed, modified)
    requires RetrieverComparison(comparison, base, diffs', added', removed', modified')
    ensures added' == removed && removed' == added && modified' == modified
    ensures |diffs'| == |diffs|
  {
    var bm, cm := RetrieverMap(base), RetrieverMap(comparison);
    assert AddedKeys(cm, bm) == RemovedKeys(bm, cm);
    assert RemovedKeys(cm, bm) == AddedKeys(bm, cm);
    forall n | n in ModifiedRetrieverNames(cm, bm) ensures n in ModifiedRetrieverNames(bm, cm) {
      assert RetrieverChanged(cm[n], bm[n]);
    }
    forall n | n in ModifiedRetrieverNames(bm, cm) ensures n in ModifiedRetrieverNames(cm, bm) {
      assert RetrieverChanged(bm[n], cm[n]);
    }
    assert ModifiedRetrieverNames(cm, bm) == ModifiedRetrieverNames(bm, cm);
    assert cm.Keys + bm.Keys == bm.Keys + cm.Keys;
  }

  /** The branches of compare_retrievers that build the diff of one name of the union; the statement form of `RetrieverDiffFor`. */
  method RetrieverDiffAt(name: string, baseMap: map<string, RetrieverLineage>, compMap: map<string, RetrieverLineage>)
    returns (d: RetrieverDiff)
    requires name in baseMap || name in compMap
    ensures RetrieverDiffFor(d, name, baseMap, compMap)
  {
    if name !in baseMap {
      var c := compMap[name];
      d := RetrieverDiff(name, true, None, Some(c.query), 0, c.resultsCount, ChunkIds(c), [], Added);
    } else if name !in compMap {
      var b := baseMap[name];
      d := RetrieverDiff(name, true, Some(b.query), None, b.resultsCount, 0, [], ChunkIds(b), Removed);
    } else {
      var b, c := baseMap[name], compMap[name];
      var chunksAdded := ListOfSet(ChunkIdSet(c) - ChunkIdSet(b));
      var chunksRemoved := ListOfSet(ChunkIdSet(b) - ChunkIdSet(c));
      var queryChanged := b.query != c.query;
      if queryChanged || chunksAdded != [] || chunksRemoved != [] {
        d := RetrieverDiff(name, queryChanged, Some(b.query), Some(c.query), b.resultsCount, c.resultsCount, chunksAdded, chunksRemoved, Modified);
      } else {
        d := RetrieverDiff(name, false, Some(b.query), Some(c.query), b.resultsCount, c.resultsCount, [], [], Unchanged);
      }
    }
  }

  /**
   * compare_retrievers: one diff per retriever name of the union, and the added,
   * removed and modified counts.
   */
  method CompareRetrievers(base: seq<RetrieverLineage>, comparison: seq<RetrieverLineage>)
    returns (diffs: seq<RetrieverDiff>, added: nat, removed: nat, modified: nat)
    ensures RetrieverComparison(base, comparison, diffs, added, removed, modified)
  {
    var baseMap := RetrieverMap(base);
    var compMap := RetrieverMap(comparison);
    var allNames := baseMap.Keys + compMap.Keys;
    var remaining := allNames;
    diffs, added, removed, modified := [], 0, 0, 0;
    while remaining != {}
      invariant remaining <= allNames
      invariant RetrieverProgress(diffs, added, removed, modified, baseMap, compMap, allNames - remaining)
      decreases remaining
    {
      var name :| name in remaining;
      var d := RetrieverDiffAt(name, baseMap, compMap);
      assert RetrieverDiffKey(d) == name by { RetrieverDiffMeaning(d, name, baseMap, compMap); }
      RetrieverDiffsStep(diffs, added, removed, modified, baseMap, compMap, allNames - remaining, d);
      assert (allNames - remaining) + {name} == allNames - (remaining - {name});
      added := added + (if d.changeType == Added then 1 else 0);
      removed := removed + (if d.changeType == Removed then 1 else 0);
      modified := modified + (if d.changeType == Modified then 1 else 0);
      diffs := diffs + [d];
      remaining := remaining - {name};
    }
    RetrieverTallies(base, comparison, diffs, added, removed, modified);
  }

  // ---------------------------------------------------------------------------
  // compare_content (counting and summary; the diff lines are an input)
  // ---------------------------------------------------------------------------

  /** How `compare_content` reads one line of a unified diff. */
  datatype DiffLineKind = PlusLine | MinusLine | OtherLine

  /** `+` but not `+++` is an added line; otherwise `-` but not `---` is a removed line. */
  function LineKind(line: string): (k: DiffLineKind)
    ensures k == PlusLine <==> |line| >= 1 && line[0] == '+' && !("+++" <= line)
    ensures k == MinusLine <==> |line| >= 1 && line[0] == '-' && !("---" <= line)
  {
    if "+" <= line && !("+++" <= line) then PlusLine
    else if "-" <= line && !("---" <= line) then MinusLine
    else OtherLine
  }

  /** The unified diff of the two contents and their similarity ratio, computed by the caller. */
  datatype ContentComparison = ContentComparison(diffLines: seq<string>, similarity: real)

  function Min(a: nat, b: nat): nat {
    if a <= b then a else b
  }

  /** The human-readable summary of a content diff. */
  function ContentSummary(added: nat, removed: nat, changed: nat): (s: string)
    ensures s == "No changes" <==> added == 0 && removed == 0 && changed == 0
  {
    var parts := (if added > 0 then ["+" + NatToString(added) + " lines"] else [])
               + (if removed > 0 then ["-" + NatToString(removed) + " lines"] else [])
               + (if changed > 0 then ["~" + NatToString(changed) + " lines modified"] else []);
    if parts == [] then "No changes"
    else
      assert parts[0][0] in {'+', '-', '~'};
      JoinFirstChar(parts, ", ");
      Join(parts, ", ")
  }

  /** The counting loop of compare_content: added (`+`) and removed (`-`) lines of the unified diff. */
  method CountDiffLines(lines: seq<string>) returns (plus: nat, minus: nat)
    ensures plus == Tally.Count(lines, LineKind, PlusLine)
    ensures minus == Tally.Count(lines, LineKind, MinusLine)
  {
    plus, minus := 0, 0;
    for i := 0 to |lines|
      invariant plus == Tally.Count(lines[..i], LineKind, PlusLine)
      invariant minus == Tally.Count(lines[..i], LineKind, MinusLine)
    {
      var line := lines[i];
      if "+" <= line && !("+++" <= line) {
        plus := plus + 1;
      } else if "-" <= line && !("---" <= line) {
        minus := minus + 1;
      }
      assert lines[..i + 1] == lines[..i] + [line];
      Tally.CountAppend(lines[..i], line, LineKind, PlusLine);
      Tally.CountAppend(lines[..i], line, LineKind, MinusLine);
    }
    assert lines[..|lines|] == lines;
  }

  /**
   * What compare_content returns for a diff: the added and removed line counts,
   * their common part moved into `lines_changed`, the similarity passed through,
   * and the summary of the three counts.
   */
  function ContentDiffOf(comparison: ContentComparison): (cd: ContentDiff)
    ensures var plus, minus := Tally.Count(comparison.diffLines, LineKind, PlusLine), Tally.Count(comparison.diffLines, LineKind, MinusLine);
            && cd.linesChanged == Min(plus, minus)
            && cd.linesAdded + cd.linesChanged == plus
            && cd.linesRemoved + cd.linesChanged == minus
    ensures cd.linesAdded == 0 || cd.linesRemoved == 0
    ensures cd.similarityScore == comparison.similarity
    ensures cd.diffSummary == ContentSummary(cd.linesAdded, cd.linesRemoved, cd.linesChanged)
    ensures cd.diffSummary == "No changes" <==>
              Tally.Count(comparison.diffLines, LineKind, PlusLine) == 0 && Tally.Count(comparison.diffLines, LineKind, MinusLine) == 0
  {
    var plus, minus := Tally.Count(comparison.diffLines, LineKind, PlusLine), Tally.Count(comparison.diffLines, LineKind, MinusLine);
    var changed := Min(plus, minus);
    ContentDiff(plus - changed, minus - changed, changed, comparison.similarity,
                ContentSummary(plus - changed, minus - changed, changed))
  }

  /** compare_content, after the diff: the counting loop, then the subtraction and the summary. */
  method CompareContent(comparison: ContentComparison) returns (cd: ContentDiff)
    ensures cd == ContentDiffOf(comparison)
  {
    var linesAdded, linesRemoved := CountDiffLines(comparison.diffLines);
    var linesChanged := Min(linesAdded, linesRemoved);
    linesAdded := linesAdded - linesChanged;
    linesRemoved := linesRemoved - linesChanged;
    cd := ContentDiff(linesAdded, linesRemoved, linesChanged, comparison.similarity,
                      ContentSummary(linesAdded, linesRemoved, linesChanged));
  }

  // ---------------------------------------------------------------------------
  // compare_contexts
  // ---------------------------------------------------------------------------

  /** `{"guaranteed": 0, "degraded": 1, "unknown": 2}.get(status, 2)`. */
  function FreshnessRank(status: string): (r: nat)
    ensures r == 0 <==> status == "guaranteed"
    ensures r == 1 <==> status == "degraded"
    ensures r == 2 <==> status != "guaranteed" && status != "degraded"
  {
    if status == "guaranteed" then 0 else if status == "degraded" then 1 else 2
  }

  /** Freshness improved when the comparison's status ranks strictly below the base's. */
  predicate FreshnessImproved(baseStatus: string, compStatus: string) {
    FreshnessRank(compStatus) < FreshnessRank(baseStatus)
  }

  /**
   * Improvement means: the comparison is "guaranteed" and the base is not, or the
   * comparison is "degraded" and the base is neither "guaranteed" nor "degraded".
   * It is a strict order: never between equal statuses, never both ways, transitive.
   */
  lemma FreshnessImprovedMeaning(a: string, b: string, c: string)
    ensures FreshnessImproved(a, b) <==>
              (b == "guaranteed" && a != "guaranteed") ||
              (b == "degraded" && a != "guaranteed" && a != "degraded")
    ensures !FreshnessImproved(a, a)
    ensures FreshnessImproved(a, b) ==> !FreshnessImproved(b, a)
    ensures FreshnessImproved(a, b) && FreshnessImproved(b, c) ==> FreshnessImproved(a, c)
  {
  }

  /** `has_changes`: any feature or retriever count, or content that is not identical. */
  predicate HasChanges(fa: nat, fr: nat, fm: nat, ra: nat, rr: nat, rm: nat, content: Option<ContentDiff>) {
    fa > 0 || fr > 0 || fm > 0 || ra > 0 || rr > 0 || rm > 0 ||
    (content.Some? && content.value.similarityScore < 1.0)
  }

  /** No part of a summary is empty or begins with 'N'. */
  ghost predicate PartsStartClear(parts: seq<string>) {
    forall i :: 0 <= i < |parts| ==> |parts[i]| >= 1 && parts[i][0] != 'N'
  }

  /** `if cond: summary_parts.append(part)`. */
  function AppendIf(parts: seq<string>, cond: bool, part: string): (r: seq<string>)
    requires PartsStartClear(parts) && |part| >= 1 && part[0] != 'N'
    ensures PartsStartClear(r)
    ensures |r| == |parts| + (if cond then 1 else 0)
  {
    if cond then parts + [part] else parts
  }

  /** `f"{n} {label}"` for a count: it begins with a digit. */
  function CountPart(n: nat, noun: string): (s: string)
    ensures |s| >= 1 && '0' <= s[0] <= '9'
  {
    NatToString(n) + " " + noun
  }

  /** The parts of `change_summary`, in the order they are appended. */
  function SummaryParts(fa: nat, fr: nat, fm: nat, ra: nat, rr: nat, rm: nat, content: Option<ContentDiff>, tokenDelta: int): (parts: seq<string>)
    ensures PartsStartClear(parts)
    ensures parts == [] <==>
              fa == 0 && fr == 0 && fm == 0 && ra == 0 && rr == 0 && rm == 0 &&
              (content.None? || content.value.diffSummary == "No changes") && tokenDelta == 0
  {
    var p1 := AppendIf([], fa > 0, CountPart(fa, "features added"));
    var p2 := AppendIf(p1, fr > 0, CountPart(fr, "features removed"));
    var p3 := AppendIf(p2, fm > 0, CountPart(fm, "features modified"));
    var p4 := AppendIf(p3, ra > 0, CountPart(ra, "retrievers added"));
    var p5 := AppendIf(p4, rr > 0, CountPart(rr, "retrievers removed"));
    var p6 := AppendIf(p5, rm > 0, CountPart(rm, "retrievers modified"));
    var showContent := content.Some? && content.value.diffSummary != "No changes";
    var p7 := AppendIf(p6, showContent, "content: " + (if content.Some? then content.value.diffSummary else ""));
    AppendIf(p7, tokenDelta != 0, "tokens: " + (if tokenDelta > 0 then "+" else "") + IntToString(tokenDelta))
  }

  /** `change_summary`: the parts joined by "; ", or "No changes detected" when there are none. */
  function ChangeSummary(fa: nat, fr: nat, fm: nat, ra: nat, rr: nat, rm: nat, content: Option<ContentDiff>, tokenDelta: int): (s: string)
    ensures s == "No changes detected" <==>
              fa == 0 && fr == 0 && fm == 0 && ra == 0 && rr == 0 && rm == 0 &&
              (content.None? || content.value.diffSummary == "No changes") && tokenDelta == 0
  {
    var parts := SummaryParts(fa, fr, fm, ra, rr, rm, content, tokenDelta);
    if parts == [] then "No changes detected"
    else
      JoinFirstChar(parts, "; ");
      assert Join(parts, "; ")[0] != "No changes detected"[0];
      Join(parts, "; ")
  }

  /** `has_changes` ignores the token delta, so it can be false while the summary reports a change. */
  lemma HasChangesIgnoresTokenDelta(tokenDelta: int)
    requires tokenDelta != 0
    ensures !HasChanges(0, 0, 0, 0, 0, 0, None)
    ensures ChangeSummary(0, 0, 0, 0, 0, 0, None, tokenDelta) != "No changes detected"
  {
  }

  /**
   * The fields of compare_contexts' result besides the feature and retriever
   * diffs: identifiers, time delta, the content diff compare_content computes,
   * token delta, freshness, `has_changes` and the change summary text.
   */
  ghost predicate ContextSummarized(base: ContextLineage, comparison: ContextLineage, content: Option<ContentComparison>, timeDeltaMs: int, cd: ContextDiff)
  {
    && cd.baseContextId == base.contextId && cd.comparisonContextId == comparison.contextId
    && cd.timeDeltaMs == timeDeltaMs
    && (cd.contentDiff.Some? <==> content.Some?)
    && (content.Some? ==> cd.contentDiff == Some(ContentDiffOf(content.value)))
    && (content.Some? ==> cd.contentDiff.value.similarityScore == content.value.similarity)
    && (content.Some? ==>
          (cd.contentDiff.value.diffSummary == "No changes" <==>
             Tally.Count(content.value.diffLines, LineKind, PlusLine) == 0 &&
             Tally.Count(content.value.diffLines, LineKind, MinusLine) == 0))
    && cd.tokenDelta == comparison.tokenUsage - base.tokenUsage
    && cd.baseFreshnessStatus == base.freshnessStatus
    && cd.comparisonFreshnessStatus == comparison.freshnessStatus
    && (cd.freshnessImproved <==> FreshnessRank(comparison.freshnessStatus) < FreshnessRank(base.freshnessStatus))
    && (cd.hasChanges <==>
          cd.featuresAdded > 0 || cd.featuresRemoved > 0 || cd.featuresModified > 0 ||
          cd.retrieversAdded > 0 || cd.retrieversRemoved > 0 || cd.retrieversModified > 0 ||
          (content.Some? && content.value.similarity < 1.0))
    && (cd.changeSummary == "No changes detected" <==>
          cd.featuresAdded == 0 && cd.featuresRemoved == 0 && cd.featuresModified == 0 &&
          cd.retrieversAdded == 0 && cd.retrieversRemoved == 0 && cd.retrieversModified == 0 &&
          (content.None? || cd.contentDiff.value.diffSummary == "No changes") &&
          cd.tokenDelta == 0)
    && cd.changeSummary == ChangeSummary(cd.featuresAdded, cd.featuresRemoved, cd.featuresModified,
                                         cd.retrieversAdded, cd.retrieversRemoved, cd.retrieversModified,
                                         cd.contentDiff, cd.tokenDelta)
  }

  /** The rest of compare_contexts once the feature and retriever diffs are known. */
  method SummarizeContexts(base: ContextLineage, comparison: ContextLineage, content: Option<ContentComparison>, timeDeltaMs: int,
                           featureDiffs: seq<FeatureDiff>, featuresAdded: nat, featuresRemoved: nat, featuresModified: nat,
                           retrieverDiffs: seq<RetrieverDiff>, retrieversAdded: nat, retrieversRemoved: nat, retrieversModified: nat)
    returns (cd: ContextDiff)
    ensures cd.featureDiffs == featureDiffs && cd.featuresAdded == featuresAdded
    ensures cd.featuresRemoved == featuresRemoved && cd.featuresModified == featuresModified
    ensures cd.retrieverDiffs == retrieverDiffs && cd.retrieversAdded == retrieversAdded
    ensures cd.retrieversRemoved == retrieversRemoved && cd.retrieversModified == retrieversModified
    ensures ContextSummarized(base, comparison, content, timeDeltaMs, cd)
  {
    var contentDiff: Option<ContentDiff> := None;
    if content.Some? {
      var c := CompareContent(content.value);
      contentDiff := Some(c);
    }
    var tokenDelta := comparison.tokenUsage - base.tokenUsage;
    var freshnessImproved := FreshnessImproved(base.freshnessStatus, comparison.freshnessStatus);
    var hasChanges := HasChanges(featuresAdded, featuresRemoved, featuresModified,
                                 retrieversAdded, retrieversRemoved, retrieversModified, contentDiff);
    var changeSummary := ChangeSummary(featuresAdded, featuresRemoved, featuresModified,
                                       retrieversAdded, retrieversRemoved, retrieversModified, contentDiff, tokenDelta);
    cd := ContextDiff(base.contextId, comparison.contextId, timeDeltaMs,
                      featureDiffs, featuresAdded, featuresRemoved, featuresModified,
                      retrieverDiffs, retrieversAdded, retrieversRemoved, retrieversModified,
                      contentDiff, tokenDelta, base.freshnessStatus, comparison.freshnessStatus,
                      freshnessImproved, hasChanges, changeSummary);
  }

  /**
   * compare_contexts: combines the feature, retriever and (when both contents are
   * given) content comparisons with the token delta, the freshness comparison,
   * `has_changes` and the change summary.
   */
  method CompareContexts(base: ContextLineage, comparison: ContextLineage, content: Option<ContentComparison>, timeDeltaMs: int)
    returns (cd: ContextDiff)
    ensures FeatureComparison(base.featuresUsed, comparison.featuresUsed,
                              cd.featureDiffs, cd.featuresAdded, cd.featuresRemoved, cd.featuresModified)
    ensures RetrieverComparison(base.retrieversUsed, comparison.retrieversUsed,
                                cd.retrieverDiffs, cd.retrieversAdded, cd.retrieversRemoved, cd.retrieversModified)
    ensures ContextSummarized(base, comparison, content, timeDeltaMs, cd)
  {
    var featureDiffs, featuresAdded, featuresRemoved, featuresModified := CompareFeatures(base.featuresUsed, comparison.featuresUsed);
    var retrieverDiffs, retrieversAdded, retrieversRemoved, retrieversModified := CompareRetrievers(base.retrieversUsed, comparison.retrieversUsed);
    cd := SummarizeContexts(base, comparison, content, timeDeltaMs,
                            featureDiffs, featuresAdded, featuresRemoved, featuresModified,
                            retrieverDiffs, retrieversAdded, retrieversRemoved, retrieversModified);
  }

  /** A context compared with itself, without content, reports no change and no freshness improvement. */
  lemma ContextSelfComparison(context: ContextLineage, timeDeltaMs: int, cd: ContextDiff)
    requires FeatureComparison(context.featuresUsed, context.featuresUsed,
                               cd.featureDiffs, cd.featuresAdded, cd.featuresRemoved, cd.featuresModified)
    requires RetrieverComparison(context.retrieversUsed, context.retrieversUsed,
                                 cd.retrieverDiffs, cd.retrieversAdded, cd.retrieversRemoved, cd.retrieversModified)
    requires ContextSummarized(context, context, None, timeDeltaMs, cd)
    ensures !cd.hasChanges && cd.changeSummary == "No changes detected"
    ensures cd.tokenDelta == 0 && !cd.freshnessImproved
  {
    FeatureSelfComparison(context.featuresUsed, cd.featureDiffs, cd.featuresAdded, cd.featuresRemoved, cd.featuresModified);
    RetrieverSelfComparison(context.retrieversUsed, cd.retrieverDiffs, cd.retrieversAdded, cd.retrieversRemoved, cd.retrieversModified);
  }
}
