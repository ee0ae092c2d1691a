/**
 * The lineage records of a context assembly and the diff records computed
 * from two of them, reduced to the fields the diff engine reads or writes
 * (src/fabra/models.py).
 */
module Models {
  import opened Wrappers

  /** A feature value of any type; the diff engine only compares values for equality. */
  type Value(==)

  /** One feature read during assembly (FeatureLineage). */
  datatype FeatureLineage = FeatureLineage(
    featureName: string,
    entityId: string,
    value: Value,
    freshnessMs: int)

  /** A document chunk a retriever returned; only its identifier matters here. */
  datatype ChunkLineage = ChunkLineage(chunkId: string)

  /** One retriever call made during assembly (RetrieverLineage). */
  datatype RetrieverLineage = RetrieverLineage(
    retrieverName: string,
    query: string,
    resultsCount: int,
    chunksReturned: seq<ChunkLineage>)

  /** What one context assembly used (ContextLineage). */
  datatype ContextLineage = ContextLineage(
    contextId: string,
    featuresUsed: seq<FeatureLineage>,
    retrieversUsed: seq<RetrieverLineage>,
    freshnessStatus: string,
    tokenUsage: int)

  /** The `change_type` literal of a feature or retriever diff. */
  datatype ChangeType = Added | Removed | Modified | Unchanged
  {
    /** The literal as stored: "added", "removed", "modified", "unchanged". */
    function Name(): string {
      match this
      case Added => "added"
      case Removed => "removed"
      case Modified => "modified"
      case Unchanged => "unchanged"
    }

    /** `change_type.upper()`, as the report prints it. */
    function Upper(): string {
      match this
      case Added => "ADDED"
      case Removed => "REMOVED"
      case Modified => "MODIFIED"
      case Unchanged => "UNCHANGED"
    }
  }

  /** The key a feature diff is computed under: `(feature_name, entity_id)`. */
  datatype FeatureKey = FeatureKey(featureName: string, entityId: string)

  /** A change in one feature value between two contexts (FeatureDiff). */
  datatype FeatureDiff = FeatureDiff(
    featureName: string,
    entityId: string,
    oldValue: Option<Value>,
    newValue: Option<Value>,
    changeType: ChangeType,
    oldFreshnessMs: Option<int>,
    newFreshnessMs: Option<int>)

  /** A change in one retriever's results between two contexts (RetrieverDiff). */
  datatype RetrieverDiff = RetrieverDiff(
    retrieverName: string,
    queryChanged: bool,
    oldQuery: Option<string>,
    newQuery: Option<string>,
    oldResultsCount: int,
    newResultsCount: int,
    chunksAdded: seq<string>,
    chunksRemoved: seq<string>,
    changeType: ChangeType)

  /** Line-level differences between two context contents (ContentDiff). */
  datatype ContentDiff = ContentDiff(
    linesAdded: nat,
    linesRemoved: nat,
    linesChanged: nat,
    similarityScore: real,
    diffSummary: string)

  /** The comparison of two context assemblies (ContextDiff). */
  datatype ContextDiff = ContextDiff(
    baseContextId: string,
    comparisonContextId: string,
    timeDeltaMs: int,
    featureDiffs: seq<FeatureDiff>,
    featuresAdded: nat,
    featuresRemoved: nat,
    featuresModified: nat,
    retrieverDiffs: seq<RetrieverDiff>,
    retrieversAdded: nat,
    retrieversRemoved: nat,
    retrieversModified: nat,
    contentDiff: Option<ContentDiff>,
    tokenDelta: int,
    baseFreshnessStatus: string,
    comparisonFreshnessStatus: string,
    freshnessImproved: bool,
    hasChanges: bool,
    changeSummary: string)
}
