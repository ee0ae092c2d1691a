/**
 * The human-readable diff report (format_diff_report in
 * src/fabra/utils/compare.py): a list of lines joined by newlines, framed by a
 * 60-character rule, with per-entry detail only in verbose mode.
 *
 * Two renderings come from outside the model: `render` is Python's `str()` of a
 * feature value, and the similarity (`:.2%`) and cost (`:.6f`) texts are given
 * already formatted.
 */
module Report {
  import opened Wrappers
  import opened Models
  import opened Text

  /** `str()` of an optional feature value: "None" when absent. */
  function ShowValue(v: Option<Value>, render: Value -> string): string {
    match v
    case None => "None"
    case Some(x) => render(x)
  }

  /** `str()` of an optional query: "None" when absent. */
  function ShowQuery(q: Option<string>): string {
    match q
    case None => "None"
    case Some(s) => s
  }

  /** The lines the verbose report prints for one feature diff; none for an unchanged one. */
  function FeatureEntryLines(fd: FeatureDiff, render: Value -> string): seq<string> {
    if fd.changeType == Unchanged then []
    else
      ["    [" + fd.changeType.Upper() + "] " + fd.featureName + " (" + fd.entityId + ")"]
      + match fd.changeType
        case Modified => ["      Old: " + ShowValue(fd.oldValue, render), "      New: " + ShowValue(fd.newValue, render)]
        case Added => ["      Value: " + ShowValue(fd.newValue, render)]
        case _ => ["      Value: " + ShowValue(fd.oldValue, render)]
  }

  /** The lines the verbose report prints for one retriever diff; none for an unchanged one. */
  function RetrieverEntryLines(rd: RetrieverDiff): seq<string> {
    if rd.changeType == Unchanged then []
    else
      ["    [" + rd.changeType.Upper() + "] " + rd.retrieverName]
      + (if rd.queryChanged then ["      Query changed: '" + ShowQuery(rd.oldQuery) + "' -> '" + ShowQuery(rd.newQuery) + "'"] else [])
      + (if rd.chunksAdded != [] then ["      Chunks added: " + NatToString(|rd.chunksAdded|)] else [])
      + (if rd.chunksRemoved != [] then ["      Chunks removed: " + NatToString(|rd.chunksRemoved|)] else [])
  }

  /** The per-feature lines of the verbose report, entry after entry. */
  function FeatureSection(diffs: seq<FeatureDiff>, render: Value -> string): seq<string>
    decreases |diffs|
  {
    if diffs == [] then []
    else FeatureSection(diffs[..|diffs| - 1], render) + FeatureEntryLines(diffs[|diffs| - 1], render)
  }

  /** The per-retriever lines of the verbose report, entry after entry. */
  function RetrieverSection(diffs: seq<RetrieverDiff>): seq<string>
    decreases |diffs|
  {
    if diffs == [] then []
    else RetrieverSection(diffs[..|diffs| - 1]) + RetrieverEntryLines(diffs[|diffs| - 1])
  }

  /** The feature diffs that are not "unchanged", in order. */
  function ChangedFeatures(diffs: seq<FeatureDiff>): (r: seq<FeatureDiff>)
    ensures forall i :: 0 <= i < |r| ==> r[i].changeType != Unchanged
    ensures forall d :: d in r ==> d in diffs
    ensures forall d :: d in diffs && d.changeType != Unchanged ==> d in r
    decreases |diffs|
  {
    if diffs == [] then []
    else
      var rest := ChangedFeatures(diffs[..|diffs| - 1]);
      if diffs[|diffs| - 1].changeType == Unchanged then rest else rest + [diffs[|diffs| - 1]]
  }

  /** The retriever diffs that are not "unchanged", in order. */
  function ChangedRetrievers(diffs: seq<RetrieverDiff>): (r: seq<RetrieverDiff>)
    ensures forall i :: 0 <= i < |r| ==> r[i].changeType != Unchanged
    ensures forall d :: d in r ==> d in diffs
    ensures forall d :: d in diffs && d.changeType != Unchanged ==> d in r
    decreases |diffs|
  {
    if diffs == [] then []
    else
      var rest := ChangedRetrievers(diffs[..|diffs| - 1]);
      if diffs[|diffs| - 1].changeType == Unchanged then rest else rest + [diffs[|diffs| - 1]]
  }

  /** Unchanged feature diffs contribute no line: the section equals that of the changed diffs alone. */
  lemma {:induction false} FeatureSectionSkipsUnchanged(diffs: seq<FeatureDiff>, render: Value -> string)
    ensures FeatureSection(diffs, render) == FeatureSection(ChangedFeatures(diffs), render)
    decreases |diffs|
  {
    if diffs != [] {
      var init, last := diffs[..|diffs| - 1], diffs[|diffs| - 1];
      FeatureSectionSkipsUnchanged(init, render);
      var rest := ChangedFeatures(init);
      if last.changeType != Unchanged {
        assert (rest + [last])[..|rest|] == rest;
      }
    }
  }

  /** Unchanged retriever diffs contribute no line: the section equals that of the changed diffs alone. */
  lemma {:induction false} RetrieverSectionSkipsUnchanged(diffs: seq<RetrieverDiff>)
    ensures RetrieverSection(diffs) == RetrieverSection(ChangedRetrievers(diffs))
    decreases |diffs|
  {
    if diffs != [] {
      var init, last := diffs[..|diffs| - 1], diffs[|diffs| - 1];
      RetrieverSectionSkipsUnchanged(init);
      var rest := ChangedRetrievers(init);
      if last.changeType != Unchanged {
        assert (rest + [last])[..|rest|] == rest;
      }
    }
  }

  /** The feature section is empty exactly when every feature diff is unchanged. */
  lemma {:induction false} FeatureSectionEmptyIff(diffs: seq<FeatureDiff>, render: Value -> string)
    ensures FeatureSection(diffs, render) == [] <==> forall i :: 0 <= i < |diffs| ==> diffs[i].changeType == Unchanged
    decreases |diffs|
  {
    if diffs != [] {
      var init := diffs[..|diffs| - 1];
      FeatureSectionEmptyIff(init, render);
      assert forall i :: 0 <= i < |init| ==> init[i] == diffs[i];
    }
  }

  /** The retriever section is empty exactly when every retriever diff is unchanged. */
  lemma {:induction false} RetrieverSectionEmptyIff(diffs: seq<RetrieverDiff>)
    ensures RetrieverSection(diffs) == [] <==> forall i :: 0 <= i < |diffs| ==> diffs[i].changeType == Unchanged
    decreases |diffs|
  {
    if diffs != [] {
      var init := diffs[..|diffs| - 1];
      RetrieverSectionEmptyIff(init);
      assert forall i :: 0 <= i < |init| ==> init[i] == diffs[i];
    }
  }

  /** The lines printed for one changed feature diff; the statement form of `FeatureEntryLines`. */
  method FeatureEntry(fd: FeatureDiff, render: Value -> string) returns (entry: seq<string>)
    requires fd.changeType != Unchanged
    ensures entry == FeatureEntryLines(fd, render)
  {
    entry := ["    [" + fd.changeType.Upper() + "] " + fd.featureName + " (" + fd.entityId + ")"];
    if fd.changeType == Modified {
      entry := entry + ["      Old: " + ShowValue(fd.oldValue, render)];
      entry := entry + ["      New: " + ShowValue(fd.newValue, render)];
    } else if fd.changeType == Added {
      entry := entry + ["      Value: " + ShowValue(fd.newValue, render)];
    } else {
      entry := entry + ["      Value: " + ShowValue(fd.oldValue, render)];
    }
  }

  /** The loop over `diff.feature_diffs` that skips unchanged entries. */
  method FeatureEntries(diffs: seq<FeatureDiff>, render: Value -> string) returns (lines: seq<string>)
    ensures lines == FeatureSection(diffs, render)
  {
    lines := [];
    for i := 0 to |diffs|
      invariant lines == FeatureSection(diffs[..i], render)
    {
      var fd := diffs[i];
      assert diffs[..i + 1][..i] == diffs[..i];
      if fd.changeType == Unchanged {
        continue;
      }
      var entry := FeatureEntry(fd, render);
      lines := lines + entry;
    }
    assert diffs[..|diffs|] == diffs;
  }

  /** The lines printed for one changed retriever diff; the statement form of `RetrieverEntryLines`. */
  method RetrieverEntry(rd: RetrieverDiff) returns (entry: seq<string>)
    requires rd.changeType != Unchanged
    ensures entry == RetrieverEntryLines(rd)
  {
    var header := ["    [" + rd.changeType.Upper() + "] " + rd.retrieverName];
    var query: seq<string> := [];
    if rd.queryChanged {
      query := ["      Query changed: '" + ShowQuery(rd.oldQuery) + "' -> '" + ShowQuery(rd.newQuery) + "'"];
    }
    var added: seq<string> := [];
    if rd.chunksAdded != [] {
      added := ["      Chunks added: " + NatToString(|rd.chunksAdded|)];
    }
    var removed: seq<string> := [];
    if rd.chunksRemoved != [] {
      removed := ["      Chunks removed: " + NatToString(|rd.chunksRemoved|)];
    }
    entry := header + query + added + removed;
  }

  /** The loop over `diff.retriever_diffs` that skips unchanged entries. */
  method RetrieverEntries(diffs: seq<RetrieverDiff>) returns (lines: seq<string>)
    ensures lines == RetrieverSection(diffs)
  {
    lines := [];
    for i := 0 to |diffs|
      invariant lines == RetrieverSection(diffs[..i])
    {
      var rd := diffs[i];
      assert diffs[..i + 1][..i] == diffs[..i];
      if rd.changeType == Unchanged {
        continue;
      }
      var entry := RetrieverEntry(rd);
      lines := lines + entry;
    }
    assert diffs[..|diffs|] == diffs;
  }

  /** The three count lines under "Features:" and "Retrievers:". */
  function CountLines(added: nat, removed: nat, modified: nat): seq<string> {
    ["  Added:    " + NatToString(added), "  Removed:  " + NatToString(removed), "  Modified: " + NatToString(modified)]
  }

  /** The title block: rule, title, rule, the two context ids, the time delta and the summary. */
  function HeaderLines(diff: ContextDiff): seq<string> {
    [Rule(), "Context Diff Report", Rule(),
     "Base context:       " + diff.baseContextId,
     "Comparison context: " + diff.comparisonContextId,
     "Time delta:         " + IntToString(diff.timeDeltaMs) + "ms",
     "",
     "Summary:",
     "  " + diff.changeSummary,
     ""]
  }

  /** The "Features:" block; per-entry lines only in verbose mode and when there are diffs. */
  function FeaturesBlock(diff: ContextDiff, verbose: bool, render: Value -> string): seq<string> {
    ["Features:"]
    + CountLines(diff.featuresAdded, diff.featuresRemoved, diff.featuresModified)
    + (if verbose && diff.featureDiffs != [] then [""] + FeatureSection(diff.featureDiffs, render) else [])
    + [""]
  }

  /** The "Retrievers:" block; per-entry lines only in verbose mode and when there are diffs. */
  function RetrieversBlock(diff: ContextDiff, verbose: bool): seq<string> {
    ["Retrievers:"]
    + CountLines(diff.retrieversAdded, diff.retrieversRemoved, diff.retrieversModified)
    + (if verbose && diff.retrieverDiffs != [] then [""] + RetrieverSection(diff.retrieverDiffs) else [])
    + [""]
  }

  /** The "Content:" block, printed only when a content diff exists. */
  function ContentBlock(diff: ContextDiff, similarityText: string): seq<string> {
    (if diff.contentDiff.Some?
     then ["Content:", "  Similarity: " + similarityText, "  " + diff.contentDiff.value.diffSummary]
     else [])
    + [""]
  }

  /** The token, cost and freshness blocks and the closing rule. */
  function TrailerLines(diff: ContextDiff, costText: string): seq<string> {
    ["Token/Cost Changes:",
     "  Tokens: " + (if diff.tokenDelta > 0 then "+" else "") + IntToString(diff.tokenDelta),
     "  Cost:   " + costText,
     "",
     "Freshness:",
     "  Base:       " + diff.baseFreshnessStatus,
     "  Comparison: " + diff.comparisonFreshnessStatus,
     "  Improved:   " + BoolToString(diff.freshnessImproved),
     "",
     Rule()]
  }

  /** Every line of the report, in order. */
  function ReportLines(diff: ContextDiff, verbose: bool, similarityText: string, costText: string, render: Value -> string): seq<string>
  {
    HeaderLines(diff) + FeaturesBlock(diff, verbose, render) + RetrieversBlock(diff, verbose)
    + ContentBlock(diff, similarityText) + TrailerLines(diff, costText)
  }

  /** The report's first and last lines are the rule. */
  lemma ReportFramedByRules(diff: ContextDiff, verbose: bool, similarityText: string, costText: string, render: Value -> string)
    ensures var lines := ReportLines(diff, verbose, similarityText, costText, render);
            |lines| >= 2 && lines[0] == Rule() && lines[|lines| - 1] == Rule()
  {
  }

  /** Outside verbose mode the report prints no per-entry line, whatever the diffs hold. */
  lemma TerseReportIgnoresEntries(diff: ContextDiff, similarityText: string, costText: string, render: Value -> string)
    ensures ReportLines(diff, false, similarityText, costText, render)
         == ReportLines(diff.(featureDiffs := [], retrieverDiffs := []), false, similarityText, costText, render)
  {
  }

  /** The "Features:" part of format_diff_report. */
  method FeaturesPart(diff: ContextDiff, verbose: bool, render: Value -> string) returns (features: seq<string>)
    ensures features == FeaturesBlock(diff, verbose, render)
  {
    features := ["Features:"] + CountLines(diff.featuresAdded, diff.featuresRemoved, diff.featuresModified);
    if verbose && diff.featureDiffs != [] {
      var entries := FeatureEntries(diff.featureDiffs, render);
      features := features + [""] + entries;
    }
    features := features + [""];
  }

  /** The "Retrievers:" part of format_diff_report. */
  method RetrieversPart(diff: ContextDiff, verbose: bool) returns (retrievers: seq<string>)
    ensures retrievers == RetrieversBlock(diff, verbose)
  {
    retrievers := ["Retrievers:"] + CountLines(diff.retrieversAdded, diff.retrieversRemoved, diff.retrieversModified);
    if verbose && diff.retrieverDiffs != [] {
      var entries := RetrieverEntries(diff.retrieverDiffs);
      retrievers := retrievers + [""] + entries;
    }
    retrievers := retrievers + [""];
  }

  /**
   * format_diff_report: the report text. It is the newline-joined report lines,
   * and it opens and closes with the 60-character rule.
   */
  method FormatDiffReport(diff: ContextDiff, verbose: bool, similarityText: string, costText: string, render: Value -> string)
    returns (report: string)
    ensures report == Join(ReportLines(diff, verbose, similarityText, costText, render), "\n")
    ensures |report| >= 60
    ensures report[..60] == Rule() && report[|report| - 60..] == Rule()
  {
    var header := HeaderLines(diff);
    var features := FeaturesPart(diff, verbose, render);
    var retrievers := RetrieversPart(diff, verbose);
    var content := [];
    if diff.contentDiff.Some? {
      content := ["Content:", "  Similarity: " + similarityText, "  " + diff.contentDiff.value.diffSummary];
    }
    content := content + [""];
    var trailer := TrailerLines(diff, costText);

    var lines := header + features + retrievers + content + trailer;
    assert lines == ReportLines(diff, verbose, similarityText, costText, render);
    ReportFramedByRules(diff, verbose, similarityText, costText, render);
    report := Join(lines, "\n");
    JoinFramedByRule(lines, "\n");
  }
}
