/**
 * Restricting issues to the lines a change touched, and the fail-open rule
 * both analysis paths follow when that restriction cannot be computed.
 * The line diff itself is computed by a helper that is not part of this
 * model; it is represented by its outcome.
 */
module DiffFilter {
  import opened Wrappers
  import opened Seqs
  import opened Issues

  /** A block of lines of the new source that the diff marks as changed. */
  datatype ChangedRange = ChangedRange(first: int, last: int)

  type DiffReport = seq<ChangedRange>

  predicate InChangedLines(line: int, report: DiffReport) {
    exists k :: 0 <= k < |report| && report[k].first <= line <= report[k].last
  }

  function KeepIfChanged(report: DiffReport): Issue -> Option<Issue> {
    (issue: Issue) => if InChangedLines(issue.line, report) then Some(issue) else None
  }

  /** The issues whose line lies in a changed block, in their original order. */
  function IssuesInModifiedLinesOnly(issues: seq<Issue>, report: DiffReport): seq<Issue> {
    FilterMap(issues, KeepIfChanged(report))
  }

  /**
   * What asking for the reference source and diffing against it yielded:
   * no reference source, an exception anywhere along the way, or a report.
   */
  datatype DiffOutcome = NoReference | DiffThrew | Diffed(report: DiffReport)

  /**
   * The issues appended to the result list: restricted to changed lines
   * only when the restriction is requested and the diff succeeded.
   */
  function MergeTail(perTool: seq<Issue>, changedLinesOnly: bool, outcome: DiffOutcome): seq<Issue> {
    if changedLinesOnly && outcome.Diffed? then IssuesInModifiedLinesOnly(perTool, outcome.report)
    else perTool
  }

  /** Fail-open: without a restriction, or when it cannot be computed, every issue is kept. */
  lemma MergeTailFailOpen(perTool: seq<Issue>, changedLinesOnly: bool, outcome: DiffOutcome)
    requires !changedLinesOnly || !outcome.Diffed?
    ensures MergeTail(perTool, changedLinesOnly, outcome) == perTool
  {
  }

  /** With a report, exactly the issues on changed lines are kept, each one unchanged. */
  lemma MergeTailFiltered(perTool: seq<Issue>, report: DiffReport, issue: Issue)
    ensures issue in MergeTail(perTool, true, Diffed(report)) <==> issue in perTool && InChangedLines(issue.line, report)
  {
    FilterMapMember(perTool, KeepIfChanged(report), issue);
    if issue in perTool && InChangedLines(issue.line, report) {
      var i :| 0 <= i < |perTool| && perTool[i] == issue;
      assert KeepIfChanged(report)(perTool[i]) == Some(issue);
    }
  }

  /** The merge never invents issues and never reorders them. */
  lemma MergeTailSubsequence(perTool: seq<Issue>, changedLinesOnly: bool, outcome: DiffOutcome)
    ensures |MergeTail(perTool, changedLinesOnly, outcome)| <= |perTool|
    ensures changedLinesOnly && outcome.Diffed? ==>
      exists idx :: IsOriginMap(perTool, KeepIfChanged(outcome.report), idx)
  {
    if changedLinesOnly && outcome.Diffed? {
      FilterMapOrigins(perTool, KeepIfChanged(outcome.report));
    }
  }
}
