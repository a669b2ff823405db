/** The issue record the sensors produce and the analysis merges hand on. */
module Issues {
  import opened Wrappers

  /**
   * An Issue with the fields the core reads or writes. `severity` is None
   * until a sensor or the quality profile sets it; `componentSafe` is empty
   * until the merge resolves it.
   */
  datatype Issue = Issue(
    line: int,
    message: string,
    rule: string,
    component: string,
    componentSafe: string,
    severity: Option<string>)

  /** A freshly parsed issue, with only line, message, rule and component set. */
  function NewIssue(line: int, message: string, rule: string, component: string): Issue {
    Issue(line, message, rule, component, "", None)
  }

  /**
   * The quality profile as Profile.IsRuleEnabled consults it: the enabled
   * rules by key, each with its configured severity. A key that is absent
   * is a rule the lookup answers with null.
   */
  type Profile = map<string, string>

  /** A List<Issue> that callers share and the merges append to. */
  class IssueList {
    var items: seq<Issue>

    constructor ()
      ensures items == []
    {
      items := [];
    }
  }
}
