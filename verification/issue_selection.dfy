/** The issue checklist (src/components/feedback/IssueSelection.tsx): one checkbox per issue,
    checked when the issue is among the selected ones, labelled through an id made from the
    issue text, and an error line under the list when the form reports one for `issue`. */
module IssueSelection {
  import opened Wrappers
  import opened Text
  import opened Catalog

  /** `issue.replace(/\s/g, '-')`: every white-space character becomes a dash and every other
      character stays where it was, so the id has no white space and the issue's length. */
  function CheckboxId(issue: string): (id: string)
    ensures |id| == |issue|
    ensures NoSpace(id)
    ensures forall i :: 0 <= i < |issue| && !IsSpace(issue[i]) ==> id[i] == issue[i]
    ensures forall i :: 0 <= i < |issue| && IsSpace(issue[i]) ==> id[i] == '-'
  {
    if issue == [] then []
    else [if IsSpace(issue[0]) then '-' else issue[0]] + CheckboxId(issue[1..])
  }

  /** One rendered row: the checkbox, the label pointing at it, and the issue its change
      handler reports. */
  datatype IssueCheckbox = IssueCheckbox(
    issue: string,
    id: string,
    labelFor: string,
    checked: bool,
    toggles: string)

  /** `issues.map(...)`: one row per issue, in the given order. */
  function RenderIssues(issues: seq<string>, selectedIssues: seq<string>): (rows: seq<IssueCheckbox>)
    ensures |rows| == |issues|
    ensures forall i :: 0 <= i < |issues| ==> rows[i].issue == issues[i]
    ensures forall i :: 0 <= i < |issues| ==> (rows[i].checked <==> issues[i] in selectedIssues)
    ensures forall i :: 0 <= i < |issues| ==> rows[i].id == CheckboxId(issues[i])
    ensures forall i :: 0 <= i < |issues| ==>
              rows[i].labelFor == rows[i].id && NoSpace(rows[i].id) && |rows[i].id| == |issues[i]|
    ensures forall i :: 0 <= i < |issues| ==> rows[i].toggles == issues[i]
  {
    if issues == [] then []
    else
      var issue := issues[0];
      [IssueCheckbox(issue, CheckboxId(issue), CheckboxId(issue), issue in selectedIssues, issue)]
        + RenderIssues(issues[1..], selectedIssues)
  }

  /** `errors.issue && <p>{errors.issue}</p>`: the message is shown when the form has a
      non-empty error for the key "issue"; an empty string is falsy and shows nothing. */
  function IssueError(errors: map<string, string>): (shown: Option<string>)
    ensures shown.Some? <==> "issue" in errors && errors["issue"] != ""
    ensures shown.Some? ==> shown.value == errors["issue"]
  {
    if "issue" in errors && errors["issue"] != "" then Some(errors["issue"]) else None
  }

  /** Two issues of different lengths, or whose first characters differ and are not white
      space, get different ids. */
  lemma IdsApart(a: string, b: string)
    requires |a| != |b| || (a != [] && b != [] && !IsSpace(a[0]) && !IsSpace(b[0]) && a[0] != b[0])
    ensures CheckboxId(a) != CheckboxId(b)
  {
    if |a| == |b| {
      assert CheckboxId(a)[0] != CheckboxId(b)[0];
    }
  }

  /** The ids of the checkboxes for the catalogue's issue list are all different, so every
      label points at its own checkbox. */
  lemma ProductIssueIdsDistinct()
    ensures forall i, j :: 0 <= i < j < |ProductIssues| ==>
              CheckboxId(ProductIssues[i]) != CheckboxId(ProductIssues[j])
  {
    forall i, j | 0 <= i < j < |ProductIssues|
      ensures CheckboxId(ProductIssues[i]) != CheckboxId(ProductIssues[j])
    {
      var a, b := ProductIssues[i], ProductIssues[j];
      if i == 3 && j == 4 {
        assert a[0] == 'M' && b[0] == 'F';
      } else {
        assert |a| != |b|;
      }
      IdsApart(a, b);
    }
  }

  /** Ids are not unique in general: an issue with a space and the same issue with a dash in
      its place get the same id. */
  lemma CheckboxIdsCanCollide()
    ensures "a b" != "a-b" && CheckboxId("a b") == CheckboxId("a-b")
  {
    assert CheckboxId("a b") == "a-b";
    assert CheckboxId("a-b") == "a-b";
  }
}
