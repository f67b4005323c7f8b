/** The feedback page (src/pages/Feedback.tsx): a form record edited field by field, an
    anonymity switch that hides the name and e-mail inputs, a visit date that can be changed
    but never cleared, and a submit that shows "Submitting..." until a timer completes it and
    moves to the thank-you page. Nothing is validated before submitting. */
module FeedbackForm {
  import opened Wrappers
  import opened Text
  import opened Routing

  /** The stores offered by the store select. */
  const StoreLocations: seq<string> := [
    "Lagos - Ikeja Mall",
    "Lagos - Lekki Phase 1",
    "Abuja - Wuse II",
    "Abuja - Jabi Lake Mall",
    "Port Harcourt - GRA",
    "Ibadan - Dugbe",
    "Kano - Nassarawa",
    "Enugu - New Haven"
  ]

  /** `formData`. Each rating holds the slider's value array. */
  datatype FormData = FormData(
    customerName: string,
    email: string,
    storeLocation: string,
    staffFriendliness: seq<int>,
    cleanliness: seq<int>,
    productAvailability: seq<int>,
    overallExperience: seq<int>,
    comments: string)

  const InitialFormData: FormData := FormData("", "", "", [5], [5], [5], [5], "")

  /** The inputs wired to `handleInputChange`, by their `name` attribute. */
  datatype TextField = CustomerName | Email | Comments

  /** The four sliders wired to `handleSliderChange`. */
  datatype RatingField = StaffFriendliness | Cleanliness | ProductAvailability | OverallExperience

  function TextOf(fd: FormData, field: TextField): string {
    match field
    case CustomerName => fd.customerName
    case Email => fd.email
    case Comments => fd.comments
  }

  function RatingOf(fd: FormData, field: RatingField): seq<int> {
    match field
    case StaffFriendliness => fd.staffFriendliness
    case Cleanliness => fd.cleanliness
    case ProductAvailability => fd.productAvailability
    case OverallExperience => fd.overallExperience
  }

  /** `{ ...prev, [name]: value }` for a text input: the named field takes the new value and
      every other field, text or rating or store, keeps its old one. */
  function WithText(fd: FormData, field: TextField, v: string): (r: FormData)
    ensures TextOf(r, field) == v
    ensures forall g :: g != field ==> TextOf(r, g) == TextOf(fd, g)
    ensures forall g :: RatingOf(r, g) == RatingOf(fd, g)
    ensures r.storeLocation == fd.storeLocation
  {
    match field
    case CustomerName => fd.(customerName := v)
    case Email => fd.(email := v)
    case Comments => fd.(comments := v)
  }

  /** `{ ...prev, [name]: value }` for a slider: only the named rating changes. */
  function WithRating(fd: FormData, field: RatingField, v: seq<int>): (r: FormData)
    ensures RatingOf(r, field) == v
    ensures forall g :: g != field ==> RatingOf(r, g) == RatingOf(fd, g)
    ensures forall g :: TextOf(r, g) == TextOf(fd, g)
    ensures r.storeLocation == fd.storeLocation
  {
    match field
    case StaffFriendliness => fd.(staffFriendliness := v)
    case Cleanliness => fd.(cleanliness := v)
    case ProductAvailability => fd.(productAvailability := v)
    case OverallExperience => fd.(overallExperience := v)
  }

  /** A value the sliders can report: one thumb, an integer from 1 to 10 (min 1, max 10,
      step 1). */
  predicate IsSliderValue(v: seq<int>) {
    |v| == 1 && 1 <= v[0] <= 10
  }

  predicate RatingsOnScale(fd: FormData) {
    forall g :: IsSliderValue(RatingOf(fd, g))
  }

  /** Setting one field and then another leaves both set, in either order. */
  lemma TextUpdatesCommute(fd: FormData, f: TextField, g: TextField, v: string, w: string)
    requires f != g
    ensures WithText(WithText(fd, f, v), g, w) == WithText(WithText(fd, g, w), f, v)
  {
  }

  /** The initial ratings sit on the slider scale. */
  lemma InitialRatingsOnScale()
    ensures RatingsOnScale(InitialFormData)
  {
    forall g ensures IsSliderValue(RatingOf(InitialFormData, g)) {
    }
  }

  /** The number of characters of `s` that are not white space. */
  function NonSpaceCount(s: string): (n: nat)
    ensures n <= |s|
  {
    if s == [] then 0 else (if IsSpace(s[0]) then 0 else 1) + NonSpaceCount(s[1..])
  }

  /** The id of the page's own issue checkboxes, `issue.replace(/\s/g, '')`: the issue text
      with every white-space character removed. It is as long as the issue's non-space
      characters, and IssueCheckboxIdKeepsOrder says where each of them lands. */
  function IssueCheckboxId(issue: string): (id: string)
    ensures NoSpace(id)
    ensures |id| == NonSpaceCount(issue)
    ensures NoSpace(issue) ==> id == issue
  {
    if issue == [] then []
    else if IsSpace(issue[0]) then IssueCheckboxId(issue[1..])
    else [issue[0]] + IssueCheckboxId(issue[1..])
  }

  /** Each non-space character of the issue keeps its order in the id: the one at position
      `i` lands at the index that counts the non-space characters before it. */
  lemma {:induction false} IssueCheckboxIdKeepsOrder(issue: string, i: nat)
    requires i < |issue| && !IsSpace(issue[i])
    ensures NonSpaceCount(issue[..i]) < |IssueCheckboxId(issue)|
    ensures IssueCheckboxId(issue)[NonSpaceCount(issue[..i])] == issue[i]
  {
    if i > 0 {
      var before := issue[..i];
      assert before[0] == issue[0] && before[1..] == issue[1..][..i - 1];
      IssueCheckboxIdKeepsOrder(issue[1..], i - 1);
    }
  }

  /** The five issues listed inline on the page. */
  const PageIssues: seq<string> := [
    "Mislabelled products / allergies",
    "Unusual taste or odor",
    "Texture - too hard or soft",
    "Mold or spoilage",
    "Foreign elements"
  ]

  /** An issue whose first two characters are not white space keeps them at the head of its
      id. */
  lemma IssueCheckboxIdHead(issue: string)
    requires |issue| >= 2 && !IsSpace(issue[0]) && !IsSpace(issue[1])
    ensures |IssueCheckboxId(issue)| >= 2 && IssueCheckboxId(issue)[..2] == issue[..2]
  {
    assert issue[..0] == [];
    assert NonSpaceCount(issue[..1]) == 1;
    IssueCheckboxIdKeepsOrder(issue, 0);
    IssueCheckboxIdKeepsOrder(issue, 1);
  }

  /** Two issues whose first two characters are not white space and differ get different
      ids. */
  lemma IssueCheckboxIdsApart(a: string, b: string)
    requires |a| >= 2 && !IsSpace(a[0]) && !IsSpace(a[1])
    requires |b| >= 2 && !IsSpace(b[0]) && !IsSpace(b[1])
    requires a[0] != b[0] || a[1] != b[1]
    ensures IssueCheckboxId(a) != IssueCheckboxId(b)
  {
    IssueCheckboxIdHead(a);
    IssueCheckboxIdHead(b);
    assert IssueCheckboxId(a)[..2][0] == a[0] && IssueCheckboxId(a)[..2][1] == a[1];
    assert IssueCheckboxId(b)[..2][0] == b[0] && IssueCheckboxId(b)[..2][1] == b[1];
  }

  /** The page's five issue ids are all different: they start with "Mi", "Un", "Te", "Mo" and
      "Fo". So each label points at its own checkbox. */
  lemma PageIssueIdsDistinct()
    ensures forall i, j :: 0 <= i < j < |PageIssues| ==>
              IssueCheckboxId(PageIssues[i]) != IssueCheckboxId(PageIssues[j])
  {
    forall i, j | 0 <= i < j < |PageIssues|
      ensures IssueCheckboxId(PageIssues[i]) != IssueCheckboxId(PageIssues[j])
    {
      var a, b := PageIssues[i], PageIssues[j];
      IssueCheckboxIdsApart(a, b);
    }
  }

  /** The state a checkbox reports: Radix checkboxes may report "indeterminate". */
  datatype CheckedState = Checked | Unchecked | Indeterminate

  const ThankYouRoute: string := "/thank-you"
  const HomeRoute: string := "/home"

  /** The page. `pendingCompletions` counts the submission timers that have been started and
      have not fired; `navigations` records the navigate calls in order. */
  class FeedbackPage {
    var formData: FormData
    var isAnonymous: bool
    var date: int
    var submitting: bool
    var pendingCompletions: nat
    var navigations: seq<Navigation>

    /** The ratings stay on the slider scale, the page shows "Submitting..." only while a
        completion is pending, and no navigation from this page carries a state object. */
    ghost predicate Valid()
      reads this
    {
      && RatingsOnScale(formData)
      && (submitting ==> pendingCompletions > 0)
      && (forall i :: 0 <= i < |navigations| ==> navigations[i].state.None?)
    }

    /** The page mounts with an empty form, default ratings of 5, today's date, not
        anonymous and not submitting. */
    constructor (today: int)
      ensures Valid()
      ensures formData == InitialFormData && date == today
      ensures !isAnonymous && !submitting && pendingCompletions == 0 && navigations == []
    {
      formData := InitialFormData;
      isAnonymous := false;
      date := today;
      submitting := false;
      pendingCompletions := 0;
      navigations := [];
      InitialRatingsOnScale();
    }

    /** The name and e-mail inputs are rendered only when not anonymous; the comments box is
        rendered either way. */
    function IdentityFieldsShown(): (shown: bool)
      reads this
      ensures shown <==> !isAnonymous
    {
      !isAnonymous
    }

    /** The submit button is disabled while submitting, and then a completion is always
        pending that will enable it again. */
    function SubmitDisabled(): (disabled: bool)
      requires Valid()
      reads this
      ensures disabled ==> pendingCompletions > 0
      ensures disabled <==> submitting
    {
      submitting
    }

    /** The button reads "Submitting..." exactly while it is disabled. */
    function SubmitLabel(): (caption: string)
      requires Valid()
      reads this
      ensures caption == "Submitting..." <==> SubmitDisabled()
      ensures !SubmitDisabled() ==> caption == "Submit Feedback"
    {
      if submitting then "Submitting..." else "Submit Feedback"
    }

    /** `handleInputChange` for the input named `field`. */
    method HandleInputChange(field: TextField, value: string)
      requires Valid()
      modifies this
      ensures Valid()
      ensures formData == WithText(old(formData), field, value)
      ensures isAnonymous == old(isAnonymous) && date == old(date) && submitting == old(submitting)
      ensures pendingCompletions == old(pendingCompletions) && navigations == old(navigations)
    {
      formData := WithText(formData, field, value);
    }

    /** `handleSliderChange` for the slider of `field`; the slider reports values on its
        1..10 scale. */
    method HandleSliderChange(field: RatingField, value: seq<int>)
      requires Valid() && IsSliderValue(value)
      modifies this
      ensures Valid()
      ensures formData == WithRating(old(formData), field, value)
      ensures isAnonymous == old(isAnonymous) && date == old(date) && submitting == old(submitting)
      ensures pendingCompletions == old(pendingCompletions) && navigations == old(navigations)
    {
      var before := formData;
      formData := WithRating(formData, field, value);
      forall g ensures IsSliderValue(RatingOf(formData, g)) {
        if g != field {
          assert RatingOf(formData, g) == RatingOf(before, g);
        }
      }
    }

    /** `handleSelectChange("storeLocation", value)` from the store select. */
    method HandleStoreChange(value: string)
      requires Valid()
      modifies this
      ensures Valid()
      ensures formData == old(formData).(storeLocation := value)
      ensures isAnonymous == old(isAnonymous) && date == old(date) && submitting == old(submitting)
      ensures pendingCompletions == old(pendingCompletions) && navigations == old(navigations)
    {
      var before := formData;
      formData := formData.(storeLocation := value);
      assert forall g :: RatingOf(formData, g) == RatingOf(before, g);
    }

    /** The anonymity checkbox: anonymous only when it reports `true`. The name and e-mail
        keep their values while hidden. */
    method OnAnonymousChange(checked: CheckedState)
      requires Valid()
      modifies this
      ensures Valid()
      ensures isAnonymous == (checked == Checked)
      ensures IdentityFieldsShown() <==> checked != Checked
      ensures formData == old(formData) && date == old(date) && submitting == old(submitting)
      ensures pendingCompletions == old(pendingCompletions) && navigations == old(navigations)
    {
      isAnonymous := checked == Checked;
    }

    /** The calendar's `onSelect`: a picked day replaces the date; deselecting (no day) is
        ignored, so the date is never cleared. */
    method OnSelectDate(day: Option<int>)
      requires Valid()
      modifies this
      ensures Valid()
      ensures date == if day.Some? then day.value else old(date)
      ensures formData == old(formData) && isAnonymous == old(isAnonymous) && submitting == old(submitting)
      ensures pendingCompletions == old(pendingCompletions) && navigations == old(navigations)
    {
      if day.Some? {
        date := day.value;
      }
    }

    /** `handleSubmit`: whatever the form holds, mark the page as submitting and start the
        completion timer. The handler itself has no guard against a second call. */
    method HandleSubmit()
      requires Valid()
      modifies this
      ensures Valid()
      ensures submitting && pendingCompletions == old(pendingCompletions) + 1
      ensures formData == old(formData) && isAnonymous == old(isAnonymous) && date == old(date)
      ensures navigations == old(navigations)
    {
      submitting := true;
      pendingCompletions := pendingCompletions + 1;
    }

    /** A click on the submit button: a disabled button (while submitting) delivers no
        click. */
    method ClickSubmitButton()
      requires Valid()
      modifies this
      ensures Valid()
      ensures old(submitting) ==> submitting == old(submitting) && pendingCompletions == old(pendingCompletions)
      ensures !old(submitting) ==> submitting && pendingCompletions == old(pendingCompletions) + 1
      ensures formData == old(formData) && isAnonymous == old(isAnonymous) && date == old(date)
      ensures navigations == old(navigations)
    {
      if !SubmitDisabled() {
        HandleSubmit();
      }
    }

    /** The submission timer fires: the page leaves the submitting state and navigates to the
        thank-you page, carrying no state with it. The success toast is not modelled. */
    method CompleteSubmission()
      requires Valid() && pendingCompletions > 0
      modifies this
      ensures Valid()
      ensures !submitting && pendingCompletions == old(pendingCompletions) - 1
      ensures navigations == old(navigations) + [Navigation(ThankYouRoute, None)]
      ensures formData == old(formData) && isAnonymous == old(isAnonymous) && date == old(date)
    {
      submitting := false;
      pendingCompletions := pendingCompletions - 1;
      navigations := navigations + [Navigation(ThankYouRoute, None)];
    }

    /** "Back to Home" in the header and "Cancel" in the footer. */
    method GoHome()
      requires Valid()
      modifies this
      ensures Valid()
      ensures navigations == old(navigations) + [Navigation(HomeRoute, None)]
      ensures formData == old(formData) && isAnonymous == old(isAnonymous) && date == old(date)
      ensures submitting == old(submitting) && pendingCompletions == old(pendingCompletions)
    {
      navigations := navigations + [Navigation(HomeRoute, None)];
    }
  }

  /** A whole visit: from the freshly mounted page, submitting the untouched form through
      the button and letting the timer fire ends on the thank-you page with no state, and a
      second click while submitting starts nothing. */
  method SubmitUntouchedForm(today: int) returns (page: FeedbackPage)
    ensures page.formData == InitialFormData && !page.submitting && page.pendingCompletions == 0
    ensures page.navigations == [Navigation(ThankYouRoute, None)]
  {
    page := new FeedbackPage(today);
    page.ClickSubmitButton();
    page.ClickSubmitButton();
    page.CompleteSubmission();
  }
}
